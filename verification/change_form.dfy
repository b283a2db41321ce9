/** `ContentEditor.render_change_form`: which instance the editor describes,
    which template key it ends up with, and the script tag that carries the
    editor payload. */
module ChangeForm {
  import opened ContentTypes
  import opened EditorContext
  import opened CspHelperMedia

  const TemplateKeyField := "template_key"
  const EditorScript := "content_editor/content_editor.js"
  const EditorScriptId := "content-editor-script"

  /** A POST for a model class that has `_feincms_templates`: the submitted
      template key is applied. */
  predicate PostOverrides(req: Request, model: ModelClass) {
    req.httpMethod == "POST" && model.feincmsTemplates.Some?
  }

  /** A GET of the add form whose admin form has an initial template key:
      that key is applied. */
  predicate GetInitialApplies(req: Request, ctx: Context, add: bool) {
    add && req.httpMethod == "GET" && ctx.adminform.Some? && TemplateKeyField in ctx.adminform.value.initial
  }

  /** A missing or empty `original` is replaced by `self.model()`; an
      existing one is used as it is. */
  function OriginalOrDefault(ctx: Context, model: ModelClass): (inst: Instance)
    ensures ctx.original.Some? ==> inst == ctx.original.value
    ensures ctx.original.None? ==> inst == model.defaults
  {
    match ctx.original
    case Some(inst) => inst
    case None => model.defaults
  }

  /** The GET add-form step: only the template key can change, and only
      when the initial form data carries one. */
  function ApplyGetInitial(inst: Instance, req: Request, ctx: Context, add: bool): (r: Instance)
    ensures r.fields == inst.fields
    ensures GetInitialApplies(req, ctx, add) ==> r.templateKey == ctx.adminform.value.initial[TemplateKeyField]
    ensures !GetInitialApplies(req, ctx, add) ==> r == inst
  {
    if GetInitialApplies(req, ctx, add) then inst.(templateKey := ctx.adminform.value.initial[TemplateKeyField])
    else inst
  }

  /** The POST step: `request.POST['template_key']` raises when the key is
      missing; otherwise only the template key can change. */
  function ApplyPost(inst: Instance, req: Request, model: ModelClass): (r: Result<Instance>)
    ensures r.Err? <==> PostOverrides(req, model) && TemplateKeyField !in req.post
    ensures r.Err? ==> r.error == MissingPostKey(TemplateKeyField)
    ensures r.Ok? ==> r.value.fields == inst.fields
    ensures r.Ok? && PostOverrides(req, model) ==> r.value.templateKey == req.post[TemplateKeyField]
    ensures !PostOverrides(req, model) ==> r == Ok(inst)
  {
    if !PostOverrides(req, model) then Ok(inst)
    else if TemplateKeyField in req.post then Ok(inst.(templateKey := req.post[TemplateKeyField]))
    else Err(MissingPostKey(TemplateKeyField))
  }

  /** The instance `render_change_form` leaves in `context['original']`. The
      POST value wins over the GET initial value, which wins over the key the
      instance already has; only a POST without the key fails, and no other
      field of the instance changes. */
  function ResolveOriginal(req: Request, ctx: Context, add: bool, model: ModelClass): (r: Result<Instance>)
    ensures r.Err? <==> PostOverrides(req, model) && TemplateKeyField !in req.post
    ensures r.Err? ==> r.error == MissingPostKey(TemplateKeyField)
    ensures r.Ok? ==> r.value.fields == (if ctx.original.Some? then ctx.original.value.fields else model.defaults.fields)
    ensures r.Ok? && PostOverrides(req, model) ==> r.value.templateKey == req.post[TemplateKeyField]
    ensures r.Ok? && !PostOverrides(req, model) && GetInitialApplies(req, ctx, add) ==>
      r.value.templateKey == ctx.adminform.value.initial[TemplateKeyField]
    ensures r.Ok? && !PostOverrides(req, model) && !GetInitialApplies(req, ctx, add) ==>
      r.value.templateKey == (if ctx.original.Some? then ctx.original.value.templateKey else model.defaults.templateKey)
  {
    var inst := OriginalOrDefault(ctx, model);
    var inst := ApplyGetInitial(inst, req, ctx, add);
    ApplyPost(inst, req, model)
  }

  /** The submitted key overrides any key the existing original had and any
      initial form value, whatever the `add` flag says. */
  lemma PostWins(req: Request, ctx: Context, add: bool, model: ModelClass)
    requires PostOverrides(req, model) && TemplateKeyField in req.post
    ensures ResolveOriginal(req, ctx, add, model) == Ok(OriginalOrDefault(ctx, model).(templateKey := req.post[TemplateKeyField]))
  {
  }

  /** Without a POST override, an existing original is kept as it is unless
      the GET initial value applies. */
  lemma ExistingOriginalKept(req: Request, ctx: Context, add: bool, model: ModelClass)
    requires ctx.original.Some?
    requires !PostOverrides(req, model) && !GetInitialApplies(req, ctx, add)
    ensures ResolveOriginal(req, ctx, add, model) == Ok(ctx.original.value)
  {
  }

  // ------------------------------------------------------------- rendering

  /** What `render_change_form` hands on to the stock admin: the context with
      its `original` set (`context.media` still the stock media), the wrapped
      media, `available_templates`, and the payload serialised into the
      editor script's `data-context` attribute. */
  datatype Rendered = Rendered(context: Context, media: CspMedia, availableTemplates: seq<Template>, editorContext: Payload)

  /** The attributes of the editor script: its id and the serialised
      payload, under two distinct keys. */
  function EditorAttrs(payload: Payload, env: Env): (attrs: Attrs)
    ensures |attrs| == 2 && attrs[0].0 != attrs[1].0
    ensures attrs[0] == ("id", EditorScriptId)
    ensures attrs[1] == ("data-context", env.dumps(payload))
  {
    [("id", EditorScriptId), ("data-context", env.dumps(payload))]
  }

  /** `render_change_form` up to the call of the stock implementation. */
  function RenderChangeForm(req: Request, ctx: Context, add: bool, model: ModelClass, env: Env): (r: Result<Rendered>)
    ensures ResolveOriginal(req, ctx, add, model).Err? ==> r == Err(MissingPostKey(TemplateKeyField))
    ensures ResolveOriginal(req, ctx, add, model).Ok? ==>
      var inst := ResolveOriginal(req, ctx, add, model).value;
      && (r.Ok? <==> env.templateFor(inst.templateKey).Some?)
      && (r.Err? ==> r.error == NoTemplate(inst.templateKey))
      && (r.Ok? ==>
          && r.value.context == ctx.(original := Some(inst))
          && r.value.availableTemplates == model.feincmsTemplates.GetOr([])
          && r.value.editorContext == ContentEditorContext(ctx.(original := Some(inst)), env).value
          && PairsToRegions(r.value.editorContext.regions) == env.templateFor(inst.templateKey).value.regions
          && r.value.editorContext.messages.Keys == {CreateNewKey}
          && r.value.media.native == ctx.media
          && r.value.media.queue == [CspEntry(EditorScript, EditorAttrs(r.value.editorContext, env))])
  {
    var inst :- ResolveOriginal(req, ctx, add, model);
    var ctx' := ctx.(original := Some(inst));
    var payload :- ContentEditorContext(ctx', env);
    var media := AddCspJs(Wrap(ctx.media), EditorScript, EditorAttrs(payload, env));
    Ok(Rendered(ctx', media, model.feincmsTemplates.GetOr([]), payload))
  }

  /** The regions shown are those of the template chosen in the submitted
      form, not of the key the object had before. */
  lemma RegionsFollowPost(req: Request, ctx: Context, add: bool, model: ModelClass, env: Env, t: Template)
    requires PostOverrides(req, model) && TemplateKeyField in req.post
    requires env.templateFor(req.post[TemplateKeyField]) == Some(t)
    ensures RenderChangeForm(req, ctx, add, model, env).Ok?
    ensures PairsToRegions(RenderChangeForm(req, ctx, add, model, env).value.editorContext.regions) == t.regions
  {
  }

  /** On the GET of an add form with an initial template key, the regions
      shown are those of that template. */
  lemma RegionsFollowGetInitial(req: Request, ctx: Context, model: ModelClass, env: Env, t: Template)
    requires GetInitialApplies(req, ctx, true)
    requires env.templateFor(ctx.adminform.value.initial[TemplateKeyField]) == Some(t)
    ensures RenderChangeForm(req, ctx, true, model, env).Ok?
    ensures PairsToRegions(RenderChangeForm(req, ctx, true, model, env).value.editorContext.regions) == t.regions
  {
  }

  /** The page's scripts are the stock scripts followed by exactly one tag:
      the editor script, carrying its id and the serialised payload. */
  lemma RenderedScripts(req: Request, ctx: Context, add: bool, model: ModelClass, env: Env)
    requires RenderChangeForm(req, ctx, add, model, env).Ok?
    ensures
      var rendered := RenderChangeForm(req, ctx, add, model, env).value;
      RenderJs(rendered.media, env)
        == ctx.media.nativeJs + [ScriptTag(CspEntry(EditorScript, EditorAttrs(rendered.editorContext, env)), env)]
  {
  }
}
