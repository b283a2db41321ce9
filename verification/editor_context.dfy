/** `ContentEditor._content_editor_context` and `ContentEditorInline.create`:
    the description of plugins, regions and messages the client-side editor
    receives, before it is serialised. */
module EditorContext {
  import opened ContentTypes

  const CreateNewKey := "createNew"
  const CreateNewText := "Add new item"
  const InlineClassPrefix := "ContentEditorInline_"

  // ---------------------------------------------------------------- plugins

  /** The models of the formsets whose options are content-editor inlines,
      in formset order. */
  function PluginModels(formsets: seq<InlineFormset>): (models: seq<ModelMeta>)
    ensures |models| <= |formsets|
    ensures forall m :: m in models ==>
      exists i :: 0 <= i < |formsets| && formsets[i].opts.isContentEditorInline && formsets[i].opts.model == m
    ensures forall i :: 0 <= i < |formsets| && formsets[i].opts.isContentEditorInline ==> formsets[i].opts.model in models
  {
    if |formsets| == 0 then []
    else
      var rest := PluginModels(formsets[1..]);
      assert forall i :: 1 <= i < |formsets| ==> formsets[i] == formsets[1..][i - 1];
      if formsets[0].opts.isContentEditorInline then [formsets[0].opts.model] + rest else rest
  }

  /** Reference definition of the filter: the positions, from `start` on, of
      the formsets whose options are content-editor inlines. */
  function KeptIndices(formsets: seq<InlineFormset>, start: nat): (ix: seq<nat>)
    requires start <= |formsets|
    ensures forall j :: 0 <= j < |ix| ==> start <= ix[j] < |formsets| && formsets[ix[j]].opts.isContentEditorInline
    ensures forall j, k :: 0 <= j < k < |ix| ==> ix[j] < ix[k]
    ensures forall i :: start <= i < |formsets| && formsets[i].opts.isContentEditorInline ==> i in ix
    decreases |formsets| - start
  {
    if start == |formsets| then []
    else if formsets[start].opts.isContentEditorInline then [start] + KeptIndices(formsets, start + 1)
    else KeptIndices(formsets, start + 1)
  }

  /** The plugin models are exactly the models at the kept positions, one per
      position, in increasing position order. */
  lemma {:induction false} PluginModelsExact(formsets: seq<InlineFormset>, start: nat)
    requires start <= |formsets|
    ensures |PluginModels(formsets[start..])| == |KeptIndices(formsets, start)|
    ensures forall j :: 0 <= j < |KeptIndices(formsets, start)| ==>
      PluginModels(formsets[start..])[j] == formsets[KeptIndices(formsets, start)[j]].opts.model
    decreases |formsets| - start
  {
    if start < |formsets| {
      assert formsets[start..][1..] == formsets[start + 1..];
      PluginModelsExact(formsets, start + 1);
    }
  }

  /** The plugin list holds exactly the models of the content-editor
      formsets, one entry per such formset, in formset order. */
  lemma PluginsAreKeptFormsets(formsets: seq<InlineFormset>)
    ensures |PluginModels(formsets)| == |KeptIndices(formsets, 0)|
    ensures forall j :: 0 <= j < |KeptIndices(formsets, 0)| ==>
      PluginModels(formsets)[j] == formsets[KeptIndices(formsets, 0)[j]].opts.model
  {
    assert formsets[0..] == formsets;
    PluginModelsExact(formsets, 0);
  }

  /** Filtering distributes over concatenation, so relative order is kept. */
  lemma {:induction false} PluginModelsAppend(a: seq<InlineFormset>, b: seq<InlineFormset>)
    ensures PluginModels(a + b) == PluginModels(a) + PluginModels(b)
  {
    if |a| == 0 {
      assert a + b == b;
    } else {
      assert (a + b)[1..] == a[1..] + b;
      PluginModelsAppend(a[1..], b);
    }
  }

  /** `'%s_%s' % (app_label, model_name)`. */
  function PluginId(m: ModelMeta): string {
    m.appLabel + "_" + m.modelName
  }

  /** The identifier is the app label, one underscore, then the model name,
      with nothing around them. */
  lemma PluginIdShape(m: ModelMeta)
    ensures |PluginId(m)| == |m.appLabel| + 1 + |m.modelName|
    ensures PluginId(m)[..|m.appLabel|] == m.appLabel
    ensures PluginId(m)[|m.appLabel|] == '_'
    ensures PluginId(m)[|m.appLabel| + 1..] == m.modelName
  {
  }

  /** One `(identifier, capfirst(verbose_name))` pair per plugin model. */
  function PluginEntries(models: seq<ModelMeta>, capfirst: string -> string): (entries: seq<(string, string)>)
    ensures |entries| == |models|
    ensures forall i :: 0 <= i < |models| ==>
      entries[i].0 == PluginId(models[i]) && entries[i].1 == capfirst(models[i].verboseName)
  {
    if |models| == 0 then []
    else [(PluginId(models[0]), capfirst(models[0].verboseName))] + PluginEntries(models[1..], capfirst)
  }

  /** Position of the last underscore in `s`, if any. */
  function LastUnderscore(s: string): (r: Option<nat>)
    ensures r.Some? ==> r.value < |s| && s[r.value] == '_'
    ensures r.Some? ==> forall k :: r.value < k < |s| ==> s[k] != '_'
    ensures r.None? ==> forall k :: 0 <= k < |s| ==> s[k] != '_'
  {
    if |s| == 0 then None
    else if s[|s| - 1] == '_' then Some(|s| - 1)
    else LastUnderscore(s[..|s| - 1])
  }

  /** Splits a plugin identifier back into app label and model name at its
      last underscore. */
  function SplitPluginId(id: string): (r: Option<(string, string)>)
    ensures r.Some? ==> '_' !in r.value.1
  {
    match LastUnderscore(id)
    case None => None
    case Some(i) => Some((id[..i], id[i + 1..]))
  }

  /** The identifier determines app label and model name whenever the model
      name has no underscore (Django lower-cases the class name to get it). */
  lemma PluginIdRoundTrip(m: ModelMeta)
    requires '_' !in m.modelName
    ensures SplitPluginId(PluginId(m)) == Some((m.appLabel, m.modelName))
  {
    var s := PluginId(m);
    var n := |m.appLabel|;
    assert s[n] == '_';
    assert s[n + 1..] == m.modelName;
    assert s[..n] == m.appLabel;
    assert forall k :: n < k < |s| ==> s[k] == m.modelName[k - n - 1];
    assert LastUnderscore(s) == Some(n);
  }

  /** Every identifier the split accepts is rebuilt by `PluginId`. */
  lemma SplitPluginIdSound(id: string, verboseName: string)
    requires SplitPluginId(id).Some?
    ensures PluginId(ModelMeta(SplitPluginId(id).value.0, SplitPluginId(id).value.1, verboseName)) == id
  {
  }

  /** Without the hypothesis of `PluginIdRoundTrip` two different models can
      share an identifier. */
  lemma PluginIdCollision()
    ensures PluginId(ModelMeta("a_b", "c", "x")) == PluginId(ModelMeta("a", "b_c", "x"))
  {
  }

  // ---------------------------------------------------------------- inlines

  /** `ContentEditorInline.create(model)`: a content-editor inline class for
      `model`, named after the plugin identifier. */
  function CreateInline(model: ModelMeta): (opts: InlineOpts)
    ensures opts.isContentEditorInline
    ensures opts.model == model
    ensures opts.className == InlineClassPrefix + PluginId(model)
  {
    InlineOpts(InlineClassPrefix + PluginId(model), model, true)
  }

  /** Every inline built by `CreateInline` is listed among the plugins, at
      the position of its formset among the content-editor formsets. */
  lemma CreatedInlineIsPlugin(before: seq<InlineFormset>, model: ModelMeta, after: seq<InlineFormset>)
    ensures PluginModels(before + [InlineFormset(CreateInline(model))] + after)
      == PluginModels(before) + [model] + PluginModels(after)
  {
    var f := [InlineFormset(CreateInline(model))];
    PluginModelsAppend(before + f, after);
    PluginModelsAppend(before, f);
    assert f[1..] == [];
  }

  // ---------------------------------------------------------------- regions

  /** `(region.name, region.title)` for each region. */
  function RegionPairs(regions: seq<Region>): (pairs: seq<(string, string)>)
    ensures |pairs| == |regions|
    ensures forall i :: 0 <= i < |regions| ==> pairs[i].0 == regions[i].name && pairs[i].1 == regions[i].title
  {
    if |regions| == 0 then []
    else [(regions[0].name, regions[0].title)] + RegionPairs(regions[1..])
  }

  /** The inverse of `RegionPairs`. */
  function PairsToRegions(pairs: seq<(string, string)>): (regions: seq<Region>)
    ensures |regions| == |pairs|
  {
    if |pairs| == 0 then []
    else [Region(pairs[0].0, pairs[0].1)] + PairsToRegions(pairs[1..])
  }

  /** Nothing is added, dropped or reordered: the pairs give back the regions. */
  lemma {:induction false} RegionPairsRoundTrip(regions: seq<Region>)
    ensures PairsToRegions(RegionPairs(regions)) == regions
  {
    if |regions| > 0 {
      assert RegionPairs(regions)[1..] == RegionPairs(regions[1..]);
      RegionPairsRoundTrip(regions[1..]);
    }
  }

  lemma {:induction false} PairsToRegionsRoundTrip(pairs: seq<(string, string)>)
    ensures RegionPairs(PairsToRegions(pairs)) == pairs
  {
    if |pairs| > 0 {
      assert PairsToRegions(pairs)[1..] == PairsToRegions(pairs[1..]);
      PairsToRegionsRoundTrip(pairs[1..]);
    }
  }

  // --------------------------------------------------------------- messages

  /** The message map: only `createNew`; the other keys are commented out in
      the admin code and never emitted. */
  function Messages(ugettext: string -> string): (msgs: map<string, string>)
    ensures msgs.Keys == {CreateNewKey}
    ensures msgs[CreateNewKey] == ugettext(CreateNewText)
    ensures "delete" !in msgs && "changeTemplate" !in msgs && "changeTemplateWithMove" !in msgs
  {
    map[CreateNewKey := ugettext(CreateNewText)]
  }

  // ---------------------------------------------------------------- payload

  /** The formsets of the context; a missing key reads as no formsets. */
  function Formsets(ctx: Context): seq<InlineFormset> {
    ctx.inlineFormsets.GetOr([])
  }

  /** `_content_editor_context`, up to serialisation. It fails when the
      context has no `original` (`None.template`) and when the original's
      template cannot be found. */
  function ContentEditorContext(ctx: Context, env: Env): (r: Result<Payload>)
    ensures r.Ok? <==> ctx.original.Some? && env.templateFor(ctx.original.value.templateKey).Some?
    ensures ctx.original.None? ==> r == Err(NoOriginal)
    ensures ctx.original.Some? && r.Err? ==> r.error == NoTemplate(ctx.original.value.templateKey)
    ensures r.Ok? ==>
      var models := PluginModels(Formsets(ctx));
      var regions := env.templateFor(ctx.original.value.templateKey).value.regions;
      && |r.value.plugins| == |models|
      && (forall i :: 0 <= i < |models| ==> r.value.plugins[i] == (PluginId(models[i]), env.capfirst(models[i].verboseName)))
      && PairsToRegions(r.value.regions) == regions
      && r.value.messages == Messages(env.ugettext)
      && r.value.messages.Keys == {CreateNewKey}
  {
    var plugins := PluginModels(Formsets(ctx));
    match ctx.original
    case None => Err(NoOriginal)
    case Some(instance) =>
      match env.templateFor(instance.templateKey)
      case None => Err(NoTemplate(instance.templateKey))
      case Some(template) =>
        RegionPairsRoundTrip(template.regions);
        Ok(Payload(PluginEntries(plugins, env.capfirst), RegionPairs(template.regions), Messages(env.ugettext)))
  }
}
