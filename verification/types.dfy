/** Plain-data stand-ins for the Django values the content editor admin reads
    and writes, plus the failure-compatible result type its operations return. */
module ContentTypes {

  datatype Option<+T> = None | Some(value: T) {
    function GetOr(default: T): T {
      match this
      case Some(v) => v
      case None => default
    }
  }

  /** The ways the admin code fails: `None.template` on a context without an
      `original`, an instance whose `template` property finds no template, and
      the `KeyError` of indexing `request.POST` with a missing key. */
  datatype Error = NoOriginal | NoTemplate(key: string) | MissingPostKey(key: string)

  datatype Result<+T> = Ok(value: T) | Err(error: Error) {
    predicate IsFailure() {
      Err?
    }

    function PropagateFailure<U>(): Result<U>
      requires Err?
    {
      Err(error)
    }

    function Extract(): T
      requires Ok?
    {
      value
    }
  }

  /** What `model._meta` exposes to the editor. */
  datatype ModelMeta = ModelMeta(appLabel: string, modelName: string, verboseName: string)

  datatype Region = Region(name: string, title: string)

  datatype Template = Template(key: string, title: string, regions: seq<Region>)

  /** An edited object: its selected template key and every other field,
      which the admin code never touches. */
  datatype Instance = Instance(templateKey: string, fields: map<string, string>)

  /** A model class: its metadata, its `_feincms_templates` attribute (None when
      the class has no such attribute) and the instance `self.model()` builds. */
  datatype ModelClass = ModelClass(meta: ModelMeta, feincmsTemplates: Option<seq<Template>>, defaults: Instance)

  /** The options object of an inline formset. `isContentEditorInline` stands
      for `isinstance(opts, ContentEditorInline)`. */
  datatype InlineOpts = InlineOpts(className: string, model: ModelMeta, isContentEditorInline: bool)

  datatype InlineFormset = InlineFormset(opts: InlineOpts)

  datatype AdminForm = AdminForm(initial: map<string, string>)

  /** A stock `forms.Media`, reduced to what its own `render_js` returns. */
  datatype Media = Media(nativeJs: seq<string>)

  /** The change-form render context: the keys the admin code reads, each
      `None` when the key is absent (`media` is always present). */
  datatype Context = Context(
    inlineFormsets: Option<seq<InlineFormset>>,
    original: Option<Instance>,
    adminform: Option<AdminForm>,
    media: Media)

  datatype Request = Request(httpMethod: string, post: map<string, string>)

  /** The structure `_content_editor_context` hands to `json.dumps`. */
  datatype Payload = Payload(
    plugins: seq<(string, string)>,
    regions: seq<(string, string)>,
    messages: map<string, string>)

  /** Library code the admin calls but whose behaviour is not modelled:
      `capfirst`, `ugettext`, `static`, the escaping of `format_html`,
      `json.dumps`, and the instance's `template` property (a lookup by
      template key). */
  datatype Env = Env(
    capfirst: string -> string,
    ugettext: string -> string,
    staticUrl: string -> string,
    escape: string -> string,
    dumps: Payload -> string,
    templateFor: string -> Option<Template>)
}
