# django-content-editor admin core, in Dafny

This project models the decisions in `content_editor/admin.py` that do not depend on Django itself:

- `ContentEditor._content_editor_context` assembles the payload for the client-side editor. The payload lists the plugin models of the content-editor inlines, the regions of the edited object's template and a fixed message map. It is modelled up to serialisation.
- `ContentEditor.render_change_form` does two things. It decides which instance the editor describes and which `template_key` that instance ends up with. It then attaches the payload to the editor script tag.
- `_CSPHelperMedia` is a media object that can also emit script tags with per-tag attributes.
- `ContentEditorInline.create` builds an inline class named after its model.

Django values become plain datatypes (`types.dfy`, module `ContentTypes`). The library calls whose code is not visible are total functions held in an `Env` record: `capfirst`, `ugettext`, `static`, the escaping done by `format_html`/`format_html_join`, `json.dumps`, and the instance's `template` property. The `template` property is taken as a lookup from a template key to an optional template. Every operation is a pure function.

Modules: `EditorContext` (`editor_context.dfy`), `ChangeForm` (`change_form.dfy`), `CspHelperMedia` (`csp_media.dfy`).

`render_change_form` indexes `request.POST['template_key']` directly (`content_editor/admin.py` lines 158-159). A POST without that key therefore raises, and `ChangeForm.ResolveOriginal` returns `Err(MissingPostKey)` in this case.

The plugin identifier `app_label + "_" + model_name` is not injective in general. `EditorContext.PluginIdCollision` exhibits two models that share an identifier. The identifier can be split back into its two parts when the model name contains no underscore (`EditorContext.PluginIdRoundTrip`).

## Model

| member | source | states |
|---|---|---|
| `EditorContext.PluginModels` | content_editor/admin.py:106-110 | At most one plugin per formset. Every plugin is the model of some content-editor formset, and every content-editor formset's model is among the plugins. |
| `EditorContext.PluginModelsExact` | content_editor/admin.py:106-110 | From any start position, plugin j is the model of the j-th content-editor formset, and the list holds exactly one entry per such formset. |
| `EditorContext.PluginsAreKeptFormsets` | content_editor/admin.py:106-110 | Exact filtering over the whole formset list: the plugins are the models at the kept positions, in order, with none added or dropped. |
| `EditorContext.KeptIndices` | content_editor/admin.py:108-109 | Reference filter: returns positions of content-editor formsets only, in strictly increasing order, covering all of them. |
| `EditorContext.PluginModelsAppend` | content_editor/admin.py:106-110 | Filtering distributes over concatenation of formset lists, so relative order is kept. |
| `EditorContext.PluginIdShape` | content_editor/admin.py:115-118 | The identifier is the app label, then one underscore, then the model name, with nothing else around them. |
| `EditorContext.PluginEntries` | content_editor/admin.py:114-120 | One entry per kept model, in order. Entry i is `(app_label_model_name, capfirst(verbose_name))` of model i. |
| `EditorContext.LastUnderscore` | content_editor/admin.py:115-118 | Finds the position of the last `_` in a string, or reports that there is none. |
| `EditorContext.SplitPluginId` | content_editor/admin.py:115-118 | Splitting an identifier at its last `_` gives a model-name part without underscores. |
| `EditorContext.PluginIdRoundTrip` | content_editor/admin.py:115-118 | Splitting recovers `(app_label, model_name)` from the identifier whenever the model name has no underscore. |
| `EditorContext.SplitPluginIdSound` | content_editor/admin.py:115-118 | Every identifier the split accepts is rebuilt exactly by joining its parts with `_`. |
| `EditorContext.PluginIdCollision` | content_editor/admin.py:115-118 | Apps `a_b`/`c` and `a`/`b_c` produce the same identifier. |
| `EditorContext.CreateInline` | content_editor/admin.py:30-40 | `create(model)` returns a content-editor inline for that model. Its class name is `ContentEditorInline_` followed by the model's plugin identifier. |
| `EditorContext.CreatedInlineIsPlugin` | content_editor/admin.py:31-40 | A formset whose inline came from `create` contributes its model to the plugin list, at its position among the kept formsets. |
| `EditorContext.RegionPairs` | content_editor/admin.py:121-124 | Same length as the template's regions. Pair i is the name and title of region i. |
| `EditorContext.RegionPairsRoundTrip` | content_editor/admin.py:121-124 | Reading the pairs back as regions gives the original region sequence, so nothing is added, dropped or reordered. |
| `EditorContext.PairsToRegionsRoundTrip` | content_editor/admin.py:121-124 | The converse round trip: pairs to regions and back gives the pairs. |
| `EditorContext.Messages` | content_editor/admin.py:125-136 | The message map has exactly one key, `createNew`, holding the translation of "Add new item". The commented-out keys are absent. |
| `EditorContext.ContentEditorContext` | content_editor/admin.py:105-137 | Succeeds iff the context has an `original` whose template resolves. With no `original` it fails with `NoOriginal`, and an unresolvable template gives `NoTemplate`. On success the plugins follow the content-editor formsets (a missing formset key reads as none), the regions are the template's, and the messages are exactly `{createNew: ugettext("Add new item")}`. |
| `ChangeForm.ResolveOriginal` | content_editor/admin.py:142-159 | Fails iff this is a POST for a model with `_feincms_templates` and `template_key` is missing from the POST data. Otherwise the template key comes from the first of these that applies: the POST value, the GET add-form initial value, the existing original's key, the fresh default instance's key. No other field changes. |
| `ChangeForm.OriginalOrDefault` | content_editor/admin.py:142-143 | With no `original` the fresh default instance is used. An existing one is used unchanged. |
| `ChangeForm.ApplyGetInitial` | content_editor/admin.py:145-149 | On the GET of an add form whose admin form has an initial `template_key`, the key becomes that value. Otherwise the instance is unchanged. Other fields never change. |
| `ChangeForm.ApplyPost` | content_editor/admin.py:156-159 | Fails iff this is a POST for a model with `_feincms_templates` and the POST data has no `template_key`. On such a POST with the key, the key becomes the submitted value. Otherwise the instance is unchanged. Other fields never change. |
| `ChangeForm.EditorAttrs` | content_editor/admin.py:162-165 | Two attributes under distinct keys: `id` holding `content-editor-script`, then `data-context` holding the serialised payload. |
| `ChangeForm.PostWins` | content_editor/admin.py:156-159 | With the POST override and the key present, the result is the base instance with the submitted key, whatever `add` and the admin form say. |
| `ChangeForm.ExistingOriginalKept` | content_editor/admin.py:142-149 | An existing original is returned unchanged when neither override applies. |
| `ChangeForm.RenderChangeForm` | content_editor/admin.py:139-173 | Propagates the missing-POST-key error. The only other failure is an unresolvable template of the resolved instance. On success: the context's `original` is the resolved instance, and `available_templates` is `_feincms_templates` or empty. The payload is exactly `_content_editor_context` run on the updated context, so its regions are that template's. The media wraps the stock media with exactly one queued editor script whose attributes are `id` then `data-context` (the serialised payload). |
| `ChangeForm.RegionsFollowPost` | content_editor/admin.py:153-165 | On POST, the payload shows the regions of the submitted template, not those of the persisted key. |
| `ChangeForm.RegionsFollowGetInitial` | content_editor/admin.py:145-165 | On the GET of an add form with an initial template key, the payload shows that template's regions. |
| `ChangeForm.RenderedScripts` | content_editor/admin.py:161-165 | The rendered scripts are the stock scripts followed by exactly one tag, the editor script carrying its id and payload. |
| `CspHelperMedia.Wrap` | content_editor/admin.py:66-68 | The wrapper keeps the wrapped media and starts with an empty queue. |
| `CspHelperMedia.AddCspJs` | content_editor/admin.py:70-71 | Append only: the queue grows by one entry, the old queue is its prefix, the new entry is last, and the native media is unchanged. |
| `CspHelperMedia.AttrHtmlShape` | content_editor/admin.py:79-80 | One item is the escaped key, `="`, the escaped value and a closing quote. |
| `CspHelperMedia.AttrsHtmlShape` | content_editor/admin.py:77-81 | The joined attributes are empty exactly when there are none. Otherwise the first item comes first, followed by a space when more follow. |
| `CspHelperMedia.ScriptTagShape` | content_editor/admin.py:74-76 | A tag is the fixed `<script type="text/javascript" src="` opening, the escaped static URL of the path, `" `, the joined attributes (not escaped again) and `></script>`. |
| `CspHelperMedia.ScriptTags` | content_editor/admin.py:74-82 | One tag per queued entry, in queue order. |
| `CspHelperMedia.RenderJs` | content_editor/admin.py:73-82 | The native output is a prefix. It is followed by exactly one tag per queued entry, in queue order. With an empty queue the output is the native output exactly. |
| `CspHelperMedia.RenderAfterAdd` | content_editor/admin.py:70-82 | Rendering after `add_csp_js` equals the earlier rendering followed by the new entry's tag. |
| `CspHelperMedia.AttrsHtmlSnoc` | content_editor/admin.py:77-81 | Attributes render in insertion order: a later attribute appears after the earlier ones, separated by one space. |
| `CspHelperMedia.ScriptTagWithoutAttrs` | content_editor/admin.py:74-75 | With no attributes, the tag keeps the space that follows `src="…"`. |

## Left out

- Django base classes (`ModelAdmin`, `StackedInline`), the call to the stock `render_change_form`, the `ContentEditorForm` fields and the static `Media` asset lists: these are framework wiring.
- `static()` URL resolution, `capfirst` and `ugettext`: these are library calls. They are modelled as uninterpreted functions, and nothing is claimed about their internals.
- `CspHelperMedia.AttrHtml`: attribute keys and values are plain strings. So `conditional_escape` inside `format_html` acts as an uninterpreted `escape` on each of them. A caller that passes strings already marked safe would see them left unescaped, and that case is not modelled. The one call in `render_change_form` passes plain strings.
- `ChangeForm.RenderChangeForm`: takes dict order to be insertion order (Python 3.7 and later). So `id` precedes `data-context` in the rendered tag. On Python 2, and between processes on Python 3.3 to 3.5, the order of the attribute dict literal is not fixed. `Attrs` is the dict's items in `items()` order.
- `json.dumps`: the payload is a structured record. Its serialisation is an uninterpreted function.
- The instance's `template` property lives in the model code, outside `content_editor/admin.py`. It is modelled as a lookup from template key to an optional template.
- Django's stock `render_js`: the wrapped media is reduced to the list that this method returns.
- `request.POST` is a multi-valued `QueryDict`. It is modelled as a map holding the value that indexing returns.
- Truthiness of `original`: model instances are always truthy, so an absent `original` and a `None` one are the same case here.
- `self.__dict__ = media.__dict__` sharing and the dynamic `type(...)` class creation are modelled as plain composition and a record. The unreachable `return js` after `render_js`'s `return` is not modelled.
- `context['media']` is always present in the model. The `KeyError` that a context without media would raise is not modelled.
- Calling `_content_editor_context` twice on the same context gives the same payload because the model is a pure function. No separate lemma states this.
- `CreateInline`: the other keyword arguments of `create` become class attributes. Only `model` and the class name are modelled.
