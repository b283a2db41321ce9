/** `_CSPHelperMedia`: a stock media object plus a queue of script tags that
    carry extra attributes. The wrapper shares the wrapped object's state
    instead of copying it, which is modelled here as plain composition. */
module CspHelperMedia {
  import opened ContentTypes

  /** A dict of tag attributes, as its items in `items()` order. */
  type Attrs = seq<(string, string)>

  datatype CspEntry = CspEntry(path: string, attrs: Attrs)

  datatype CspMedia = CspMedia(native: Media, queue: seq<CspEntry>)

  /** `_CSPHelperMedia(media)`: same native assets, empty queue. */
  function Wrap(media: Media): (m: CspMedia)
    ensures m.native == media
    ensures |m.queue| == 0
  {
    CspMedia(media, [])
  }

  /** `add_csp_js`: appends one entry and changes nothing else. */
  function AddCspJs(m: CspMedia, path: string, attrs: Attrs): (m': CspMedia)
    ensures m'.native == m.native
    ensures |m'.queue| == |m.queue| + 1
    ensures m'.queue[..|m.queue|] == m.queue
    ensures m'.queue[|m.queue|].path == path && m'.queue[|m.queue|].attrs == attrs
  {
    CspMedia(m.native, m.queue + [CspEntry(path, attrs)])
  }

  const ScriptOpen := "<script type=\"text/javascript\" src=\""
  const ScriptClose := "></script>"

  /** One `{}="{}"` item of `format_html_join`, key and value escaped. */
  function AttrHtml(attr: (string, string), escape: string -> string): string {
    escape(attr.0) + "=\"" + escape(attr.1) + "\""
  }

  /** An item is the escaped key, `="`, the escaped value and a closing quote. */
  lemma AttrHtmlShape(attr: (string, string), escape: string -> string)
    ensures
      var html := AttrHtml(attr, escape);
      var k := escape(attr.0);
      && |html| == |k| + |escape(attr.1)| + 3
      && html[..|k|] == k
      && html[|k|..|k| + 2] == "=\""
      && html[|k| + 2..|html| - 1] == escape(attr.1)
      && html[|html| - 1] == '"'
  {
  }

  /** `format_html_join(' ', '{}="{}"', attrs.items())`. */
  function AttrsHtml(attrs: Attrs, escape: string -> string): string {
    if |attrs| == 0 then ""
    else if |attrs| == 1 then AttrHtml(attrs[0], escape)
    else AttrHtml(attrs[0], escape) + " " + AttrsHtml(attrs[1..], escape)
  }

  /** The join is empty exactly when there are no attributes; otherwise the
      first item comes first, followed by a space when more items follow. */
  lemma AttrsHtmlShape(attrs: Attrs, escape: string -> string)
    ensures |attrs| == 0 <==> |AttrsHtml(attrs, escape)| == 0
    ensures |attrs| > 0 ==>
      var first := AttrHtml(attrs[0], escape);
      |first| <= |AttrsHtml(attrs, escape)| && AttrsHtml(attrs, escape)[..|first|] == first
    ensures |attrs| > 1 ==>
      var first := AttrHtml(attrs[0], escape);
      |first| < |AttrsHtml(attrs, escape)| && AttrsHtml(attrs, escape)[|first|] == ' '
  {
  }

  /** The tag `render_js` builds for one queued entry; `static(path)` is a
      plain string and is escaped, the joined attributes are already safe. */
  function ScriptTag(e: CspEntry, env: Env): string {
    ScriptOpen + env.escape(env.staticUrl(e.path)) + "\" " + AttrsHtml(e.attrs, env.escape) + ScriptClose
  }

  /** A tag is the fixed opening, the escaped static URL, `" `, the joined
      attributes (not escaped again) and the fixed closing. */
  lemma ScriptTagShape(e: CspEntry, env: Env)
    ensures
      var tag := ScriptTag(e, env);
      var url := env.escape(env.staticUrl(e.path));
      var attrs := AttrsHtml(e.attrs, env.escape);
      && |tag| == |ScriptOpen| + |url| + 2 + |attrs| + |ScriptClose|
      && tag[..|ScriptOpen|] == ScriptOpen
      && tag[|ScriptOpen|..|ScriptOpen| + |url|] == url
      && tag[|ScriptOpen| + |url|..|ScriptOpen| + |url| + 2] == "\" "
      && tag[|ScriptOpen| + |url| + 2..|tag| - |ScriptClose|] == attrs
      && tag[|tag| - |ScriptClose|..] == ScriptClose
  {
  }

  function ScriptTags(queue: seq<CspEntry>, env: Env): (tags: seq<string>)
    ensures |tags| == |queue|
    ensures forall i :: 0 <= i < |queue| ==> tags[i] == ScriptTag(queue[i], env)
  {
    if |queue| == 0 then [] else [ScriptTag(queue[0], env)] + ScriptTags(queue[1..], env)
  }

  /** `render_js`: the stock output first, then one tag per queued entry in
      queue order. */
  function RenderJs(m: CspMedia, env: Env): (js: seq<string>)
    ensures |js| == |m.native.nativeJs| + |m.queue|
    ensures js[..|m.native.nativeJs|] == m.native.nativeJs
    ensures forall i :: 0 <= i < |m.queue| ==> js[|m.native.nativeJs| + i] == ScriptTag(m.queue[i], env)
    ensures |m.queue| == 0 ==> js == m.native.nativeJs
  {
    m.native.nativeJs + ScriptTags(m.queue, env)
  }

  /** Queueing one entry adds exactly its tag at the end of the rendered
      list and leaves everything before it as it was. */
  lemma RenderAfterAdd(m: CspMedia, path: string, attrs: Attrs, env: Env)
    ensures RenderJs(AddCspJs(m, path, attrs), env) == RenderJs(m, env) + [ScriptTag(CspEntry(path, attrs), env)]
  {
  }

  /** Attributes render in insertion order: a later attribute lands after
      every earlier one, separated by one space. */
  lemma {:induction false} AttrsHtmlSnoc(attrs: Attrs, attr: (string, string), escape: string -> string)
    requires |attrs| > 0
    ensures AttrsHtml(attrs + [attr], escape) == AttrsHtml(attrs, escape) + " " + AttrHtml(attr, escape)
    decreases |attrs|
  {
    var longer := attrs + [attr];
    var head := AttrHtml(attrs[0], escape);
    var last := AttrHtml(attr, escape);
    assert longer[0] == attrs[0];
    if |attrs| == 1 {
      assert longer[1..] == [attr];
      assert AttrsHtml(longer[1..], escape) == last;
    } else {
      var tail := AttrsHtml(attrs[1..], escape);
      assert longer[1..] == attrs[1..] + [attr];
      AttrsHtmlSnoc(attrs[1..], attr, escape);
      assert AttrsHtml(longer, escape) == head + " " + (tail + " " + last);
      assert head + " " + (tail + " " + last) == (head + " " + tail) + " " + last;
    }
  }

  /** With no attributes the tag still has the space `render_js`'s format
      string puts after `src`. */
  lemma ScriptTagWithoutAttrs(path: string, env: Env)
    ensures ScriptTag(CspEntry(path, []), env)
      == ScriptOpen + env.escape(env.staticUrl(path)) + "\" " + ScriptClose
  {
  }
}
