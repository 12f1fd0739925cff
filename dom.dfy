/** The part of the DOM the reveal logic reads and writes: elements with attributes,
    classes, a parent and children, and what revealing an element writes. */
module Dom {
  import opened Results
  import opened Text
  import opened Objects
  import opened Externals
  import opened Configuration
  import opened UrlBuilder

  const SrcAttr := "data-tp-src"
  const SrcsetAttr := "data-tp-srcset"
  const SizesAttr := "data-tp-sizes"
  const LoadingClass := "tp-lazyloading"
  const LoadedClass := "tp-lazyloaded"
  const NoPictureClass := "tp-nopicture"

  /** The attributes `wrapInPicture` copies onto each new `source`, in this order. */
  const FanOutAttributes: seq<string> := [SrcAttr, SrcsetAttr, SizesAttr]

  /** The override options of the first (webp) fan-out source. */
  const WebpOverride: Object := [("format", "webp")]

  class Element {
    const nodeName: string
    var attributes: map<string, string>
    /** `data-tp-options`, already parsed; empty when the attribute is absent or empty. */
    var options: Object
    var classList: set<string>
    var parent: Element?
    var children: seq<Element>

    constructor (nodeName: string)
      ensures this.nodeName == nodeName
      ensures attributes == map[] && options == [] && classList == {}
      ensures parent == null && children == []
    {
      this.nodeName := nodeName;
      attributes := map[];
      options := [];
      classList := {};
      parent := null;
      children := [];
    }
  }

  predicate Distinct(s: seq<Element>) {
    forall i, j :: 0 <= i < j < |s| ==> s[i] != s[j]
  }

  /** `nodeName.toLowerCase() === 'picture'`. */
  predicate IsPicture(e: Element?) {
    e != null && Lower(e.nodeName) == "picture"
  }

  /** `nodeName.toLowerCase() === 'source'`. */
  predicate IsSourceName(nodeName: string) {
    Lower(nodeName) == "source"
  }

  predicate IsSource(e: Element) {
    IsSourceName(e.nodeName)
  }

  /** `getAttribute(name)`; the empty string also stands for a missing attribute (`null`),
      which every caller treats alike. */
  function Attribute(attrs: map<string, string>, name: string): string {
    if name in attrs then attrs[name] else ""
  }

  /** `picture.getElementsByTagName('source')`, for the picture's own children. */
  function SourceChildren(children: seq<Element>): (r: seq<Element>)
    ensures forall e :: e in r ==> e in children && IsSource(e)
  {
    if children == [] then []
    else if IsSource(children[0]) then [children[0]] + SourceChildren(children[1..])
    else SourceChildren(children[1..])
  }

  lemma {:induction false} SourceChildrenDistinct(children: seq<Element>)
    requires Distinct(children)
    ensures Distinct(SourceChildren(children))
  {
    if children != [] {
      SourceChildrenDistinct(children[1..]);
    }
  }

  /** In a picture `wrapInPicture` built, the two new sources are the picture's sources. */
  lemma WrappedPictureSources(webpSource: Element, source: Element, img: Element)
    requires webpSource.nodeName == "source" && source.nodeName == "source" && !IsSource(img)
    ensures SourceChildren([webpSource, source, img]) == [webpSource, source]
  {
    assert Lower("source") == "source";
    assert [webpSource, source, img][1..] == [source, img];
    assert [source, img][1..] == [img];
    assert SourceChildren([img]) == [];
  }

  /** Distinct sources in reverse order followed by an element that is not a source are
      distinct elements. */
  lemma ReverseOrderDistinct(img: Element, sources: seq<Element>, elements: seq<Element>)
    requires Distinct(sources) && !IsSource(img) && forall e :: e in sources ==> IsSource(e)
    requires |elements| == |sources| + 1 && elements[|sources|] == img
    requires forall k :: 0 <= k < |sources| ==> elements[k] == sources[|sources| - 1 - k]
    ensures Distinct(elements)
  {
    forall i, j | 0 <= i < j < |elements| ensures elements[i] != elements[j] {
      var n := |sources|;
      if j == n {
        assert elements[i] == sources[n - 1 - i];
        assert IsSource(sources[n - 1 - i]);
      } else {
        assert elements[i] == sources[n - 1 - i] && elements[j] == sources[n - 1 - j];
      }
    }
  }

  /** Elements that are the sources in reverse carry the sources' attributes in reverse. */
  lemma ReversedAttributes(sources: seq<Element>, elements: seq<Element>, snapshot: seq<map<string, string>>)
    requires |elements| == |sources| + 1 && AttributesOf(sources) == snapshot
    requires forall k :: 0 <= k < |sources| ==> elements[k] == sources[|sources| - 1 - k]
    ensures forall k :: 0 <= k < |sources| ==> elements[k].attributes == snapshot[|sources| - 1 - k]
  {
  }

  /** The sources the unveil handler reveals when `img` already sits in a `picture`. */
  function PictureSources(img: Element): seq<Element>
    reads img, img.parent
  {
    if IsPicture(img.parent) then SourceChildren(img.parent.children) else []
  }

  /** The attributes of each element, in order. */
  function AttributesOf(elements: seq<Element>): (r: seq<map<string, string>>)
    reads elements
    ensures |r| == |elements| && forall k :: 0 <= k < |elements| ==> r[k] == elements[k].attributes
  {
    seq(|elements|, k requires 0 <= k < |elements| reads elements => elements[k].attributes)
  }

  // ---------------------------------------------------------------------------
  // Fan-out

  /** The attributes of `target` after each listed attribute that is truthy on the
      element copied from has been set on it, in order. */
  function CopyTruthy(target: map<string, string>, from: map<string, string>, names: seq<string>): map<string, string> {
    if names == [] then target
    else
      var copied := CopyTruthy(target, from, names[..|names| - 1]);
      var name := names[|names| - 1];
      if Attribute(from, name) != "" then copied[name := from[name]] else copied
  }

  /** Exactly the listed attributes that are truthy are copied; everything else is kept. */
  lemma {:induction false} CopyTruthyAt(target: map<string, string>, from: map<string, string>, names: seq<string>, k: string)
    ensures var r := CopyTruthy(target, from, names);
      && (k in r <==> k in target || (k in names && Attribute(from, k) != ""))
      && (k in names && Attribute(from, k) != "" ==> r[k] == from[k])
      && (!(k in names && Attribute(from, k) != "") && k in target ==> r[k] == target[k])
  {
    if names != [] {
      var init := names[..|names| - 1];
      CopyTruthyAt(target, from, init, k);
      assert names == init + [names[|names| - 1]];
    }
  }

  /** `mergedOptions`: `assign({}, options, overrideOptions)`. */
  function Merge(elementOptions: Object, overrideOptions: Object): Object {
    Assign(Assign([], elementOptions), overrideOptions)
  }

  /** A shallow merge in which the override wins: a key of the override has the
      override's value, every other key the element's. The element's keys keep their
      order and come first, so they are added to the query first. */
  lemma MergeOverrideWins(elementOptions: Object, overrideOptions: Object, k: string)
    requires UniqueKeys(elementOptions) && UniqueKeys(overrideOptions)
    ensures Get(Merge(elementOptions, overrideOptions), k)
         == if k in Keys(overrideOptions) then Get(overrideOptions, k) else Get(elementOptions, k)
    ensures UniqueKeys(Merge(elementOptions, overrideOptions))
    ensures var keys := Keys(Merge(elementOptions, overrideOptions));
      && |Keys(elementOptions)| <= |keys| && keys[..|Keys(elementOptions)|] == Keys(elementOptions)
      && (k in keys <==> k in Keys(elementOptions) || k in Keys(overrideOptions))
  {
    AssignCopies(elementOptions);
    AssignGet(elementOptions, overrideOptions, k);
    AssignUnique(elementOptions, overrideOptions);
    AssignKeys(elementOptions, overrideOptions);
  }

  /** The webp source always asks for `format: webp` and otherwise carries the element's
      options; the plain source carries the element's options unchanged. */
  lemma FanOutOptions(elementOptions: Object)
    requires UniqueKeys(elementOptions)
    ensures Get(Merge(elementOptions, WebpOverride), "format") == Some("webp")
    ensures forall k :: k != "format" ==> Get(Merge(elementOptions, WebpOverride), k) == Get(elementOptions, k)
    ensures Merge(elementOptions, []) == elementOptions
  {
    assert Keys(WebpOverride) == ["format"];
    forall k ensures Get(Merge(elementOptions, WebpOverride), k)
        == if k in Keys(WebpOverride) then Get(WebpOverride, k) else Get(elementOptions, k)
    {
      MergeOverrideWins(elementOptions, WebpOverride, k);
    }
    AssignCopies(elementOptions);
  }

  /** The `type` attribute the webp source starts with. */
  const WebpType: map<string, string> := map["type" := "image/webp"]

  /** `source` is one of the elements `wrapInPicture` created for `img` inside `picture`:
      it starts from `initial`, gets the truthy fan-out attributes of `img` copied over
      and carries `img`'s options merged with `overrideOptions`. */
  predicate FanOutSource(picture: Element, source: Element, img: Element, initial: map<string, string>, overrideOptions: Object)
    reads source, img
  {
    && source.nodeName == "source"
    && source.parent == picture
    && source.attributes == CopyTruthy(initial, img.attributes, FanOutAttributes)
    && source.options == Merge(img.options, overrideOptions)
    && source.classList == {}
    && source.children == []
  }

  /** `setAttribute` for each truthy fan-out attribute of `from`, in order. */
  method CopyTruthyAttributes(from: Element, to: Element)
    requires from != to
    modifies to`attributes
    ensures to.attributes == CopyTruthy(old(to.attributes), from.attributes, FanOutAttributes)
  {
    var i := 0;
    while i < |FanOutAttributes|
      invariant 0 <= i <= |FanOutAttributes|
      invariant to.attributes == CopyTruthy(old(to.attributes), from.attributes, FanOutAttributes[..i])
    {
      var attribute := FanOutAttributes[i];
      var value := Attribute(from.attributes, attribute);
      assert FanOutAttributes[..i + 1][..i] == FanOutAttributes[..i];
      if value != "" {
        to.attributes := to.attributes[attribute := value];
      }
      i := i + 1;
    }
    assert FanOutAttributes[..i] == FanOutAttributes;
  }

  // ---------------------------------------------------------------------------
  // revealAttributes

  /** `srcset` for a `source` element, `src` for any other. */
  function LoadableAttribute(nodeName: string): string {
    if IsSourceName(nodeName) then "srcset" else "src"
  }

  /** The element's attributes after `revealAttributes`, what it threw (if it did), and
      whether it handed the element to the auto-sizer. */
  datatype RevealOutcome = RevealOutcome(attributes: map<string, string>, failure: Option<UrlError>, autoSize: bool)

  /** The choices of the `srcsetArray` call, which come after the one of the `url` call. */
  function Shift(picks: nat -> nat): nat -> nat {
    (n: nat) => picks(n + 1)
  }

  /** `revealAttributes` on an element with the given name, attributes and options. The
      first `url` call uses `picks(0)`, the `i`-th of `srcsetArray` `picks(i + 1)`. */
  function RevealSpec(cfg: InstanceConfig, libs: Libraries, nodeName: string, attrs: map<string, string>,
                      elementOptions: Object, baseUrl: string, picks: nat -> nat): RevealOutcome
  {
    var src := Attribute(attrs, SrcAttr);
    var options := Merge(elementOptions, []);
    match UrlSpec(cfg, libs, src, options, baseUrl, picks(0))
    case Err(e) => RevealOutcome(attrs, Some(e), false)
    case Ok(u) =>
      var written := attrs[LoadableAttribute(nodeName) := JsString(u)];
      var sizes := Attribute(written, SizesAttr);
      if sizes == "" then RevealOutcome(written, None, false)
      else match Srcset(cfg, libs, src, options, baseUrl, Shift(picks))
        case Err(e) => RevealOutcome(written, Some(e), false)
        case Ok(srcset) =>
          var withSrcset := written["srcset" := Join(srcset, ", ")];
          if sizes == "auto" then RevealOutcome(withSrcset, None, true)
          else RevealOutcome(withSrcset["sizes" := sizes], None, false)
  }

  /** A throw leaves the element untouched: `srcsetArray` cannot throw once `url` has
      succeeded for the same source, so no attribute is ever half written. */
  lemma RevealAtomic(cfg: InstanceConfig, libs: Libraries, nodeName: string, attrs: map<string, string>,
                     elementOptions: Object, baseUrl: string, picks: nat -> nat)
    ensures var out := RevealSpec(cfg, libs, nodeName, attrs, elementOptions, baseUrl, picks);
      && (out.failure.Some? <==> UrlSpec(cfg, libs, Attribute(attrs, SrcAttr), Merge(elementOptions, []), baseUrl, picks(0)).Err?)
      && (out.failure.Some? ==> out.attributes == attrs)
  {
    var src := Attribute(attrs, SrcAttr);
    var options := Merge(elementOptions, []);
    match UrlSpec(cfg, libs, src, options, baseUrl, picks(0))
    case Err(_) =>
    case Ok(u) =>
      SrcsetEntries(cfg, libs, src, options, baseUrl, Shift(picks), |cfg.settings.srcsetWidths|);
      UrlFailureIndependent(cfg, libs, src, baseUrl, options, 0, options, picks(0));
      assert Srcset(cfg, libs, src, options, baseUrl, Shift(picks)).Ok?;
  }

  /** Only the loadable attribute (`srcset` for a `source`, `src` for any other element),
      `srcset` and `sizes` are ever written: a `source` keeps its `src`. */
  lemma RevealKeepsOtherAttributes(cfg: InstanceConfig, libs: Libraries, nodeName: string, attrs: map<string, string>,
                                   elementOptions: Object, baseUrl: string, picks: nat -> nat, k: string)
    requires k != LoadableAttribute(nodeName) && k != "srcset" && k != "sizes"
    ensures var out := RevealSpec(cfg, libs, nodeName, attrs, elementOptions, baseUrl, picks);
      (k in out.attributes <==> k in attrs) && (k in attrs ==> out.attributes[k] == attrs[k])
  {
    var src := Attribute(attrs, SrcAttr);
    var options := Merge(elementOptions, []);
    assert LoadableAttribute(nodeName) != k;
    match UrlSpec(cfg, libs, src, options, baseUrl, picks(0))
    case Err(_) =>
    case Ok(u) =>
      var written := attrs[LoadableAttribute(nodeName) := JsString(u)];
      assert (k in written <==> k in attrs) && (k in attrs ==> written[k] == attrs[k]);
  }

  /** Without `data-tp-sizes`, a reveal that does not throw writes the URL under `src`,
      or under `srcset` for a `source`, and nothing else. */
  lemma RevealWritesUrl(cfg: InstanceConfig, libs: Libraries, nodeName: string, attrs: map<string, string>,
                        elementOptions: Object, baseUrl: string, picks: nat -> nat)
    requires Attribute(attrs, SizesAttr) == ""
    ensures var out := RevealSpec(cfg, libs, nodeName, attrs, elementOptions, baseUrl, picks);
      var u := UrlSpec(cfg, libs, Attribute(attrs, SrcAttr), Merge(elementOptions, []), baseUrl, picks(0));
      && !out.autoSize
      && (out.failure.None? <==> u.Ok?)
      && (u.Ok? ==> out.attributes == attrs[LoadableAttribute(nodeName) := JsString(u.value)])
  {
  }

  /** With `data-tp-sizes`, a reveal that does not throw writes the URL under `src` (for
      an element other than a `source`), then the joined srcset under `srcset`, and either copies the sizes value under `sizes` or, for `auto`,
      hands the element to the auto-sizer and leaves `sizes` alone. */
  lemma RevealWritesSrcset(cfg: InstanceConfig, libs: Libraries, nodeName: string, attrs: map<string, string>,
                           elementOptions: Object, baseUrl: string, picks: nat -> nat)
    requires Attribute(attrs, SizesAttr) != ""
    ensures var out := RevealSpec(cfg, libs, nodeName, attrs, elementOptions, baseUrl, picks);
      var sizes := Attribute(attrs, SizesAttr);
      var s := Srcset(cfg, libs, Attribute(attrs, SrcAttr), Merge(elementOptions, []), baseUrl, Shift(picks));
      && (out.failure.None? && !IsSourceName(nodeName) ==>
            out.attributes["src"] == JsString(UrlSpec(cfg, libs, Attribute(attrs, SrcAttr), Merge(elementOptions, []), baseUrl, picks(0)).value))
      && (out.failure.None? ==> s.Ok? && out.attributes["srcset"] == Join(s.value, ", "))
      && (out.autoSize <==> out.failure.None? && sizes == "auto")
      && (out.failure.None? && sizes != "auto" ==> out.attributes["sizes"] == sizes)
      && (sizes == "auto" ==> Attribute(out.attributes, "sizes") == Attribute(attrs, "sizes"))
  {
    var src := Attribute(attrs, SrcAttr);
    var options := Merge(elementOptions, []);
    match UrlSpec(cfg, libs, src, options, baseUrl, picks(0))
    case Err(_) =>
    case Ok(u) =>
      var written := attrs[LoadableAttribute(nodeName) := JsString(u)];
      assert Attribute(written, SizesAttr) == Attribute(attrs, SizesAttr);
  }

  // ---------------------------------------------------------------------------
  // Lifecycle

  /** Where lazysizes' classes say an element is. */
  datatype ElementState = Pending | Loading | Loaded

  function StateOf(classes: set<string>): ElementState {
    if LoadedClass in classes then Loaded
    else if LoadingClass in classes then Loading
    else Pending
  }

  /** The images of `revealAll`'s list that `reveal` hands to the loader, in order. */
  function PendingOnly(images: seq<Element>): seq<Element>
    reads images
  {
    if images == [] then []
    else
      var last := images[|images| - 1];
      PendingOnly(images[..|images| - 1]) + (if StateOf(last.classList) == Pending then [last] else [])
  }

  /** Exactly the pending images are unveiled (in document order, as `PendingOnly` keeps
      the order of `images`). */
  lemma {:induction false} PendingOnlyIsFilter(images: seq<Element>)
    ensures var r := PendingOnly(images);
      && |r| <= |images|
      && (forall e :: e in r ==> e in images && StateOf(e.classList) == Pending)
      && (forall e :: e in images && StateOf(e.classList) == Pending ==> e in r)
  {
    if images != [] {
      var init := images[..|images| - 1];
      PendingOnlyIsFilter(init);
      assert images == init + [images[|images| - 1]];
    }
  }

  // ---------------------------------------------------------------------------
  // The unveil handler's guard

  /** The guard as the handler has it: it looks for `data-tp-src` and `data-tp-srcset`
      among the element's CLASSES. */
  predicate UnveilGuardAsWritten(classes: set<string>) {
    SrcAttr in classes || SrcsetAttr in classes
  }

  /** The guard as intended: the element carries one of the two source ATTRIBUTES. */
  predicate UnveilGuard(attrs: map<string, string>) {
    SrcAttr in attrs || SrcsetAttr in attrs
  }

  /** An image marked up with `data-tp-src` and the lazy-load class is ignored by the
      guard as written, while it is exactly what the handler is for. */
  lemma UnveilGuardAsWrittenSkipsMarkedImage()
    ensures var attrs := map[SrcAttr := "https://example.com/a.jpg"];
      var classes := {"tp-lazyload"};
      UnveilGuard(attrs) && !UnveilGuardAsWritten(classes)
  {
  }
}
