/** The SDK's `TinyPictures` class: an instance keeps what its constructor computed and
    rewrites URLs and image elements with it. */
module TinyPicturesSdk {
  import opened Results
  import opened Text
  import opened Objects
  import opened Externals
  import opened Configuration
  import opened UrlBuilder
  import opened Dom

  class TinyPictures {
    /** `this._options`, defaults applied. */
    const settings: Settings
    /** `this._overrideSourcesImages`. */
    const overrideSourcesImages: seq<string>
    /** `this._apiBaseUrlObject`. */
    const apiBaseUrlObject: ApiBase
    /** urijs and the private-host test the instance calls. */
    const libs: Libraries

    function Config(): InstanceConfig {
      InstanceConfig(settings, overrideSourcesImages, apiBaseUrlObject)
    }

    /** The constructor past its `user` check; `Create` is the constructor including the
        throw. */
    constructor (raw: RawOptions, libs: Libraries)
      requires UserIsSet(raw.user)
      ensures BuildConfig(libs, raw) == Ok(Config())
      ensures this.libs == libs
    {
      var options := WithDefaults(raw);
      settings := options;
      overrideSourcesImages := OverrideCandidates(options.overrideSourcesImages);
      apiBaseUrlObject := ApiBaseFor(libs, options.customSubdomain, options.protocol, options.user.value);
      this.libs := libs;
    }

    /** `new TinyPictures(options)`: throws `'no user set'` unless `user` is truthy. */
    static method Create(raw: RawOptions, libs: Libraries) returns (r: Result<TinyPictures, ConfigError>)
      ensures r.Err? <==> !UserIsSet(raw.user)
      ensures r.Ok? ==> fresh(r.value) && r.value.libs == libs && BuildConfig(libs, raw) == Ok(r.value.Config())
    {
      if !UserIsSet(raw.user) {
        return Err(NoUserSet);
      }
      var instance := new TinyPictures(raw, libs);
      return Ok(instance);
    }

    /** `baseUrl()`: the configured default base URL wins over the page's address;
        `pageHref` is `window.location.href`, empty when there is no window. */
    function BaseUrl(pageHref: string): (r: string)
      ensures settings.defaultBaseUrl != "" ==> r == settings.defaultBaseUrl
      ensures settings.defaultBaseUrl == "" ==> r == pageHref
      ensures r == "" <==> settings.defaultBaseUrl == "" && pageHref == ""
    {
      if settings.defaultBaseUrl != "" then settings.defaultBaseUrl else pageHref
    }

    /** `url(source, options, baseUrl)`, with `pick` standing for lodash `sample`'s
        random choice among the override candidates. */
    method Url(source: string, options: Object, baseUrl: string, pick: nat) returns (r: Result<Option<string>, UrlError>)
      ensures r == UrlSpec(Config(), libs, source, options, baseUrl, pick)
    {
      if source == "" {
        return Ok(None);
      }
      var src := source;
      if StartsWith(src, "//") && baseUrl != "" {
        var baseUrlObject := libs.normalize(libs.parse(baseUrl));
        src := baseUrlObject.protocol + ":" + src;
      }
      var sourceObject := libs.normalize(libs.parse(src));
      if Incomplete(sourceObject) && baseUrl != "" {
        sourceObject := libs.absoluteTo(sourceObject, baseUrl);
      }
      if Incomplete(sourceObject) {
        return Err(MissingProtocolOrHostname);
      }

      if |overrideSourcesImages| > 0 && (settings.overrideSourcesAlways || libs.isPrivate(sourceObject.hostname)) {
        sourceObject := libs.parse(overrideSourcesImages[pick % |overrideSourcesImages|]);
      }

      var sourceUrl := sourceObject.text;
      var namedSource := FindNamedSource(settings.namedSources, sourceUrl);
      var path := apiBaseUrlObject.path;
      if namedSource.Some? {
        var named := settings.namedSources[namedSource.value];
        path := libs.joinPaths(path, named.name, ReplaceFirst(sourceUrl, named.url, ""));
      }

      var query: Query := [];
      var i := 0;
      while i < |options|
        invariant 0 <= i <= |options|
        invariant AddQueries(query, options[i..]) == AddQueries([], options)
      {
        assert options[i..][1..] == options[i + 1..];
        query := AddQuery(query, options[i].0, options[i].1);
        i := i + 1;
      }
      if namedSource.None? {
        query := AddQuery(query, "source", sourceUrl);
      }
      var url := libs.serialize(Request(apiBaseUrlObject.protocol, apiBaseUrlObject.hostname, path, query));
      return Ok(Some(UnescapeWidth(url)));
    }

    /** `srcsetArray(originalSrc, options)`: one `"<url> <width>w"` entry per configured
        width, the `i`-th URL built with `picks(i)`; the first throw of `url` ends it. */
    method SrcsetArray(originalSrc: string, options: Object, baseUrl: string, picks: nat -> nat)
      returns (r: Result<seq<string>, UrlError>)
      ensures r == Srcset(Config(), libs, originalSrc, options, baseUrl, picks)
    {
      var srcsetArray: seq<string> := [];
      var i := 0;
      while i < |settings.srcsetWidths|
        invariant 0 <= i <= |settings.srcsetWidths|
        invariant SrcsetPrefix(Config(), libs, originalSrc, options, baseUrl, picks, i) == Ok(srcsetArray)
      {
        var width := settings.srcsetWidths[i];
        var url := Url(originalSrc, WidthOptions(options, width), baseUrl, picks(i));
        assert SrcsetPrefix(Config(), libs, originalSrc, options, baseUrl, picks, i + 1)
            == if url.Err? then Err(url.error) else Ok(srcsetArray + [SrcsetEntry(url.value, width)]);
        if url.Err? {
          SrcsetErrorPersists(Config(), libs, originalSrc, options, baseUrl, picks, i + 1, |settings.srcsetWidths|);
          return Err(url.error);
        }
        srcsetArray := srcsetArray + [SrcsetEntry(url.value, width)];
        i := i + 1;
      }
      return Ok(srcsetArray);
    }

    /** `wrapInPicture(img)`; `vetoed` says whether a listener called `preventDefault`
        on the `tpbeforewrapinpicture` event. */
    method WrapInPicture(img: Element, vetoed: bool) returns (picture: Element?)
      requires img.parent != null
      modifies img`parent
      ensures IsPicture(old(img.parent)) ==> picture == old(img.parent) && img.parent == old(img.parent)
      ensures !IsPicture(old(img.parent)) && vetoed ==> picture == null && img.parent == old(img.parent)
      ensures !IsPicture(old(img.parent)) && !vetoed ==>
        && picture != null && fresh(picture)
        && picture.nodeName == "picture" && picture.parent == old(img.parent) && img.parent == picture
        && |picture.children| == 3 && picture.children[2] == img
        && fresh(picture.children[0]) && fresh(picture.children[1]) && picture.children[0] != picture.children[1]
        && FanOutSource(picture, picture.children[0], img, WebpType, WebpOverride)
        && FanOutSource(picture, picture.children[1], img, map[], [])
    {
      if IsPicture(img.parent) {
        return img.parent;
      }
      if vetoed {
        return null;
      }
      picture := new Element("picture");
      picture.parent := img.parent;
      img.parent := picture;
      picture.children := [img];

      var webpSource := new Element("source");
      webpSource.attributes := WebpType;
      var source := new Element("source");
      var elements := [webpSource, source];
      var index := 0;
      while index < 2
        invariant 0 <= index <= 2
        invariant picture.nodeName == "picture" && picture.parent == old(img.parent) && img.parent == picture
        invariant picture.children == elements[..index] + [img]
        invariant index > 0 ==> FanOutSource(picture, webpSource, img, WebpType, WebpOverride)
        invariant index > 1 ==> FanOutSource(picture, source, img, map[], [])
        invariant index <= 0 ==> webpSource.attributes == WebpType && webpSource.classList == {} && webpSource.children == []
        invariant index <= 1 ==> source.attributes == map[] && source.classList == {} && source.children == []
      {
        var element := elements[index];
        CopyTruthyAttributes(img, element);
        var overrideOptions := if index == 0 then WebpOverride else [];
        element.options := Merge(img.options, overrideOptions);
        element.parent := picture;
        picture.children := elements[..index + 1] + [img];
        index := index + 1;
      }
    }

    /** `revealAttributes(element)`. The outcome records a throw of `url` (the method
        then stops) and whether the element went to lazysizes' auto-sizer. */
    method RevealAttributes(element: Element, pageHref: string, picks: nat -> nat)
      returns (failure: Option<UrlError>, autoSize: bool)
      modifies element`attributes
      ensures var out := RevealSpec(Config(), libs, element.nodeName, old(element.attributes), element.options, BaseUrl(pageHref), picks);
        element.attributes == out.attributes && failure == out.failure && autoSize == out.autoSize
    {
      var src := Url(Attribute(element.attributes, SrcAttr), Merge(element.options, []), BaseUrl(pageHref), picks(0));
      if src.Err? {
        return Some(src.error), false;
      }
      element.attributes := element.attributes[LoadableAttribute(element.nodeName) := JsString(src.value)];

      failure, autoSize := None, false;
      var sizes := Attribute(element.attributes, SizesAttr);
      if sizes != "" {
        var srcset := SrcsetArray(Attribute(element.attributes, SrcAttr), Merge(element.options, []), BaseUrl(pageHref), Shift(picks));
        if srcset.Err? {
          return Some(srcset.error), false;
        }
        element.attributes := element.attributes["srcset" := Join(srcset.value, ", ")];
        if sizes == "auto" {
          autoSize := true;
        } else {
          element.attributes := element.attributes["sizes" := sizes];
        }
      }
    }

    /** The order of the unveil handler: `img` first, then every source unshifted in
        front, so the sources end up in reverse document order before `img`. */
    method RevealOrder(img: Element, sources: seq<Element>) returns (elementsToReveal: seq<Element>)
      ensures |elementsToReveal| == |sources| + 1 && elementsToReveal[|sources|] == img
      ensures forall k :: 0 <= k < |sources| ==> elementsToReveal[k] == sources[|sources| - 1 - k]
    {
      elementsToReveal := [img];
      var i := 0;
      while i < |sources|
        invariant 0 <= i <= |sources|
        invariant |elementsToReveal| == i + 1 && elementsToReveal[i] == img
        invariant forall k :: 0 <= k < i ==> elementsToReveal[k] == sources[i - 1 - k]
      {
        elementsToReveal := [sources[i]] + elementsToReveal;
        i := i + 1;
      }
    }

    /** What `revealAttributes` leaves in `e`'s attributes when they were `before`. */
    function RevealedAttributes(e: Element, before: map<string, string>, pageHref: string, picks: nat -> nat): map<string, string>
      reads e
    {
      RevealSpec(Config(), libs, e.nodeName, before, e.options, BaseUrl(pageHref), picks).attributes
    }

    /** `revealAttributes` on `e` with attributes `before` throws `failure`. */
    predicate RevealFails(e: Element, before: map<string, string>, pageHref: string, picks: nat -> nat, failure: Option<UrlError>)
      reads e
    {
      failure == RevealSpec(Config(), libs, e.nodeName, before, e.options, BaseUrl(pageHref), picks).failure
    }

    /** The first `count` of `elements` have been revealed from the attributes `before`,
        the `j`-th with `picks(j)`; the others still hold `before`. */
    predicate RevealedPrefix(elements: seq<Element>, before: seq<map<string, string>>, count: nat, pageHref: string, picks: nat -> nat -> nat)
      requires |before| == |elements|
      reads elements
    {
      forall j :: 0 <= j < |elements| ==>
        elements[j].attributes == (if j < count then RevealedAttributes(elements[j], before[j], pageHref, picks(j)) else before[j])
    }

    /** What the unveil handler does to `img` and to the elements it reveals: `img` comes
        last; a `no-picture` image or a vetoed one outside a `picture` is revealed alone;
        inside a `picture` the sources go first, last source first; otherwise a fresh
        `picture` with a WebP source and a plain source is wrapped around `img`. */
    twostate predicate UnveilEffect(img: Element, vetoed: bool, new elementsToReveal: seq<Element>, before: seq<map<string, string>>)
      requires |before| == |elementsToReveal|
      reads img, img.parent, elementsToReveal
    {
      && (|elementsToReveal| > 0 && elementsToReveal[|elementsToReveal| - 1] == img)
      && (before[|before| - 1] == old(img.attributes))
      && (NoPictureClass in img.classList || (!IsPicture(old(img.parent)) && vetoed) ==>
          elementsToReveal == [img] && img.parent == old(img.parent))
      && (NoPictureClass !in img.classList && IsPicture(old(img.parent)) ==>
          var sources := old(PictureSources(img));
          && img.parent == old(img.parent) && |elementsToReveal| == |sources| + 1
          && forall k :: 0 <= k < |sources| ==>
               elementsToReveal[k] == sources[|sources| - 1 - k] && before[k] == old(AttributesOf(PictureSources(img)))[|sources| - 1 - k])
      && (NoPictureClass !in img.classList && !IsPicture(old(img.parent)) && !vetoed ==>
          && |elementsToReveal| == 3 && img.parent != null && fresh(img.parent)
          && img.parent.nodeName == "picture" && img.parent.parent == old(img.parent)
          && img.parent.children == [elementsToReveal[1], elementsToReveal[0], img]
          && fresh(elementsToReveal[0]) && fresh(elementsToReveal[1])
          && elementsToReveal[0].nodeName == "source" && elementsToReveal[1].nodeName == "source"
          && elementsToReveal[0].options == Merge(img.options, [])
          && elementsToReveal[1].options == Merge(img.options, WebpOverride)
          && before[0] == CopyTruthy(map[], old(img.attributes), FanOutAttributes)
          && before[1] == CopyTruthy(WebpType, old(img.attributes), FanOutAttributes))
    }

    /** `elementsToReveal.forEach(e => this.revealAttributes(e))`: the `j`-th element is
        revealed with `picks(j)`; the first throw stops the rest. `count` is the number of
        elements `revealAttributes` was called on. */
    method RevealInOrder(elements: seq<Element>, pageHref: string, picks: nat -> nat -> nat)
      returns (count: nat, failure: Option<UrlError>, ghost before: seq<map<string, string>>)
      requires Distinct(elements)
      modifies elements`attributes
      ensures |before| == |elements| && forall j :: 0 <= j < |elements| ==> before[j] == old(elements[j].attributes)
      ensures count <= |elements| && RevealedPrefix(elements, before, count, pageHref, picks)
      ensures failure.None? ==> count == |elements|
      ensures failure.Some? ==> 0 < count && RevealFails(elements[count - 1], before[count - 1], pageHref, picks(count - 1), failure)
    {
      before := seq(|elements|, j requires 0 <= j < |elements| reads elements => elements[j].attributes);
      count, failure := 0, None;
      while count < |elements|
        invariant count <= |elements|
        invariant RevealedPrefix(elements, before, count, pageHref, picks)
        invariant forall j :: 0 <= j < |elements| ==> before[j] == old(elements[j].attributes)
        invariant failure.None?
      {
        var element := elements[count];
        ghost var beforeCall := seq(|elements|, j requires 0 <= j < |elements| reads elements => elements[j].attributes);
        assert element.attributes == before[count];
        var autoSize;
        failure, autoSize := RevealAttributes(element, pageHref, picks(count));
        forall j | 0 <= j < |elements|
          ensures elements[j].attributes == (if j < count + 1 then RevealedAttributes(elements[j], before[j], pageHref, picks(j)) else before[j])
        {
          if j != count {
            assert elements[j] != element;
            assert elements[j].attributes == beforeCall[j];
          }
        }
        count := count + 1;
        if failure.Some? {
          return;
        }
      }
    }

    /** The part of the `lazybeforeunveil` handler that decides which elements get
        revealed, in which order, wrapping `img` in a `picture` on the way. */
    method CollectElements(img: Element, vetoed: bool) returns (elementsToReveal: seq<Element>)
      requires !IsSource(img)
      requires NoPictureClass !in img.classList ==> img.parent != null && Distinct(img.parent.children)
      modifies img`parent
      ensures Distinct(elementsToReveal)
      ensures |elementsToReveal| > 0 && elementsToReveal[|elementsToReveal| - 1] == img
      ensures NoPictureClass in img.classList || (!IsPicture(old(img.parent)) && vetoed) ==>
        elementsToReveal == [img] && img.parent == old(img.parent)
      ensures NoPictureClass !in img.classList && IsPicture(old(img.parent)) ==>
        var sources := old(PictureSources(img));
        && img.parent == old(img.parent) && |elementsToReveal| == |sources| + 1
        && forall k :: 0 <= k < |sources| ==>
             elementsToReveal[k] == sources[|sources| - 1 - k]
             && elementsToReveal[k].attributes == old(AttributesOf(PictureSources(img)))[|sources| - 1 - k]
      ensures NoPictureClass !in img.classList && !IsPicture(old(img.parent)) && !vetoed ==>
        && |elementsToReveal| == 3 && img.parent != null && fresh(img.parent)
        && img.parent.nodeName == "picture" && img.parent.parent == old(img.parent)
        && img.parent.children == [elementsToReveal[1], elementsToReveal[0], img]
        && fresh(elementsToReveal[0]) && fresh(elementsToReveal[1])
        && FanOutSource(img.parent, elementsToReveal[0], img, map[], [])
        && FanOutSource(img.parent, elementsToReveal[1], img, WebpType, WebpOverride)
    {
      var noPicture := NoPictureClass in img.classList;
      if noPicture {
        return [img];
      }
      ghost var snapshot := AttributesOf(PictureSources(img));
      var picture := WrapInPicture(img, vetoed);
      if picture == null {
        return [img];
      }
      var sources := SourceChildren(picture.children);
      if IsPicture(old(img.parent)) {
        SourceChildrenDistinct(picture.children);
      } else {
        assert picture.children == [picture.children[0], picture.children[1], img];
        WrappedPictureSources(picture.children[0], picture.children[1], img);
      }
      elementsToReveal := RevealOrder(img, sources);
      ReverseOrderDistinct(img, sources, elementsToReveal);
      if IsPicture(old(img.parent)) {
        assert sources == old(PictureSources(img));
        assert AttributesOf(sources) == snapshot;
        ReversedAttributes(sources, elementsToReveal, snapshot);
      } else {
        assert elementsToReveal == [picture.children[1], picture.children[0], img];
      }
    }

    /** The `lazybeforeunveil` handler for `img` once its guard has passed: collect the
        elements, then reveal them in order. The `j`-th element revealed uses `picks(j)`,
        and `before` holds what each element's attributes were when the reveals began. */
    method Unveil(img: Element, vetoed: bool, pageHref: string, picks: nat -> nat -> nat)
      returns (elementsToReveal: seq<Element>, count: nat, failure: Option<UrlError>, ghost before: seq<map<string, string>>)
      requires !IsSource(img)
      requires NoPictureClass !in img.classList ==> img.parent != null && Distinct(img.parent.children)
      modifies img`parent, img`attributes, PictureSources(img)`attributes
      ensures |before| == |elementsToReveal| && count <= |elementsToReveal|
      ensures RevealedPrefix(elementsToReveal, before, count, pageHref, picks)
      ensures failure.None? ==> count == |elementsToReveal|
      ensures failure.Some? ==> 0 < count && RevealFails(elementsToReveal[count - 1], before[count - 1], pageHref, picks(count - 1), failure)
      ensures UnveilEffect(img, vetoed, elementsToReveal, before)
    {
      elementsToReveal := CollectElements(img, vetoed);
      ghost var collected := AttributesOf(elementsToReveal);
      count, failure, before := RevealInOrder(elementsToReveal, pageHref, picks);
      assert before == collected;
    }

    /** The `lazybeforeunveil` handler for `img`, with the guard on attributes (see
        `UnveilGuardAsWritten` for the guard as the handler has it): an element without
        `data-tp-src` and `data-tp-srcset` is left alone, any other goes to `Unveil`. */
    method OnBeforeUnveil(img: Element, vetoed: bool, pageHref: string, picks: nat -> nat -> nat)
      returns (elementsToReveal: seq<Element>, count: nat, failure: Option<UrlError>, ghost before: seq<map<string, string>>)
      requires !IsSource(img)
      requires UnveilGuard(img.attributes) && NoPictureClass !in img.classList ==>
        img.parent != null && Distinct(img.parent.children)
      modifies img`parent, img`attributes, PictureSources(img)`attributes
      ensures |before| == |elementsToReveal| && count <= |elementsToReveal|
      ensures RevealedPrefix(elementsToReveal, before, count, pageHref, picks)
      ensures failure.None? ==> count == |elementsToReveal|
      ensures failure.Some? ==> 0 < count && RevealFails(elementsToReveal[count - 1], before[count - 1], pageHref, picks(count - 1), failure)
      ensures !UnveilGuard(old(img.attributes)) ==>
        elementsToReveal == [] && img.parent == old(img.parent) && img.attributes == old(img.attributes)
      ensures !UnveilGuard(old(img.attributes)) ==>
        forall k :: 0 <= k < |old(PictureSources(img))| ==>
          old(PictureSources(img))[k].attributes == old(AttributesOf(PictureSources(img)))[k]
      ensures UnveilGuard(old(img.attributes)) ==> UnveilEffect(img, vetoed, elementsToReveal, before)
    {
      if UnveilGuard(img.attributes) {
        elementsToReveal, count, failure, before := Unveil(img, vetoed, pageHref, picks);
      } else {
        elementsToReveal, count, failure, before := [], 0, None, [];
      }
    }

    /** `reveal(element)`: whether the element is handed to lazysizes' `unveil`, which
        happens exactly when it is neither loading nor loaded. */
    method Reveal(element: Element) returns (unveil: bool)
      ensures unveil <==> StateOf(element.classList) == Pending
    {
      unveil := !(LoadingClass in element.classList || LoadedClass in element.classList);
    }

    /** `revealAll()` over the page's images: the ones handed to `unveil`, in order. */
    method RevealAll(images: seq<Element>) returns (unveiled: seq<Element>)
      ensures unveiled == PendingOnly(images)
    {
      unveiled := [];
      var i := 0;
      while i < |images|
        invariant 0 <= i <= |images|
        invariant unveiled == PendingOnly(images[..i])
      {
        assert images[..i + 1][..i] == images[..i];
        var unveil := Reveal(images[i]);
        if unveil {
          unveiled := unveiled + [images[i]];
        }
        i := i + 1;
      }
      assert images[..|images|] == images;
    }
  }
}
