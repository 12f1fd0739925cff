/** The URL rewriting engine: what `url()` and `srcsetArray()` compute, as functions of
    the instance's configuration, the libraries, the arguments and the random pick. */
module UrlBuilder {
  import opened Results
  import opened Text
  import opened Objects
  import opened Externals
  import opened Configuration

  /** What `url()` throws when a source cannot be made absolute. */
  datatype UrlError = MissingProtocolOrHostname

  // ---------------------------------------------------------------------------
  // Resolving the source

  /** A source starting with `//` takes the protocol of the normalised base URL. */
  function WithBaseProtocol(libs: Libraries, source: string, baseUrl: string): string {
    if StartsWith(source, "//") && baseUrl != ""
    then libs.normalize(libs.parse(baseUrl)).protocol + ":" + source
    else source
  }

  predicate Incomplete(u: Uri) {
    u.protocol == "" || u.hostname == ""
  }

  /** Parses the source and, when it lacks a protocol or hostname and a base URL is
      known, resolves it against the base URL; throws if it is still incomplete. */
  function ResolveSource(libs: Libraries, source: string, baseUrl: string): Result<Uri, UrlError> {
    var parsed := libs.normalize(libs.parse(WithBaseProtocol(libs, source, baseUrl)));
    var resolved := if Incomplete(parsed) && baseUrl != "" then libs.absoluteTo(parsed, baseUrl) else parsed;
    if Incomplete(resolved) then Err(MissingProtocolOrHostname) else Ok(resolved)
  }

  /** A protocol-relative source gets the base URL's protocol and a colon in front of it
      exactly when a base URL is given; any other source is left as it is. */
  lemma ProtocolRelativeSource(libs: Libraries, source: string, baseUrl: string)
    ensures var r := WithBaseProtocol(libs, source, baseUrl);
      && |source| <= |r| && r[|r| - |source|..] == source
      && (r == source <==> !(StartsWith(source, "//") && baseUrl != ""))
      && (r != source ==> r[..|r| - |source|] == libs.normalize(libs.parse(baseUrl)).protocol + ":")
  {
    var r := WithBaseProtocol(libs, source, baseUrl);
    if StartsWith(source, "//") && baseUrl != "" {
      var p := libs.normalize(libs.parse(baseUrl)).protocol + ":";
      assert r == p + source;
      assert r[|r| - |source|..] == source;
      assert |r| > |source|;
    }
  }

  // ---------------------------------------------------------------------------
  // Override

  /** The override applies when there are candidates and either `overrideSourcesAlways`
      is set or the source's host is private. */
  predicate OverrideApplies(cfg: InstanceConfig, libs: Libraries, source: Uri) {
    |cfg.overrideSourcesImages| > 0
    && (cfg.settings.overrideSourcesAlways || libs.isPrivate(source.hostname))
  }

  /** `sample(this._overrideSourcesImages)`, with the random index given as `pick`. */
  function OverrideSource(cfg: InstanceConfig, libs: Libraries, source: Uri, pick: nat): Uri {
    if OverrideApplies(cfg, libs, source)
    then libs.parse(cfg.overrideSourcesImages[pick % |cfg.overrideSourcesImages|])
    else source
  }

  /** The substitution happens exactly when it applies, and then the new source is one of
      the candidates; every candidate is what some pick selects. */
  lemma OverrideSubstitution(cfg: InstanceConfig, libs: Libraries, source: Uri, pick: nat)
    ensures !OverrideApplies(cfg, libs, source) ==> OverrideSource(cfg, libs, source, pick) == source
    ensures OverrideApplies(cfg, libs, source) ==>
      exists i :: 0 <= i < |cfg.overrideSourcesImages|
        && OverrideSource(cfg, libs, source, pick) == libs.parse(cfg.overrideSourcesImages[i])
    ensures OverrideApplies(cfg, libs, source) && pick < |cfg.overrideSourcesImages| ==>
      OverrideSource(cfg, libs, source, pick) == libs.parse(cfg.overrideSourcesImages[pick])
  {
    if OverrideApplies(cfg, libs, source) {
      var i := pick % |cfg.overrideSourcesImages|;
      assert 0 <= i < |cfg.overrideSourcesImages|;
      assert OverrideSource(cfg, libs, source, pick) == libs.parse(cfg.overrideSourcesImages[i]);
    }
  }

  // ---------------------------------------------------------------------------
  // Named sources and the request

  /** lodash `find(namedSources, ns => startsWith(sourceUrl, ns.url))`, as an index: the
      first named source, in configured order, whose `url` is a prefix of the source. */
  function FindNamedSource(sources: seq<NamedSource>, sourceUrl: string): (r: Option<nat>)
    ensures r.Some? ==> r.value < |sources| && StartsWith(sourceUrl, sources[r.value].url)
    ensures forall j :: 0 <= j < |sources| && (r.None? || j < r.value) ==>
      !StartsWith(sourceUrl, sources[j].url)
  {
    if sources == [] then None
    else if StartsWith(sourceUrl, sources[0].url) then Some(0)
    else match FindNamedSource(sources[1..], sourceUrl)
      case None => None
      case Some(i) => Some(i + 1)
  }

  /** The API URL for a (possibly overridden) source: the API base, the named-source path
      when one matches, the caller's options as parameters and, only when no named
      source matched, `source=<sourceUrl>` added last. */
  function RequestFor(cfg: InstanceConfig, libs: Libraries, sourceUrl: string, options: Object): Request {
    var base := cfg.apiBaseUrlObject;
    var sources := cfg.settings.namedSources;
    var named := FindNamedSource(sources, sourceUrl);
    var path :=
      if named.Some?
      then libs.joinPaths(base.path, sources[named.value].name, ReplaceFirst(sourceUrl, sources[named.value].url, ""))
      else base.path;
    var query := AddQueries([], options);
    Request(base.protocol, base.hostname, path, if named.None? then AddQuery(query, "source", sourceUrl) else query)
  }

  /** With a matching named source, the path gains its name and the source without the
      prefix, and no `source` parameter is added: the options are the whole query. */
  lemma NamedSourceRequest(cfg: InstanceConfig, libs: Libraries, sourceUrl: string, options: Object)
    requires UniqueKeys(options)
    requires FindNamedSource(cfg.settings.namedSources, sourceUrl).Some?
    ensures var r := RequestFor(cfg, libs, sourceUrl, options);
      var ns := cfg.settings.namedSources[FindNamedSource(cfg.settings.namedSources, sourceUrl).value];
      && r.protocol == cfg.apiBaseUrlObject.protocol
      && r.hostname == cfg.apiBaseUrlObject.hostname
      && r.path == libs.joinPaths(cfg.apiBaseUrlObject.path, ns.name, sourceUrl[|ns.url|..])
      && r.query == Singletons(options)
      && ("source" in Keys(r.query) <==> "source" in Keys(options))
  {
    var ns := cfg.settings.namedSources[FindNamedSource(cfg.settings.namedSources, sourceUrl).value];
    ReplacePrefix(sourceUrl, ns.url);
    AddQueriesFresh([], options);
  }

  /** Without a named source, the path is the API base path and the query is the options
      in iteration order followed by `source=<sourceUrl>`. */
  lemma SourceParameterLast(cfg: InstanceConfig, libs: Libraries, sourceUrl: string, options: Object)
    requires UniqueKeys(options)
    requires "source" !in Keys(options)
    requires FindNamedSource(cfg.settings.namedSources, sourceUrl).None?
    ensures var r := RequestFor(cfg, libs, sourceUrl, options);
      && r.protocol == cfg.apiBaseUrlObject.protocol
      && r.hostname == cfg.apiBaseUrlObject.hostname
      && r.path == cfg.apiBaseUrlObject.path
      && r.query == Singletons(options) + [("source", [sourceUrl])]
  {
    var q := AddQueries([], options);
    assert q == Singletons(options) by {
      AddQueriesFresh([], options);
      assert [] + Singletons(options) == Singletons(options);
    }
    assert AddQuery(q, "source", sourceUrl) == q + [("source", [sourceUrl])] by {
      PutFresh(q, "source", [sourceUrl]);
    }
  }

  /** Exactly one of "named-source path" and "`source` parameter" is used, when the caller's
      options do not themselves carry a `source` key. */
  lemma NamedSourceXorSourceParameter(cfg: InstanceConfig, libs: Libraries, sourceUrl: string, options: Object)
    requires UniqueKeys(options)
    requires "source" !in Keys(options)
    ensures var r := RequestFor(cfg, libs, sourceUrl, options);
      FindNamedSource(cfg.settings.namedSources, sourceUrl).Some? <==> "source" !in Keys(r.query)
  {
    if FindNamedSource(cfg.settings.namedSources, sourceUrl).Some? {
      NamedSourceRequest(cfg, libs, sourceUrl, options);
    } else {
      SourceParameterLast(cfg, libs, sourceUrl, options);
      KeysAppend(Singletons(options), [("source", [sourceUrl])]);
    }
  }

  /** When the options already carry a `source` key and no named source matched, urijs
      appends the source URL to that key's values: the parameter stays where the option
      put it instead of coming last. */
  lemma SourceParameterMerged(cfg: InstanceConfig, libs: Libraries, sourceUrl: string, options: Object)
    requires UniqueKeys(options)
    requires "source" in Keys(options)
    requires FindNamedSource(cfg.settings.namedSources, sourceUrl).None?
    ensures var r := RequestFor(cfg, libs, sourceUrl, options);
      && Keys(r.query) == Keys(options)
      && Get(r.query, "source") == Some([Get(options, "source").value, sourceUrl])
  {
    var q := AddQueries([], options);
    assert q == Singletons(options) by {
      AddQueriesFresh([], options);
      assert [] + Singletons(options) == Singletons(options);
    }
    SingletonsGet(options, "source");
    var vs := [Get(options, "source").value];
    assert Get(q, "source") == Some(vs);
    var r := RequestFor(cfg, libs, sourceUrl, options);
    assert r.query == AddQuery(q, "source", sourceUrl) == Put(q, "source", vs + [sourceUrl]);
    assert Get(r.query, "source") == Some(vs + [sourceUrl]);
    assert vs + [sourceUrl] == [Get(options, "source").value, sourceUrl];
  }

  lemma {:induction false} SingletonsGet(o: Object, k: string)
    requires k in Keys(o)
    ensures Get(Singletons(o), k) == Some([Get(o, k).value])
  {
    if o[0].0 != k {
      SingletonsGet(o[1..], k);
    }
  }

  // ---------------------------------------------------------------------------
  // The `{width}` placeholder

  /** `%7Bwidth%7D` in lower case; the regular expression matches it case-insensitively. */
  const EncodedWidth := "%7bwidth%7d"
  const WidthPlaceholder := "{width}"

  predicate EncodedWidthAt(s: string, i: nat) {
    i + 11 <= |s| && Lower(s[i..i + 11]) == EncodedWidth
  }

  ghost predicate NoEncodedWidth(s: string) {
    forall i: nat :: !EncodedWidthAt(s, i)
  }

  /** `s.replace(/%7Bwidth%7D/gi, '{width}')`: left to right, non-overlapping. */
  function UnescapeWidth(s: string): string
    decreases |s|
  {
    if s == [] then []
    else if EncodedWidthAt(s, 0) then WidthPlaceholder + UnescapeWidth(s[11..])
    else [s[0]] + UnescapeWidth(s[1..])
  }

  /** Up to its first `{`, the result of the replacement is a copy of the input. */
  lemma {:induction false} UnescapeKeepsPrefix(s: string, k: nat)
    requires k <= |UnescapeWidth(s)|
    ensures (forall j :: 0 <= j < k ==> UnescapeWidth(s)[j] != '{') ==>
      k <= |s| && s[..k] == UnescapeWidth(s)[..k]
    decreases |s|
  {
    if k > 0 {
      var u := UnescapeWidth(s);
      if EncodedWidthAt(s, 0) {
        assert u[0] == '{';
      } else {
        var rest := UnescapeWidth(s[1..]);
        assert u == [s[0]] + rest;
        UnescapeKeepsPrefix(s[1..], k - 1);
        if forall j :: 0 <= j < k ==> u[j] != '{' {
          assert forall j :: 0 <= j < k - 1 ==> rest[j] != '{' by {
            forall j | 0 <= j < k - 1 ensures rest[j] != '{' {
              assert rest[j] == u[j + 1];
            }
          }
          assert s[..k] == [s[0]] + s[1..][..k - 1];
          assert u[..k] == [s[0]] + rest[..k - 1];
        }
      }
    }
  }

  lemma EncodedWidthShift(u: string, c: seq<char>, rest: string, i: nat)
    requires u == c + rest
    requires |c| <= i
    ensures EncodedWidthAt(u, i) <==> EncodedWidthAt(rest, i - |c|)
  {
    if i + 11 <= |u| {
      assert u[i..i + 11] == rest[i - |c|..i - |c| + 11];
    }
  }

  /** No encoded placeholder, in any letter case, is left after the replacement. */
  lemma {:induction false} UnescapeLeavesNoEncodedWidth(s: string)
    ensures NoEncodedWidth(UnescapeWidth(s))
    decreases |s|
  {
    if s != [] {
      var u := UnescapeWidth(s);
      if EncodedWidthAt(s, 0) {
        var rest := UnescapeWidth(s[11..]);
        UnescapeLeavesNoEncodedWidth(s[11..]);
        assert u == WidthPlaceholder + rest;
        forall i: nat ensures !EncodedWidthAt(u, i) {
          if i < 7 {
            assert u[i] == WidthPlaceholder[i];
            assert LowerChar(u[i]) != '%';
            if i + 11 <= |u| {
              assert Lower(u[i..i + 11])[0] == LowerChar(u[i]);
            }
          } else {
            EncodedWidthShift(u, WidthPlaceholder, rest, i);
          }
        }
      } else {
        var rest := UnescapeWidth(s[1..]);
        UnescapeLeavesNoEncodedWidth(s[1..]);
        assert u == [s[0]] + rest;
        forall i: nat ensures !EncodedWidthAt(u, i) {
          if i >= 1 {
            EncodedWidthShift(u, [s[0]], rest, i);
          } else if 11 <= |u| {
            if j :| 0 <= j < 10 && rest[j] == '{' {
              assert Lower(u[0..11])[j + 1] == LowerChar(rest[j]) == '{';
            } else {
              UnescapeKeepsPrefix(s[1..], 10);
              assert u[..11] == s[..11];
            }
          }
        }
      }
    }
  }

  /** A string without an encoded placeholder is left unchanged. */
  lemma {:induction false} UnescapeIdentity(s: string)
    requires NoEncodedWidth(s)
    ensures UnescapeWidth(s) == s
    decreases |s|
  {
    if s != [] {
      assert !EncodedWidthAt(s, 0);
      forall i: nat ensures !EncodedWidthAt(s[1..], i) {
        EncodedWidthShift(s, [s[0]], s[1..], i + 1);
      }
      UnescapeIdentity(s[1..]);
    }
  }

  /** Replacing twice is replacing once. */
  lemma UnescapeIdempotent(s: string)
    ensures UnescapeWidth(UnescapeWidth(s)) == UnescapeWidth(s)
  {
    UnescapeLeavesNoEncodedWidth(s);
    UnescapeIdentity(UnescapeWidth(s));
  }

  // ---------------------------------------------------------------------------
  // url()

  /** `url(source, options, baseUrl)`: `Ok(None)` is the `null` returned for an empty
      source, `Err` what it throws. The empty string also stands for `null` and
      `undefined`, which the source treats alike. */
  function UrlSpec(cfg: InstanceConfig, libs: Libraries, source: string, options: Object, baseUrl: string, pick: nat)
    : Result<Option<string>, UrlError>
  {
    if source == "" then Ok(None)
    else match ResolveSource(libs, source, baseUrl)
      case Err(e) => Err(e)
      case Ok(resolved) =>
        var sourceUrl := OverrideSource(cfg, libs, resolved, pick).text;
        Ok(Some(UnescapeWidth(libs.serialize(RequestFor(cfg, libs, sourceUrl, options)))))
  }

  /** `url` returns null exactly for an empty source, throws exactly when the source
      stays without protocol or hostname after resolution, and otherwise returns a URL
      without any encoded `{width}` placeholder. */
  lemma UrlOutcome(cfg: InstanceConfig, libs: Libraries, source: string, options: Object, baseUrl: string, pick: nat)
    ensures var r := UrlSpec(cfg, libs, source, options, baseUrl, pick);
      && (r == Ok(None) <==> source == "")
      && (r.Err? <==> source != "" && ResolveSource(libs, source, baseUrl).Err?)
      && (r.Ok? && r.value.Some? ==> NoEncodedWidth(r.value.value))
  {
    if source != "" && ResolveSource(libs, source, baseUrl).Ok? {
      var resolved := ResolveSource(libs, source, baseUrl).value;
      var sourceUrl := OverrideSource(cfg, libs, resolved, pick).text;
      UnescapeLeavesNoEncodedWidth(libs.serialize(RequestFor(cfg, libs, sourceUrl, options)));
    }
  }

  /** Whether `url` throws depends only on the source and the base URL, never on the
      options or on the random pick. */
  lemma UrlFailureIndependent(cfg: InstanceConfig, libs: Libraries, source: string, baseUrl: string,
                              options1: Object, pick1: nat, options2: Object, pick2: nat)
    ensures UrlSpec(cfg, libs, source, options1, baseUrl, pick1).Err?
        == UrlSpec(cfg, libs, source, options2, baseUrl, pick2).Err?
  {
  }

  /** With `overrideSourcesAlways` and a single override image, every resolvable source
      yields the same URL: the one built from that image. */
  lemma SingleOverrideAlways(cfg: InstanceConfig, libs: Libraries, source1: string, source2: string,
                             options: Object, baseUrl: string, pick1: nat, pick2: nat)
    requires cfg.settings.overrideSourcesAlways && |cfg.overrideSourcesImages| == 1
    requires UrlSpec(cfg, libs, source1, options, baseUrl, pick1).Ok?
    requires UrlSpec(cfg, libs, source2, options, baseUrl, pick2).Ok?
    requires source1 != "" && source2 != ""
    ensures UrlSpec(cfg, libs, source1, options, baseUrl, pick1)
         == UrlSpec(cfg, libs, source2, options, baseUrl, pick2)
         == Ok(Some(UnescapeWidth(libs.serialize(
              RequestFor(cfg, libs, libs.parse(cfg.overrideSourcesImages[0]).text, options)))))
  {
  }

  // ---------------------------------------------------------------------------
  // srcsetArray()

  /** `assign({}, options, {width: width})`. */
  function WidthOptions(options: Object, width: nat): Object {
    Assign(Assign([], options), [("width", NatToString(width))])
  }

  /** String concatenation of `url`'s result: `null` becomes "null". */
  function JsString(u: Option<string>): string {
    match u
    case None => "null"
    case Some(s) => s
  }

  function SrcsetEntry(url: Option<string>, width: nat): string {
    JsString(url) + " " + NatToString(width) + "w"
  }

  /** The array `srcsetArray` has built after its first `n` widths; the `i`-th `url` call
      uses `picks(i)`. A throw from `url` ends it. */
  function SrcsetPrefix(cfg: InstanceConfig, libs: Libraries, source: string, options: Object,
                        baseUrl: string, picks: nat -> nat, n: nat): Result<seq<string>, UrlError>
    requires n <= |cfg.settings.srcsetWidths|
  {
    if n == 0 then Ok([])
    else match SrcsetPrefix(cfg, libs, source, options, baseUrl, picks, n - 1)
      case Err(e) => Err(e)
      case Ok(prev) =>
        var width := cfg.settings.srcsetWidths[n - 1];
        match UrlSpec(cfg, libs, source, WidthOptions(options, width), baseUrl, picks(n - 1))
        case Err(e) => Err(e)
        case Ok(u) => Ok(prev + [SrcsetEntry(u, width)])
  }

  function Srcset(cfg: InstanceConfig, libs: Libraries, source: string, options: Object,
                  baseUrl: string, picks: nat -> nat): Result<seq<string>, UrlError> {
    SrcsetPrefix(cfg, libs, source, options, baseUrl, picks, |cfg.settings.srcsetWidths|)
  }

  /** `entry` is what `url` yields for the options with `width` added, then the width. */
  predicate SrcsetEntryIs(cfg: InstanceConfig, libs: Libraries, source: string, options: Object,
                          baseUrl: string, pick: nat, width: nat, entry: string) {
    var u := UrlSpec(cfg, libs, source, WidthOptions(options, width), baseUrl, pick);
    u.Ok? && entry == SrcsetEntry(u.value, width)
  }

  /** One entry per configured width, in configured order: the URL for the options with
      that width added, then the width and `w`. It throws exactly when `url` throws for
      the source and there is at least one width. */
  lemma {:induction false} SrcsetEntries(cfg: InstanceConfig, libs: Libraries, source: string, options: Object,
                                         baseUrl: string, picks: nat -> nat, n: nat)
    requires n <= |cfg.settings.srcsetWidths|
    ensures var r := SrcsetPrefix(cfg, libs, source, options, baseUrl, picks, n);
      && (r.Err? <==> n > 0 && UrlSpec(cfg, libs, source, options, baseUrl, 0).Err?)
      && (r.Ok? ==> |r.value| == n)
      && (r.Ok? ==> forall i :: 0 <= i < n ==> SrcsetEntryIs(cfg, libs, source, options, baseUrl, picks(i), cfg.settings.srcsetWidths[i], r.value[i]))
  {
    if n > 0 {
      SrcsetEntries(cfg, libs, source, options, baseUrl, picks, n - 1);
      var prev := SrcsetPrefix(cfg, libs, source, options, baseUrl, picks, n - 1);
      var width := cfg.settings.srcsetWidths[n - 1];
      var u := UrlSpec(cfg, libs, source, WidthOptions(options, width), baseUrl, picks(n - 1));
      UrlFailureIndependent(cfg, libs, source, baseUrl, options, 0, WidthOptions(options, width), picks(n - 1));
      if prev.Ok? && u.Ok? {
        var r := SrcsetPrefix(cfg, libs, source, options, baseUrl, picks, n);
        assert r == Ok(prev.value + [SrcsetEntry(u.value, width)]);
        forall i | 0 <= i < n
          ensures SrcsetEntryIs(cfg, libs, source, options, baseUrl, picks(i), cfg.settings.srcsetWidths[i], r.value[i])
        {
          if i < n - 1 {
            assert r.value[i] == prev.value[i];
          }
        }
      }
    }
  }

  /** Once a prefix of the srcset has failed, every longer prefix fails the same way. */
  lemma {:induction false} SrcsetErrorPersists(cfg: InstanceConfig, libs: Libraries, source: string, options: Object,
                                               baseUrl: string, picks: nat -> nat, k: nat, n: nat)
    requires k <= n <= |cfg.settings.srcsetWidths|
    requires SrcsetPrefix(cfg, libs, source, options, baseUrl, picks, k).Err?
    ensures SrcsetPrefix(cfg, libs, source, options, baseUrl, picks, n) == SrcsetPrefix(cfg, libs, source, options, baseUrl, picks, k)
    decreases n - k
  {
    if k < n {
      assert SrcsetPrefix(cfg, libs, source, options, baseUrl, picks, k + 1)
          == SrcsetPrefix(cfg, libs, source, options, baseUrl, picks, k);
      SrcsetErrorPersists(cfg, libs, source, options, baseUrl, picks, k + 1, n);
    }
  }

  /** For an empty source no URL is built, yet every entry is there: `null <w>w`. */
  lemma SrcsetOfEmptySource(cfg: InstanceConfig, libs: Libraries, options: Object, baseUrl: string, picks: nat -> nat)
    ensures var r := Srcset(cfg, libs, "", options, baseUrl, picks);
      var widths := cfg.settings.srcsetWidths;
      && r.Ok? && |r.value| == |widths|
      && forall i :: 0 <= i < |widths| ==> r.value[i] == "null " + NatToString(widths[i]) + "w"
  {
    var widths := cfg.settings.srcsetWidths;
    EmptySourcePrefix(cfg, libs, options, baseUrl, picks, |widths|);
    var r := Srcset(cfg, libs, "", options, baseUrl, picks);
    forall i | 0 <= i < |widths|
      ensures r.value[i] == "null " + NatToString(widths[i]) + "w"
    {
      assert r.value[i] == SrcsetEntry(None, widths[i]);
      assert "null" + " " == "null ";
    }
  }

  lemma {:induction false} EmptySourcePrefix(cfg: InstanceConfig, libs: Libraries, options: Object, baseUrl: string,
                                             picks: nat -> nat, n: nat)
    requires n <= |cfg.settings.srcsetWidths|
    ensures var r := SrcsetPrefix(cfg, libs, "", options, baseUrl, picks, n);
      && r.Ok? && |r.value| == n
      && forall i :: 0 <= i < n ==> r.value[i] == SrcsetEntry(None, cfg.settings.srcsetWidths[i])
  {
    if n > 0 {
      EmptySourcePrefix(cfg, libs, options, baseUrl, picks, n - 1);
      var prev := SrcsetPrefix(cfg, libs, "", options, baseUrl, picks, n - 1).value;
      var width := cfg.settings.srcsetWidths[n - 1];
      assert UrlSpec(cfg, libs, "", WidthOptions(options, width), baseUrl, picks(n - 1)) == Ok(None);
      var r := SrcsetPrefix(cfg, libs, "", options, baseUrl, picks, n);
      assert r == Ok(prev + [SrcsetEntry(None, width)]);
      forall i | 0 <= i < n
        ensures r.value[i] == SrcsetEntry(None, cfg.settings.srcsetWidths[i])
      {
        if i < n - 1 {
          assert r.value[i] == prev[i];
        }
      }
    }
  }

  /** The options of the `i`-th entry carry that entry's width and keep every other
      option of the caller, who sees no change to the object passed in. A `width` the
      caller gave keeps its place in the query; otherwise `width` comes last. */
  lemma WidthOptionsCarryWidth(options: Object, width: nat, k: string)
    requires UniqueKeys(options)
    ensures Get(WidthOptions(options, width), k)
         == if k == "width" then Some(NatToString(width)) else Get(options, k)
    ensures UniqueKeys(WidthOptions(options, width))
    ensures Keys(WidthOptions(options, width))
         == if "width" in Keys(options) then Keys(options) else Keys(options) + ["width"]
  {
    AssignCopies(options);
    AssignGet(options, [("width", NatToString(width))], k);
    AssignUnique(options, [("width", NatToString(width))]);
  }
}
