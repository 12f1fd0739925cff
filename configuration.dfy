/** What the `TinyPictures` constructor computes from its options: the defaulted options,
    the list of override images and the parts of the API base URL. */
module Configuration {
  import opened Results
  import opened Text
  import opened Externals

  const CdnHost := "tiny.pictures"
  const RandomImage := "http://lorempixel.com/1920/1920"
  const Categories: seq<string> := [
    "abstract", "animals", "business", "cats", "city", "food", "nightlife",
    "fashion", "people", "nature", "sports", "technics", "transport"]
  const DefaultSrcsetWidths: seq<nat> := [
    50, 75, 100, 120, 180, 360, 540, 720, 900, 1080,
    1296, 1512, 1728, 1944, 2160, 2376, 2592, 2808, 3024]

  /** A short alias: URLs starting with `url` are requested as `<name>/<rest>`. */
  datatype NamedSource = NamedSource(name: string, url: string)

  /** `overrideSourcesImages` by its JavaScript type: a boolean, a string, or a list. */
  datatype OverrideInput =
    | OverrideFlag(flag: bool)
    | OverrideText(text: string)
    | OverrideList(images: seq<string>)

  /** What the override input selects, decided once at construction. */
  datatype OverridePolicy =
    | Disabled
    | RandomDefault
    | Category(tag: string)
    | SingleUrl(url: string)
    | ExplicitList(urls: seq<string>)

  /** `customSubdomain`: `true`, `false`, or any other value (a URL prefix). */
  datatype SubdomainSetting = SubdomainFlag(enabled: bool) | SubdomainTemplate(template: string)

  /** The options given to the constructor; `None` is a property left undefined. */
  datatype RawOptions = RawOptions(
    user: Option<string>,
    namedSources: Option<seq<NamedSource>>,
    overrideSourcesImages: Option<OverrideInput>,
    overrideSourcesAlways: Option<bool>,
    customSubdomain: Option<SubdomainSetting>,
    protocol: Option<string>,
    defaultBaseUrl: Option<string>,
    srcsetWidths: Option<seq<nat>>)

  /** `this._options`: every property defined; `user` is `None` (null) unless given. */
  datatype Settings = Settings(
    user: Option<string>,
    namedSources: seq<NamedSource>,
    overrideSourcesImages: OverrideInput,
    overrideSourcesAlways: bool,
    customSubdomain: SubdomainSetting,
    protocol: string,
    defaultBaseUrl: string,
    srcsetWidths: seq<nat>)

  function OrDefault<T>(o: Option<T>, d: T): T {
    match o
    case Some(v) => v
    case None => d
  }

  /** lodash `defaults({}, options, {...})`: an undefined property takes its default. */
  function WithDefaults(raw: RawOptions): Settings {
    Settings(
      raw.user,
      OrDefault(raw.namedSources, []),
      OrDefault(raw.overrideSourcesImages, OverrideList([])),
      OrDefault(raw.overrideSourcesAlways, false),
      OrDefault(raw.customSubdomain, SubdomainFlag(true)),
      OrDefault(raw.protocol, "https"),
      OrDefault(raw.defaultBaseUrl, ""),
      OrDefault(raw.srcsetWidths, DefaultSrcsetWidths))
  }

  /** `this._options.user` is truthy. */
  predicate UserIsSet(user: Option<string>) {
    user.Some? && user.value != ""
  }

  /** The type switch on `overrideSourcesImages`. */
  function ClassifyOverride(input: OverrideInput): OverridePolicy {
    match input
    case OverrideFlag(b) => if b then RandomDefault else Disabled
    case OverrideText(t) =>
      if t == "random" then RandomDefault
      else if t in Categories then Category(t)
      else SingleUrl(t)
    case OverrideList(images) => ExplicitList(images)
  }

  function CategoryImage(tag: string, n: nat): string {
    RandomImage + "/" + tag + "/" + NatToString(n)
  }

  /** `this._overrideSourcesImages`: the images a source may be replaced with. */
  function Candidates(policy: OverridePolicy): seq<string> {
    match policy
    case Disabled => []
    case RandomDefault => [RandomImage]
    case Category(tag) => seq(10, i requires 0 <= i < 10 => CategoryImage(tag, i + 1))
    case SingleUrl(url) => [url]
    case ExplicitList(urls) => urls
  }

  function OverrideCandidates(input: OverrideInput): seq<string> {
    Candidates(ClassifyOverride(input))
  }

  /** `this._apiBaseUrlObject`. A template is parsed by urijs with the user appended, and
      then the `protocol` option plays no part. */
  function ApiBaseFor(libs: Libraries, setting: SubdomainSetting, protocol: string, user: string): ApiBase {
    match setting
    case SubdomainFlag(false) => ApiBase(protocol, CdnHost, "/api/" + user + "/")
    case SubdomainFlag(true) => ApiBase(protocol, user + "." + CdnHost, "/")
    case SubdomainTemplate(t) => libs.parseParts(t + user + "/")
  }

  datatype ConfigError = NoUserSet

  /** The three fields the constructor assigns. */
  datatype InstanceConfig = InstanceConfig(
    settings: Settings,
    overrideSourcesImages: seq<string>,
    apiBaseUrlObject: ApiBase)

  /** The constructor: it throws unless `user` is truthy. */
  function BuildConfig(libs: Libraries, raw: RawOptions): (r: Result<InstanceConfig, ConfigError>)
    ensures r.Err? <==> !UserIsSet(raw.user)
    ensures r.Ok? ==> UserIsSet(r.value.settings.user) && r.value.settings.user == raw.user
  {
    var settings := WithDefaults(raw);
    if !UserIsSet(settings.user) then Err(NoUserSet)
    else Ok(InstanceConfig(
      settings,
      OverrideCandidates(settings.overrideSourcesImages),
      ApiBaseFor(libs, settings.customSubdomain, settings.protocol, settings.user.value)))
  }

  /** Reads the user back from an API base built in one of the two flag modes. */
  function UserOfApiBase(base: ApiBase): Option<string> {
    var suffix := "." + CdnHost;
    if base.hostname == CdnHost && StartsWith(base.path, "/api/") && |base.path| >= 6
       && base.path[|base.path| - 1] == '/'
    then Some(base.path[5..|base.path| - 1])
    else if base.path == "/" && |base.hostname| >= |suffix|
       && base.hostname[|base.hostname| - |suffix|..] == suffix
    then Some(base.hostname[..|base.hostname| - |suffix|])
    else None
  }

  /** With `customSubdomain` `false` the API base is `tiny.pictures` with path
      `/api/<user>/`; with `true` it is `<user>.tiny.pictures` with path `/`; in both the
      user can be read back, so different users never share an API base. */
  lemma ApiBaseFlagModes(libs: Libraries, enabled: bool, protocol: string, user: string)
    ensures var base := ApiBaseFor(libs, SubdomainFlag(enabled), protocol, user);
      && base.protocol == protocol
      && (!enabled ==> base.hostname == CdnHost && base.path == "/api/" + user + "/")
      && (enabled ==> base.hostname == user + "." + CdnHost && base.path == "/")
      && UserOfApiBase(base) == Some(user)
  {
    if enabled {
      SubdomainUser(protocol, user);
    } else {
      PathUser(protocol, user);
    }
  }

  lemma SubdomainUser(protocol: string, user: string)
    ensures UserOfApiBase(ApiBase(protocol, user + "." + CdnHost, "/")) == Some(user)
  {
    var hostname := user + "." + CdnHost;
    var suffix := "." + CdnHost;
    assert !StartsWith("/", "/api/");
    assert hostname[|hostname| - |suffix|..] == suffix;
    assert hostname[..|hostname| - |suffix|] == user;
  }

  lemma PathUser(protocol: string, user: string)
    ensures UserOfApiBase(ApiBase(protocol, CdnHost, "/api/" + user + "/")) == Some(user)
  {
    var path := "/api/" + user + "/";
    assert StartsWith(path, "/api/") by {
      assert path[..5] == "/api/";
    }
    assert path[5..|path| - 1] == user;
  }

  /** The constructor throws exactly when `user` is missing or empty; otherwise the API
      base follows `customSubdomain` and the override list follows `overrideSourcesImages`. */
  lemma BuildConfigOutcome(libs: Libraries, raw: RawOptions)
    ensures var r := BuildConfig(libs, raw);
      && (r.Err? <==> raw.user.None? || raw.user == Some(""))
      && (r.Ok? && raw.customSubdomain.None? ==>
            r.value.apiBaseUrlObject.hostname == raw.user.value + "." + CdnHost
            && r.value.apiBaseUrlObject.path == "/")
      && (r.Ok? && raw.customSubdomain == Some(SubdomainFlag(false)) ==>
            r.value.apiBaseUrlObject.hostname == CdnHost
            && r.value.apiBaseUrlObject.path == "/api/" + raw.user.value + "/")
      && (r.Ok? && raw.overrideSourcesImages.None? ==> r.value.overrideSourcesImages == [])
  {
  }

  /** A category yields ten distinct images, the n-th being
      `http://lorempixel.com/1920/1920/<category>/<n>`. */
  lemma {:induction false} CategoryCandidates(tag: string)
    requires tag in Categories
    ensures var c := OverrideCandidates(OverrideText(tag));
      && |c| == 10
      && (forall n :: 1 <= n <= 10 ==> c[n - 1] == RandomImage + "/" + tag + "/" + NatToString(n))
      && (forall i, j :: 0 <= i < j < 10 ==> c[i] != c[j])
  {
    assert ClassifyOverride(OverrideText(tag)) == Category(tag);
    var c := OverrideCandidates(OverrideText(tag));
    assert c == Candidates(Category(tag));
    var prefix := RandomImage + "/" + tag + "/";
    forall n | 1 <= n <= 10
      ensures c[n - 1] == prefix + NatToString(n)
    {
      assert c[n - 1] == CategoryImage(tag, n);
    }
    forall i, j | 0 <= i < j < 10
      ensures c[i] != c[j]
    {
      assert c[i] == prefix + NatToString(i + 1);
      assert c[j] == prefix + NatToString(j + 1);
      assert c[i][|prefix|..] == NatToString(i + 1);
      assert c[j][|prefix|..] == NatToString(j + 1);
      NatToStringDistinct(i + 1, j + 1);
    }
  }

  /** `false` gives no images, `true` and `'random'` the one default image, any other
      string that is not a category a list of itself, and a list is kept as given. */
  lemma OverrideCandidatesByInput(input: OverrideInput)
    ensures input == OverrideFlag(false) ==> OverrideCandidates(input) == []
    ensures input == OverrideFlag(true) || input == OverrideText("random") ==>
      OverrideCandidates(input) == [RandomImage]
    ensures input.OverrideText? && input.text != "random" && input.text !in Categories ==>
      OverrideCandidates(input) == [input.text]
    ensures input.OverrideList? ==> OverrideCandidates(input) == input.images
    ensures OverrideCandidates(input) == [] <==> input == OverrideFlag(false) || input == OverrideList([])
  {
  }
}
