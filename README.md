# tiny.pictures SDK: URL rewriting and reveal logic

This project models the core of the tiny.pictures JavaScript SDK in Dafny. The core is the class
`TinyPictures` in `src/index.js`. It rewrites image URLs so that they point at the
tiny.pictures image API, and it prepares lazily loaded `<img>` elements for loading.

The model covers these parts of the class:

- **Construction** (`configuration.dfy`, `TinyPictures.Create`):
  - options are defaulted;
  - construction throws when there is no user;
  - the loosely typed `overrideSourcesImages` becomes a list of override images;
  - `customSubdomain` selects the API base: `<user>.tiny.pictures/`, `tiny.pictures/api/<user>/`,
    or a template that urijs parses.
- **`url`** (`url_builder.dfy`, `TinyPictures.Url`): the steps below, in order.
  1. A `//` source gets the base URL's protocol.
  2. The source is resolved against the base URL.
  3. It throws when the protocol or host is still missing.
  4. The source may be replaced by an override image.
  5. The first matching named source is applied.
  6. The options are added as query parameters, then `source` when no named source matched.
  7. Every `%7Bwidth%7D`, in any letter case, is un-escaped back to `{width}`.
- **`srcsetArray`** (`TinyPictures.SrcsetArray`): one entry per configured width.
- **The element side** (`dom.dfy`, `TinyPictures`):
  - `mergedOptions`;
  - the `wrapInPicture` fan-out into a webp `source` and a plain `source`;
  - `revealAttributes`;
  - the `reveal` guard and `revealAll`;
  - the `lazybeforeunveil` handler: which elements it reveals, and in which order.

Modelling choices:

- **Plain JavaScript objects** become ordered key/value sequences, and lodash `assign` keeps JavaScript's
  insertion order (`objects.dfy`).
- **The urijs query** is an ordered multimap. `addQuery` on an existing key appends to that
  key's value list.
- **Foreign code is abstract.** urijs (parse, normalize, absoluteTo, joinPaths, parse into parts,
  serialise) and `sync-is-private-host` are fields of a `Libraries` record of functions, fixed
  for each instance. The model does not interpret them.
- **Random choices are inputs.** lodash `sample` becomes an explicit index `pick`, taken
  modulo the number of override images. A call that makes several `url` calls takes a
  function `picks` from call number to index.
- **Missing values.** The empty string stands for a missing or `null` attribute or source,
  because every caller treats these alike. `url`'s `null` result is `None`, and string
  concatenation turns it into `"null"`.
- **Throws.** A throw is a `Result` error: `NoUserSet` or `MissingProtocolOrHostname`.
- **Elements** are objects of class `Dom.Element`. Each has:
  - attributes;
  - parsed `data-tp-options`;
  - classes;
  - a parent;
  - children.

  The methods that change elements carry field-level `modifies` clauses.

## Model

| member | source | states |
|---|---|---|
| Configuration.BuildConfig | src/index.js:12-128 | construction fails exactly when `user` is missing or empty; on success the user is the one given |
| Configuration.BuildConfigOutcome | src/index.js:12-128 | throws iff `user` is missing or empty; the default `customSubdomain` (true) gives host `<user>.tiny.pictures` and path `/`, `false` gives `tiny.pictures` and `/api/<user>/`; no override option gives no override images |
| Configuration.ApiBaseFlagModes | src/index.js:107-124 | for both flag values, the protocol is the configured one and the host and path are as documented; the user can be read back from either form, so two users never share an API base |
| Configuration.CategoryCandidates | src/index.js:69-97 | a category name yields exactly ten images, the n-th `http://lorempixel.com/1920/1920/<category>/<n>` for n = 1..10, pairwise distinct |
| Configuration.OverrideCandidatesByInput | src/index.js:69-105 | `false` gives no images, `true` and `'random'` the single default image, any other non-category string a list of itself, a list is kept as given; the list is empty only for `false` or an empty list |
| TinyPicturesSdk.TinyPictures.Create | src/index.js:12-128 | `new TinyPictures(options)` throws `no user set` exactly when `user` is falsy; otherwise the fresh instance holds the configuration `BuildConfig` describes |
| TinyPicturesSdk.TinyPictures.constructor | src/index.js:12-128 | with a user, the fields `_options`, `_overrideSourcesImages` and `_apiBaseUrlObject` are those of `BuildConfig` |
| TinyPicturesSdk.TinyPictures.BaseUrl | src/index.js:160-168 | a configured `defaultBaseUrl` wins; otherwise the page address; the result is empty only when both are |
| TinyPicturesSdk.TinyPictures.Url | src/index.js:170-220 | the imperative `url` (local reassignments, the `addQuery` loop) computes exactly `UrlSpec`, whose properties are the lemmas below |
| UrlBuilder.UrlOutcome | src/index.js:170-219 | `url` returns null exactly for an empty source, throws exactly when resolution leaves no protocol or host, and otherwise returns a string with no encoded `{width}` in any case |
| UrlBuilder.ProtocolRelativeSource | src/index.js:175-179 | a `//` source gets the normalised base URL's protocol and `:` prepended exactly when a base URL is given; the source itself is kept as the suffix |
| UrlBuilder.UrlFailureIndependent | src/index.js:180-187 | whether `url` throws depends only on source and base URL, not on options or the random pick |
| UrlBuilder.OverrideSubstitution | src/index.js:189-192 | the source is replaced exactly when there are override images and (`overrideSourcesAlways` or a private host); the replacement is one of the images, and every image is reachable by some pick |
| UrlBuilder.SingleOverrideAlways | src/index.js:189-192 | with `overrideSourcesAlways` and a single override image, every resolvable source yields the same URL |
| UrlBuilder.FindNamedSource | src/index.js:194-198 | the named source chosen is the first, in configured order, whose `url` prefixes the source; none earlier matches, and none matches when none is chosen |
| UrlBuilder.NamedSourceRequest | src/index.js:194-216 | with a named source the path is joined from the API path, its name and the source minus the prefix, and the query is exactly the options: no `source` parameter is added |
| UrlBuilder.SourceParameterLast | src/index.js:208-216 | without a named source the path is the API path and the query is the options in iteration order followed by `source=<url>` last |
| UrlBuilder.NamedSourceXorSourceParameter | src/index.js:194-216 | exactly one of a named-source path and a `source` parameter is used |
| UrlBuilder.SourceParameterMerged | src/index.js:211-216 | when the options carry a `source` key themselves, the source URL is appended to that key's values, so it is not last |
| UrlBuilder.UnescapeLeavesNoEncodedWidth | src/index.js:218-219 | after the replacement no `%7Bwidth%7D`, in any letter case, remains |
| UrlBuilder.UnescapeIdentity | src/index.js:218-219 | a string without an encoded placeholder is returned unchanged |
| UrlBuilder.UnescapeIdempotent | src/index.js:218-219 | replacing twice is the same as replacing once |
| UrlBuilder.UnescapeKeepsPrefix | src/index.js:218-219 | up to the first `{` of the result, the replacement is a copy of its input |
| TinyPicturesSdk.TinyPictures.SrcsetArray | src/index.js:222-228 | the imperative loop computes exactly `Srcset`: entry by entry, stopping at the first throw |
| UrlBuilder.SrcsetEntries | src/index.js:222-228 | one entry per configured width, in order; entry i is `url(src, options + {width: w_i})` then `' <w_i>w'`; it throws exactly when the source cannot be resolved |
| UrlBuilder.SrcsetErrorPersists | src/index.js:224-226 | once an entry has thrown, the whole call throws that error |
| UrlBuilder.SrcsetOfEmptySource | src/index.js:222-228 | with an empty source every entry is `null <w>w`: there is no short cut for empty input |
| UrlBuilder.WidthOptionsCarryWidth | src/index.js:225 | the options of an entry carry its width and every other caller option unchanged; a caller's `width` keeps its place in the query order, otherwise `width` comes last; the caller's object is a value and is not changed |
| Objects.AssignGet | src/index.js:297-301 | lodash `assign`: a key of the later object takes its value, any other key keeps the earlier one |
| Objects.AddQueriesFresh | src/index.js:211-213 | adding options with distinct, new keys appends them to the query in iteration order |
| Dom.MergeOverrideWins | src/index.js:297-301 | `mergedOptions`, modelled as `Dom.Merge` on the element's options, is a shallow merge in which override keys win over the element's options; the element's keys keep their order and come first, and no other key appears |
| Dom.FanOutOptions | src/index.js:289-290 | the webp source always carries `format: webp` and otherwise the element's options; the plain source carries them unchanged |
| Dom.CopyTruthyAt | src/index.js:283-288 | exactly the truthy `data-tp-src`, `data-tp-srcset` and `data-tp-sizes` of the image are copied; every other attribute of the source is kept |
| Dom.CopyTruthyAttributes | src/index.js:283-288 | the copying loop leaves the attributes `CopyTruthy` describes |
| TinyPicturesSdk.TinyPictures.WrapInPicture | src/index.js:250-295 | a `picture` parent is reused; a vetoed event gives null; otherwise a fresh `picture` under the old parent holds a webp `source` (`type=image/webp`, `format: webp`), a plain `source`, then the image |
| TinyPicturesSdk.TinyPictures.RevealAttributes | src/index.js:303-332 | the attributes after the call, the throw and the auto-size hand-over are those of `RevealSpec` |
| Dom.RevealAtomic | src/index.js:303-332 | `revealAttributes` throws exactly when `url` throws for the element's source, and then leaves every attribute as it was |
| Dom.RevealKeepsOtherAttributes | src/index.js:303-332 | no attribute except the loadable one (`srcset` for a `source`, `src` otherwise), `srcset` and `sizes` is written, so a `source` keeps its `src` |
| Dom.RevealWritesUrl | src/index.js:305-313 | without `data-tp-sizes` the URL is written to `srcset` for a `source` and to `src` otherwise, and nothing else changes |
| Dom.RevealWritesSrcset | src/index.js:307-331 | with `data-tp-sizes`, an element other than a `source` still gets the URL under `src`, and the joined srcset overwrites `srcset`; `auto` hands the element to the auto-sizer and leaves `sizes` alone, any other value is copied to `sizes` |
| TinyPicturesSdk.TinyPictures.RevealOrder | src/index.js:146-152 | the sources come first in reverse document order, the image last |
| TinyPicturesSdk.TinyPictures.CollectElements | src/index.js:144-153 | `tp-nopicture` or a vetoed wrap reveals the image alone; in an existing picture, its sources reversed and then the image; in a new picture, the plain source, the webp source, then the image; the elements are distinct |
| TinyPicturesSdk.TinyPictures.RevealInOrder | src/index.js:155 | the elements are revealed in order, each from its attributes at the start; the first throw stops the rest, which keep their attributes |
| TinyPicturesSdk.TinyPictures.Unveil | src/index.js:144-155 | the handler past its guard: which elements are revealed, in which order, and from which attributes |
| TinyPicturesSdk.TinyPictures.OnBeforeUnveil | src/index.js:139-156 | an element without `data-tp-src`/`data-tp-srcset` attributes is left alone: nothing is revealed, and the image and its picture's sources keep their attributes; for any other the handler has the whole effect `UnveilEffect` describes: the element is revealed last, after its picture's sources, last source first; a reported throw comes from the last element revealed, from the attributes it had before |
| Dom.UnveilGuardAsWrittenSkipsMarkedImage | src/index.js:141-143 | the guard as written sends an image carrying the `data-tp-src` attribute, but no class of that name, to the early `return`, while the attribute guard accepts it |
| TinyPicturesSdk.TinyPictures.Reveal | src/index.js:334-340 | the element is handed to `unveil` exactly when it is neither loading nor loaded |
| TinyPicturesSdk.TinyPictures.RevealAll | src/index.js:342-348 | the images handed to `unveil` are the pending ones, in document order |
| Dom.PendingOnlyIsFilter | src/index.js:342-348 | exactly the pending images are unveiled, none of the loading or loaded ones |

## Left out

- urijs (parse, normalize, absoluteTo, joinPaths, parse into parts, serialise) and `sync-is-private-host` are uninterpreted total functions of the `Libraries` record: they are assumed never to throw. In particular, the `customSubdomain` template branch says no more than "the library parses `template + user + '/'` into a protocol, a hostname and a path". Strings are sequences of Unicode characters, so a JavaScript string with a lone surrogate cannot be represented.
- A `customSubdomain` template is reduced to its protocol, hostname and path. In the source, `urijs.parse` also yields a port, a user name, a password, a query and a fragment, and `assign({}, this._apiBaseUrlObject)` carries them into every API URL (`http://localhost:8080/` gives `http://localhost:8080/<user>/?source=…`). The model drops those parts, so no API URL it builds carries a port, credentials, a base query or a fragment.
- UrlBuilder.UrlFailureIndependent: holds only because the library functions are total. In the source, urijs can throw on its own: `absoluteTo` on a URN source such as a `data:` URL, or the query encoding (`encodeURIComponent`) on an option value with a lone surrogate. Such a throw depends on the options and the chosen override image, not only on the source and base URL.
- Dom.RevealAtomic: holds only because the library functions are total. If urijs threw while `srcsetArray` built a later URL (for instance an override image whose serialisation throws), `src` would already be written and the element would be left half-written.
- The distribution of lodash `sample` is not modelled; the index is an input.
- The `lazybeforeunveil` handler does not model the lazysizes integration:
  - loading lazysizes;
  - saving and restoring `window.lazySizes` and `window.lazySizesConfig`;
  - `lazySizesConfig` defaulting;
  - `lazyload()`;
  - `loader.unveil`.

  `autoSizer.updateElem` is reported as a flag. Event dispatch is reduced to the `vetoed` input.
- DOM tree surgery is only partly modelled:
  - `insertBefore` and `removeChild` on the image's old parent are left out, so the old parent's child list is not updated;
  - the IE9 comment nodes are left out;
  - `getElementsByTagName('source')` is taken over the picture's direct children only;
  - the `data-tp-options` attribute written on each fan-out source is kept as the parsed `options` field.
- JSON parse and stringify of `data-tp-options`: options are held already parsed, so the model assumes the round trip through JSON is the identity.
- `image()` (src/index.js:230-248) builds an HTML string and calls `srcsetArray` with the wrong number of arguments. It promises nothing coherent.
- `registerAngularJsModule` and `registerJQueryPlugin` are framework adapters.
- Option values are held as strings, as they appear in the query. JavaScript's ordering of integer-like object keys before other keys is not modelled.
- A non-boolean, non-string `overrideSourcesImages` other than a list (a number, `null`) is not modelled.
- TinyPicturesSdk.TinyPictures.WrapInPicture: requires a parent element. In the source an image without one makes `img.parentElement.nodeName` throw a TypeError, and the model does not represent that crash.
- TinyPicturesSdk.TinyPictures.OnBeforeUnveil: requires the target not to be a `source`. `revealAll` and the jQuery plugin only hand `img` elements to lazysizes, but the public `reveal(element)` accepts any element; for a `<source data-tp-src>` inside a `picture`, `getElementsByTagName('source')` returns the target itself, so it would be revealed twice. A `source` target is not modelled.
- TinyPicturesSdk.TinyPictures.OnBeforeUnveil: requires the parent's children to be distinct, which holds in any DOM tree.
- TinyPicturesSdk.TinyPictures.Create: promises an instance for every truthy user. The constructor in the source also dereferences `this._options.window.document` (src/index.js:139) whenever a global `window` exists, and `window` defaults to `null` (src/index.js:17), so in a browser it throws a TypeError when the `window` option is not given. The global `window` and the `window` option are not modelled.
- TinyPicturesSdk.TinyPictures.RevealAll: takes the list of images as a parameter instead of querying the document, and does not model `unveil` re-entering the handler.

## Findings

| source | as written | input that shows it | evidently intended | confidence | as-written member | corrected member |
|---|---|---|---|---|---|---|
| src/index.js:141 | the unveil handler returns unless the element's class list contains `data-tp-src` or `data-tp-srcset` | `<img class="tp-lazyload" data-tp-src="https://example.com/a.jpg">`: the attribute is set, the class list does not contain it, so the handler returns and the image is never rewritten | test the attributes, as every other part of the SDK reads `data-tp-src`/`data-tp-srcset` as attributes | medium, not executed | Dom.UnveilGuardAsWrittenSkipsMarkedImage | TinyPicturesSdk.TinyPictures.OnBeforeUnveil |
