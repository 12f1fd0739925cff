/** The libraries the SDK calls but does not define: urijs (parsing, normalisation,
    resolution, path joining and serialisation of URLs) and sync-is-private-host. They are
    taken as given functions: nothing is assumed about what they compute, except that
    they always return (none of them throws). */
module Externals {
  import opened Objects

  /** A urijs URL as far as the SDK inspects it: `protocol()`, `hostname()` and `toString()`. */
  datatype Uri = Uri(protocol: string, hostname: string, text: string)

  /** The parts of `_apiBaseUrlObject` from which every API URL is built. The two flag
      settings of `customSubdomain` set exactly these (the port is null); from a template
      URL only these three parts are kept. */
  datatype ApiBase = ApiBase(protocol: string, hostname: string, path: string)

  /** An API URL before it is serialised: the base parts, the path and the query. */
  datatype Request = Request(protocol: string, hostname: string, path: string, query: Query)

  datatype Libraries = Libraries(
    parse: string -> Uri,                           // urijs(s)
    normalize: Uri -> Uri,                          // uri.normalize()
    absoluteTo: (Uri, string) -> Uri,               // uri.absoluteTo(base)
    parseParts: string -> ApiBase,                  // urijs.parse(s)
    joinPaths: (string, string, string) -> string,  // urijs.joinPaths(a, b, c)
    serialize: Request -> string,                   // urijs(parts).normalize(), addQuery..., toString()
    isPrivate: string -> bool)                      // isPrivate(hostname)
}
