/**
 * The dispatcher `getPage`: an ordered classification of a request's
 * `format` and HTTP method into one of five retrieval strategies, and the
 * HTTP request each fetching strategy issues.
 */
module Dispatch {
  import opened Wrappers

  /** An incoming request; an absent `format` is `None`. */
  datatype Request = Request(url: string, format: Option<string>, requestMethod: string)

  datatype Strategy =
    | Info                          // metadata probe with HEAD
    | Raw(requestMethod: string)    // undecoded body
    | Vilos(shouldLog: bool)        // rendered page, payload extraction, cache
    | LastLog                       // the last persisted rendered page
    | Contents(requestMethod: string) // decoded body in the contents envelope

  /** The options of the one HTTP request a fetching strategy makes. */
  datatype FetchOptions = FetchOptions(requestMethod: string, decompress: bool)

  /**
   * The if-chain of `getPage`. The contract states each outcome as an
   * if-and-only-if over the inputs, so the order of the tests shows up as
   * the `requestMethod != "HEAD"` conjuncts: HEAD wins over every format.
   */
  function GetPageStrategy(format: Option<string>, requestMethod: string): (s: Strategy)
    ensures s.Info? <==> format == Some("info") || requestMethod == "HEAD"
    ensures s.Raw? <==> format == Some("raw") && requestMethod != "HEAD"
    ensures s.Vilos? <==>
              (format == Some("vilos") || format == Some("viloslog")) && requestMethod != "HEAD"
    ensures s.Vilos? ==> s.shouldLog == (format == Some("viloslog"))
    ensures s.LastLog? <==> format == Some("lastlog") && requestMethod != "HEAD"
    ensures s.Contents? <==>
              requestMethod != "HEAD" &&
              format !in {Some("info"), Some("raw"), Some("vilos"), Some("viloslog"), Some("lastlog")}
    ensures (s.Raw? || s.Contents?) ==> s.requestMethod == requestMethod
  {
    if format == Some("info") || requestMethod == "HEAD" then Info
    else if format == Some("raw") then Raw(requestMethod)
    else if format == Some("vilos") || format == Some("viloslog") then Vilos(format == Some("viloslog"))
    else if format == Some("lastlog") then LastLog
    else Contents(requestMethod)
  }

  /**
   * The HTTP request issued for a strategy: the probe always uses HEAD, raw
   * turns decompression off, contents keeps it on; the vilos and lastlog
   * strategies make no HTTP request.
   */
  function FetchFor(s: Strategy): (f: Option<FetchOptions>)
    ensures f.Some? <==> s.Info? || s.Raw? || s.Contents?
    ensures f.Some? ==> f.value.decompress == !s.Raw?
    ensures s.Info? ==> f == Some(FetchOptions("HEAD", true))
    ensures (s.Raw? || s.Contents?) ==> f.value.requestMethod == s.requestMethod
  {
    match s
    case Info => Some(FetchOptions("HEAD", true))
    case Raw(m) => Some(FetchOptions(m, false))
    case Contents(m) => Some(FetchOptions(m, true))
    case Vilos(_) => None
    case LastLog => None
  }

  /** A raw request made with HEAD is still a probe: HEAD overrides `raw`. */
  lemma HeadOverridesRaw()
    ensures GetPageStrategy(Some("raw"), "HEAD") == Info
  {
  }
}
