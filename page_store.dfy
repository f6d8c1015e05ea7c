/**
 * The state `getPage` keeps between calls, the payload cache `crpCache`
 * and the `last.log` slot, with the vilos step that reads and writes them,
 * `getLastLog`, and `getPage` itself.
 *
 * The rendered page is an input: `page` is what the browser would yield for
 * the url, `None` when navigation throws. `transport` is what the HTTP
 * request that `GetPage` reports as `issued` yields.
 */
module PageStore {
  import opened Wrappers
  import opened Dispatch
  import opened Normalizer
  import opened Extractor

  /** What the vilos step returns when the rendered page is empty. */
  const EmptyPayload: string := "\"{}\""
  /** What `getLastLog` returns when nothing was ever written. */
  const EmptyLastLog: string := "empty last log"

  /** What `getPage` resolves to, or that its promise is rejected by a navigation failure. */
  datatype Response =
    | Enveloped(envelope: Envelope)
    | Text(text: string)
    | NavigationFailure

  class PageStore {
    /** `crpCache`: url to extracted payload. */
    var cache: map<string, string>
    /** The `last.log` slot; `None` while no such file exists. */
    var lastLog: Option<string>

    /**
     * A fresh process: the cache is empty, while `last.log` is a file on
     * disk and may hold a page left by an earlier run.
     */
    constructor (initialLog: Option<string>)
      ensures cache == map[] && lastLog == initialLog
    {
      cache := map[];
      lastLog := initialLog;
    }

    /** The cached value for `url` is served: it is present, non-empty, and this is not `viloslog`. */
    predicate CacheHit(url: string, shouldLog: bool)
      reads this
    {
      url in cache && cache[url] != "" && !shouldLog
    }

    /**
     * The effect of one vilos step. On a hit the cached payload is returned
     * and nothing changes. Otherwise the page is rendered: a navigation
     * failure changes nothing; a rendered page is written to the log slot
     * when `shouldLog`; an empty page yields `"{}"` and leaves the
     * cache alone; any other page yields its extracted payload, which
     * becomes the cache entry for `url` with every other entry unchanged.
     */
    twostate predicate VilosStep(url: string, shouldLog: bool, page: Option<string>, r: Response)
      reads this
    {
      if old(CacheHit(url, shouldLog)) then
        r == Text(old(cache)[url]) && cache == old(cache) && lastLog == old(lastLog)
      else if page.None? then
        r == NavigationFailure && cache == old(cache) && lastLog == old(lastLog)
      else
        && lastLog == (if shouldLog then page else old(lastLog))
        && if page.value == "" then
             r == Text(EmptyPayload) && cache == old(cache)
           else
             r == Text(Extract(page.value)) && cache == old(cache)[url := Extract(page.value)]
    }

    /** `getVilosMedia`; `rendered` tells whether the browser was asked for the page. */
    method GetVilosMedia(url: string, shouldLog: bool, page: Option<string>)
      returns (r: Response, rendered: bool)
      modifies this
      ensures rendered == !old(CacheHit(url, shouldLog))
      ensures VilosStep(url, shouldLog, page, r)
    {
      if CacheHit(url, shouldLog) {
        return Text(cache[url]), false;
      }
      rendered := true;
      if page.None? {
        return NavigationFailure, rendered;
      }
      var htmlPage := page.value;
      if shouldLog {
        lastLog := Some(htmlPage);
      }
      if htmlPage == "" {
        return Text(EmptyPayload), rendered;
      }
      var config := Extract(htmlPage);
      cache := cache[url := config];
      r := Text(config);
    }

    /** `getLastLog`: the last logged page, or the sentinel when none was written. */
    method GetLastLog() returns (r: string)
      ensures lastLog.Some? ==> r == lastLog.value
      ensures lastLog.None? ==> r == EmptyLastLog
    {
      r := match lastLog
        case Some(text) => text
        case None => EmptyLastLog;
    }

    /** Time-to-live expiry: the entries for `expired` disappear, nothing else changes. */
    method Sweep(expired: set<string>)
      modifies this
      ensures cache == old(cache) - expired && lastLog == old(lastLog)
    {
      cache := cache - expired;
    }

    /**
     * `getPage`: classify the request and run its strategy. `issued` is the
     * HTTP request the strategy makes, whose outcome `transport` is.
     */
    method GetPage(req: Request, transport: Outcome, page: Option<string>)
      returns (resp: Response, issued: Option<FetchOptions>)
      modifies this
      ensures issued == FetchFor(GetPageStrategy(req.format, req.requestMethod))
      ensures match GetPageStrategy(req.format, req.requestMethod)
        case Info => resp == Enveloped(PageInfo(req.url, transport)) && unchanged(this)
        case Raw(_) => resp == Enveloped(RawPage(transport)) && unchanged(this)
        case Contents(_) => resp == Enveloped(PageContents(req.url, transport)) && unchanged(this)
        case LastLog =>
          && resp == Text(if lastLog.Some? then lastLog.value else EmptyLastLog)
          && unchanged(this)
        case Vilos(shouldLog) => VilosStep(req.url, shouldLog, page, resp)
    {
      var strategy := GetPageStrategy(req.format, req.requestMethod);
      issued := FetchFor(strategy);
      match strategy
      case Info =>
        resp := Enveloped(PageInfo(req.url, transport));
      case Raw(_) =>
        resp := Enveloped(RawPage(transport));
      case Vilos(shouldLog) =>
        var rendered;
        resp, rendered := GetVilosMedia(req.url, shouldLog, page);
      case LastLog =>
        var text := GetLastLog();
        resp := Text(text);
      case Contents(_) =>
        resp := Enveloped(PageContents(req.url, transport));
    }
  }

  /**
   * Two `vilos` calls in a row: once the first has served a cached payload
   * or stored a freshly extracted non-empty one, the second is served
   * from the cache, without rendering, with the same answer.
   */
  method VilosTwice(store: PageStore, url: string, page1: Option<string>, page2: Option<string>)
    returns (r1: Response, r2: Response, rendered2: bool)
    modifies store
    ensures (old(store.CacheHit(url, false)) ||
             (page1.Some? && page1.value != "" && Extract(page1.value) != "")) ==>
              !rendered2 && r2 == r1
  {
    var rendered1;
    r1, rendered1 := store.GetVilosMedia(url, false, page1);
    r2, rendered2 := store.GetVilosMedia(url, false, page2);
  }

  /**
   * `viloslog` then `vilos`: the first always renders, even on a hit, logs
   * the page, and refreshes the cache, so the second serves the fresh payload.
   */
  method ViloslogThenVilos(store: PageStore, url: string, page1: Option<string>, page2: Option<string>)
    returns (r1: Response, rendered1: bool, r2: Response, rendered2: bool)
    modifies store
    ensures rendered1
    ensures page1.Some? ==> store.lastLog == Some(page1.value)
    ensures page1.Some? && page1.value != "" && Extract(page1.value) != "" ==>
              r1 == Text(Extract(page1.value)) && !rendered2 && r2 == r1
  {
    r1, rendered1 := store.GetVilosMedia(url, true, page1);
    r2, rendered2 := store.GetVilosMedia(url, false, page2);
  }

  /**
   * Expiry forces a render: once a sweep has removed `url`, the next `vilos`
   * call for it asks the browser again, and a rendered page is extracted afresh.
   */
  method SweepThenVilos(store: PageStore, url: string, expired: set<string>, page: Option<string>)
    returns (r: Response, rendered: bool)
    modifies store
    requires url in expired
    ensures rendered
    ensures page.Some? && page.value != "" ==>
              r == Text(Extract(page.value)) && url in store.cache && store.cache[url] == Extract(page.value)
  {
    store.Sweep(expired);
    r, rendered := store.GetVilosMedia(url, false, page);
  }
}
