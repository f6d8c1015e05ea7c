# allOrigins page retrieval core, in Dafny

This project models the retrieval dispatcher of allOrigins (`app/get-page.js`).
It covers the parts of that file that are logic rather than I/O:

- **Dispatcher** (`Dispatch`). `getPage` classifies a request's `format` and
  HTTP method into one of five strategies: info, raw, vilos (with a log flag),
  lastlog and contents. `FetchFor` gives the HTTP request options each
  fetching strategy uses.
- **String semantics** (`JsString`). JavaScript's `indexOf` and the legacy
  `substr` are written out: start clamping, a negative start counted back from
  the end, and a negative length meaning zero characters.
- **Payload extractor** (`Extractor`). This is the marker arithmetic of
  `getVilosMedia`: `indexOf("config.media =") + 15`, then up to one character
  before the first `"\n\n"`.
- **Response normaliser** (`Normalizer`). These are the envelopes built by
  `getPageInfo`, `getRawPage` and `getPageContents`, and `processError` for
  its two error variants. Bodies are byte sequences, so a content length is
  the length of the sequence.
- **State** (`PageStore`). A class holds the payload cache `crpCache`, as a
  `map<string, string>`, and the `last.log` slot, as an `Option<string>`.
  Its methods are the vilos cache step, `getLastLog`, TTL expiry and `getPage`
  itself. The vilos step's effect is stated once, by the two-state predicate
  `VilosStep`, and both `GetVilosMedia` and `GetPage` promise it.

External collaborators become parameters:

- The headless browser is the `page: Option<string>` argument. It is the
  rendered page the browser would give for the url, and `None` when
  navigation throws.
- The HTTP client is the `transport: Outcome` argument. It is the result of
  the request that `FetchFor` describes.

Notes on the code's behaviour:

- **Missing marker.** The code does not check for the marker: `indexOf`
  gives -1, and the scan starts at offset 14 (`MissingMarkerScansFrom14`,
  `MissingMarkerExample`). The only `"{}"` sentinel is for an empty rendered
  page.
- **Navigation failure.** A failed render is not replaced by an empty-payload
  result: the exception propagates, and the browser is not closed. The model
  returns `NavigationFailure` and changes no state.
- **Errors on the info path.** On the info path, `processError` still returns
  the contents envelope (`PageInfo` on `Failed`), so an info result can carry
  a `contents` field.
- **Cached empty payload.** An extracted empty payload is stored. On the next
  call it reads as a miss, because an empty string is falsy.

## Model

| member | source | states |
|---|---|---|
| `JsString.IndexOfFrom` | app/get-page.js:88 | the result is -1 exactly when the pattern does not occur at or after the start; otherwise it is an occurrence and no earlier one exists |
| `JsString.IndexOf` | app/get-page.js:91 | -1 if and only if the pattern is absent; otherwise the first occurrence, within bounds |
| `JsString.Substr` | app/get-page.js:89-92 | `substr` semantics: an omitted length takes the rest; a start past the end gives ""; a negative or zero length gives ""; a negative start counts from the end, with or without a length; the result lies within the string |
| `Extractor.Extract` | app/get-page.js:88-92 | the payload never reaches past the page's end from the scan start; what it is, is proved by `ExtractCharacterization`, `ExtractIsSubstring` and `ExtractHasNoTerminator` |
| `Extractor.PayloadStart` | app/get-page.js:88-89 | the scan starts 15 past the marker's index, clamped to the page |
| `Extractor.ExtractCharacterization` | app/get-page.js:88-92 | the payload is `page[s..s+e-1]`, where `s` is the scan start and `e` is the first blank line in the remainder; it is "" when there is no blank line or `e <= 1` |
| `Extractor.ExtractIsSubstring` | app/get-page.js:88-92 | the payload is the substring of the page found at the scan start |
| `Extractor.ExtractHasNoTerminator` | app/get-page.js:91-92 | the payload never contains `"\n\n"` |
| `Extractor.ExtractWithoutTerminatorIsEmpty` | app/get-page.js:91-92 | with no blank line after the scan start, the payload is "" |
| `Extractor.MissingMarkerScansFrom14` | app/get-page.js:88-89 | a missing marker does not short-circuit: the scan starts at offset 14 |
| `Extractor.ExtractExample` | app/get-page.js:88-92 | for `config.media = {};` followed by a blank line, the payload is `{}`: the separator and the trailing `;` are dropped |
| `Extractor.MissingMarkerExample` | app/get-page.js:88-92 | a page without the marker yields the text from offset 14 to the blank line, not a sentinel |
| `Dispatch.GetPageStrategy` | app/get-page.js:12-24 | info exactly when the format is `info` or the method is HEAD; raw, vilos, lastlog and contents each exactly when their format is matched and the method is not HEAD; contents for every other or absent format; the vilos log flag is `format == viloslog`; raw and contents pass the method through |
| `Dispatch.FetchFor` | app/get-page.js:133-138 | info issues HEAD with decompression; raw issues the request's method without decompression; contents issues it with decompression; vilos and lastlog make no HTTP request |
| `Dispatch.HeadOverridesRaw` | app/get-page.js:13-16 | `raw` with HEAD is classified as info |
| `Normalizer.ProcessError` | app/get-page.js:154-170 | with no response: `contents: null` and the error as status; with a response: its body, its url, its status code, its content type, and the body's byte length |
| `Normalizer.PageInfo` | app/get-page.js:26-36 | on success: the request url, the status, the content type, and a length that is the header's value when it is non-zero and -1 when it is absent or zero; on failure: `processError` |
| `Normalizer.RawPage` | app/get-page.js:38-48 | on success: the body's bytes, the content type, and a length equal to the byte length of the content; on failure: `processError` |
| `Normalizer.PageContents` | app/get-page.js:117-131 | on success: the body, plus a status with the request url, the content type, the body's byte length and the status code; on failure: `processError` |
| `Normalizer.ErrorWithResponseMirrorsSuccess` | app/get-page.js:154-169 | an error with a response gives exactly the success envelope of that response, for the response's own url |
| `Normalizer.RawLengthIgnoresHeader` | app/get-page.js:42-46 | the raw envelope is independent of the `content-length` header |
| `Normalizer.ContentsLengthIgnoresHeader` | app/get-page.js:121-128 | the contents envelope is independent of the `content-length` header |
| `Normalizer.HelloExample` | app/get-page.js:117-131 | a 200 `text/plain` response with body "hello" gives contents "hello" with `content_length` 5 |
| `PageStore.PageStore.constructor` | app/get-page.js:6 | the cache starts empty; the log slot holds whatever `last.log` already holds |
| `PageStore.PageStore.CacheHit` | app/get-page.js:82-83 | a cached value is served only when it is present, non-empty (truthy) and the call is not `viloslog` |
| `PageStore.PageStore.GetVilosMedia` | app/get-page.js:81-96 | renders exactly when there is no non-empty cached value or the call is `viloslog`; a hit returns the cached value and changes nothing; a navigation failure changes nothing; the log slot is written with the rendered page only when logging; an empty page returns `"{}"` and leaves the cache unchanged; otherwise the result is the extracted payload, the cache maps `url` to it, and every other key is unchanged |
| `PageStore.PageStore.GetLastLog` | app/get-page.js:73-79 | the slot's content, or `empty last log` when nothing was ever written |
| `PageStore.PageStore.Sweep` | app/get-page.js:6 | TTL expiry removes the expired keys and nothing else |
| `PageStore.PageStore.GetPage` | app/get-page.js:12-24 | each strategy's result: the three envelopes and lastlog leave the state unchanged, and vilos performs the vilos step with the classified log flag; the HTTP request issued is the strategy's `FetchFor` request |
| `PageStore.VilosTwice` | app/get-page.js:82-83 | after a `vilos` call that served or stored a non-empty payload, a second `vilos` call for the same url does not render and returns the same answer |
| `PageStore.SweepThenVilos` | app/get-page.js:6 | after expiry removes `url`, the next `vilos` call renders, and a rendered non-empty page becomes the served and cached payload |
| `PageStore.ViloslogThenVilos` | app/get-page.js:83-94 | `viloslog` always renders, logs the page and refreshes the cache, so a following `vilos` call gets the fresh payload without rendering |

## Left out

- Browser launch, stealth options, request interception of media, font,
  image and stylesheet requests, and viewport setup (app/get-page.js:50-65,
  98-115). These are foreign browser calls, so the rendered page is an input.
- The `got` client and the `request`/`processContent` plumbing
  (app/get-page.js:133-152). This is network I/O. Only the resulting outcome
  is modelled, together with the request options (`FetchFor`).
- `fs.writeFile`/`readFile` as I/O. The slot is one field. The write at line
  67 is not awaited and has no `.catch`, so its failures are not handled (an
  unhandled rejection). The model treats the write as always succeeding, at
  once. Any race between that write and a later read is not modelled.
- node-cache TTL timing and the periodic sweep. These are not modelled as
  time. `Sweep` lets any set of entries disappear.
- Numeric coercion of the `content-length` header (`+header`). The header is
  taken as an already-parsed optional integer. Fractional values are not
  modelled.
- Text decoding. `contents: body.toString()` is carried as the same byte
  sequence as the body, and JavaScript strings are modelled as Dafny
  character sequences, not UTF-16 code units.
- Closing the browser. A navigation failure skips `browser.close()` in the
  source, and browser resources are not modelled.
- Concurrency between overlapping `getPage` calls. Each call is modelled as
  one atomic step on the shared cache.
- A failure of `browser.close()` (line 68) after a `viloslog` write was
  issued: the slot is then written but the call still fails. The model treats
  every failure of the browser as happening before the write.
