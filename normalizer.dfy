/**
 * The response normaliser: the success envelopes of `getPageInfo`,
 * `getRawPage` and `getPageContents`, and `processError`, which turns a
 * transport failure into the contents envelope.
 */
module Normalizer {
  import opened Wrappers

  newtype byte = x: int | 0 <= x < 256
  type Bytes = seq<byte>

  /**
   * The HTTP response the client hands back. `contentLengthHeader` is the
   * `content-length` header after numeric conversion (`None` when absent or
   * not a number); `url` is the final URL after redirects.
   */
  datatype HttpResponse = HttpResponse(
    url: string,
    statusCode: int,
    contentType: Option<string>,
    contentLengthHeader: Option<int>,
    body: Bytes)

  /** A failed request, with or without a response attached. */
  datatype TransportError =
    | NoResponse(message: string)
    | WithResponse(message: string, response: HttpResponse)

  /** What `request` yields: the response, whose body is the content, or the error. */
  datatype Outcome = Fetched(response: HttpResponse) | Failed(error: TransportError)

  /** The `status` object of the contents envelope. */
  datatype Status =
    | Meta(url: string, contentType: Option<string>, contentLength: int, httpCode: int)
    | ErrorStatus(error: TransportError)

  datatype Envelope =
    | InfoEnvelope(url: string, contentType: Option<string>, contentLength: int, httpCode: int)
    | RawEnvelope(content: Bytes, contentType: Option<string>, contentLength: int)
    | ContentsEnvelope(contents: Option<Bytes>, status: Status)  // None is `contents: null`

  /** `processError`: a pure connection failure gives `contents: null` and the error; an HTTP failure gives the full envelope of its response. */
  function ProcessError(e: TransportError): (r: Envelope)
    ensures r.ContentsEnvelope?
    ensures e.NoResponse? ==> r.contents.None? && r.status == ErrorStatus(e)
    ensures e.WithResponse? ==>
              && r.contents == Some(e.response.body)
              && r.status.Meta?
              && r.status.url == e.response.url
              && r.status.httpCode == e.response.statusCode
              && r.status.contentType == e.response.contentType
              && r.status.contentLength == |e.response.body|
  {
    match e
    case NoResponse(_) => ContentsEnvelope(None, ErrorStatus(e))
    case WithResponse(_, response) =>
      ContentsEnvelope(Some(response.body),
        Meta(response.url, response.contentType, |response.body|, response.statusCode))
  }

  /**
   * `getPageInfo`: the probe's metadata. The length is the header's value
   * when it is a non-zero number and -1 otherwise (`+header || -1`).
   */
  function PageInfo(url: string, o: Outcome): (r: Envelope)
    ensures o.Failed? ==> r == ProcessError(o.error)
    ensures o.Fetched? ==>
              && r.InfoEnvelope?
              && r.url == url
              && r.httpCode == o.response.statusCode
              && r.contentType == o.response.contentType
              && r.contentLength != 0
              && (o.response.contentLengthHeader in {None, Some(0)} ==> r.contentLength == -1)
              && (o.response.contentLengthHeader !in {None, Some(0)} ==>
                    o.response.contentLengthHeader == Some(r.contentLength))
  {
    match o
    case Failed(e) => ProcessError(e)
    case Fetched(response) =>
      var length := match response.contentLengthHeader
        case Some(n) => if n != 0 then n else -1
        case None => -1;
      InfoEnvelope(url, response.contentType, length, response.statusCode)
  }

  /** `getRawPage`: the undecoded body, its content type and its byte length. */
  function RawPage(o: Outcome): (r: Envelope)
    ensures o.Failed? ==> r == ProcessError(o.error)
    ensures o.Fetched? ==>
              && r.RawEnvelope?
              && r.content == o.response.body
              && r.contentLength == |r.content|
              && r.contentType == o.response.contentType
  {
    match o
    case Failed(e) => ProcessError(e)
    case Fetched(response) =>
      RawEnvelope(response.body, response.contentType, |response.body|)
  }

  /** `getPageContents`: the body and a status naming the request's url and the body's byte length. */
  function PageContents(url: string, o: Outcome): (r: Envelope)
    ensures o.Failed? ==> r == ProcessError(o.error)
    ensures o.Fetched? ==>
              && r.ContentsEnvelope?
              && r.contents == Some(o.response.body)
              && r.status == Meta(url, o.response.contentType, |o.response.body|, o.response.statusCode)
  {
    match o
    case Failed(e) => ProcessError(e)
    case Fetched(response) =>
      ContentsEnvelope(Some(response.body),
        Meta(url, response.contentType, |response.body|, response.statusCode))
  }

  /**
   * An HTTP-level failure is shaped exactly like a success for the
   * response's own url: callers of the contents envelope need not tell them apart.
   */
  lemma ErrorWithResponseMirrorsSuccess(message: string, response: HttpResponse)
    ensures ProcessError(WithResponse(message, response)) == PageContents(response.url, Fetched(response))
  {
  }

  /** The raw envelope does not depend on the `content-length` header. */
  lemma RawLengthIgnoresHeader(a: HttpResponse, b: HttpResponse)
    requires a.(contentLengthHeader := None) == b.(contentLengthHeader := None)
    ensures RawPage(Fetched(a)) == RawPage(Fetched(b))
  {
  }

  /** The contents envelope does not depend on the `content-length` header. */
  lemma ContentsLengthIgnoresHeader(url: string, a: HttpResponse, b: HttpResponse)
    requires a.(contentLengthHeader := None) == b.(contentLengthHeader := None)
    ensures PageContents(url, Fetched(a)) == PageContents(url, Fetched(b))
  {
  }

  /** A 200 response with body "hello" and type text/plain. */
  lemma HelloExample()
    ensures var hello: Bytes := [104, 101, 108, 108, 111];
            var response := HttpResponse("https://example.com", 200, Some("text/plain"), None, hello);
            PageContents("https://example.com", Fetched(response))
              == ContentsEnvelope(Some(hello), Meta("https://example.com", Some("text/plain"), 5, 200))
  {
  }
}
