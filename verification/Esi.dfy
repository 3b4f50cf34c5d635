/** What travels between the upstream API, the client and the proxy. */
module Esi {
  import opened Common

  /** The response headers the client reads, parsed. */
  datatype Headers = Headers(
    errorRemain: Option<int>,
    errorReset: Option<int>,
    retryAfter: Option<int>,
    xPages: Option<int>,
    maxAge: Option<int>,
    etag: Option<string>,
    location: Option<string>)

  /** A response body, seen through `json.loads`: a list of items, another value, or not JSON. */
  datatype Doc =
    | Items(items: seq<string>)
    | OtherJson(text: string)
    | NotJson(text: string)

  datatype HttpResponse = HttpResponse(status: int, headers: Headers, content: Doc)

  /** What one HTTP request comes to: a response, or a transport failure. */
  datatype Reply =
    | Got(resp: HttpResponse)
    | RequestError(reason: string)

  /** The client's answer to the proxy and the collector. */
  datatype ESIResponse<+B> = ESIResponse(
    status: int,
    body: B,
    etag: Option<string>,
    maxAge: Option<int>,
    notModified: bool,
    pageCount: int,
    location: Option<string>)

  predicate Throttled(status: int) {
    status == 420 || status == 429
  }
}
