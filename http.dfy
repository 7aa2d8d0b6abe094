/**
 * Requests and responses as the service worker sees them. Bodies are
 * immutable strings, so `request.clone()` and `response.clone()` are the
 * identity here; only the fields the worker inspects are kept.
 */
module Http {
  import opened Wrappers

  /** A cache key: the URL a request or a manifest entry names. */
  type Url = string

  /** `Request.method`, `Request.url` and `Request.mode`. */
  datatype Request = Request(httpMethod: string, url: Url, mode: string)

  /**
   * `Response.status`, `Response.type`, the body text and, for responses
   * the worker builds itself, the `Content-Type` header.
   */
  datatype Response = Response(status: int, responseType: string, body: string, contentType: Option<string>)
}
