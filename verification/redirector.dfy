/**
 * Redirect translation (`IntercoolerRedirector.__call__`,
 * intercooler_helpers/middleware.py:156-172): a 3xx response with a
 * `Location` header, answering a confirmed intercooler request, is replaced by
 * a 200 response that names the target in `X-IC-Redirect`.
 */
module Redirector {
  import opened IntercoolerData

  const LocationHeader := "Location"
  const RedirectHeader := "X-IC-Redirect"

  /** An HTTP response: its status code and its headers. */
  class Response {
    var status: int
    var headers: map<string, string>

    constructor (status: int, headers: map<string, string>)
      ensures this.status == status && this.headers == headers
    {
      this.status := status;
      this.headers := headers;
    }

    /** `HttpResponse()`: a fresh response with status 200. */
    constructor Ok()
      ensures status == 200 && headers == map[]
    {
      status := 200;
      headers := map[];
    }
  }

  /** A response the middleware rewrites: a 3xx status with a `Location` header. */
  predicate IsRewritable(status: int, headers: map<string, string>)
  {
    300 <= status < 400 && LocationHeader in headers
  }

  /** The headers of the replacement: the original ones without `Location`, plus `X-IC-Redirect`. */
  function RedirectHeaders(headers: map<string, string>): (r: map<string, string>)
    requires LocationHeader in headers
    ensures LocationHeader !in r
    ensures RedirectHeader in r && r[RedirectHeader] == headers[LocationHeader]
    ensures forall k :: k in headers && k != LocationHeader && k != RedirectHeader ==> k in r && r[k] == headers[k]
    ensures forall k :: k in r ==> k == RedirectHeader || k in headers
  {
    (headers - {LocationHeader})[RedirectHeader := headers[LocationHeader]]
  }

  /**
   * `IntercoolerRedirector.__call__`, given the `response` the downstream
   * handler produced. When it rewrites, it also deletes `Location` from the
   * original response before copying its headers.
   */
  method Redirect(request: Request, response: Response) returns (result: Response)
    modifies response`headers
    ensures response.status == old(response.status)
    ensures !(request.IsIntercooler() && IsRewritable(old(response.status), old(response.headers))) ==>
      result == response && response.headers == old(response.headers)
    ensures request.IsIntercooler() && IsRewritable(old(response.status), old(response.headers)) ==>
      fresh(result) && result.status == 200 &&
      result.headers == RedirectHeaders(old(response.headers)) &&
      response.headers == old(response.headers) - {LocationHeader}
  {
    if !request.IsIntercooler() {
      return response;
    }
    if 300 <= response.status < 400 {
      if LocationHeader in response.headers {
        var url := response.headers[LocationHeader];
        response.headers := response.headers - {LocationHeader};
        var newResp := new Response.Ok();
        var pending := response.headers.Keys;
        while pending != {}
          invariant pending <= response.headers.Keys
          invariant newResp.headers == map k | k in response.headers.Keys - pending :: response.headers[k]
          invariant response.headers == old(response.headers) - {LocationHeader}
          invariant fresh(newResp) && newResp.status == 200
          decreases pending
        {
          var k :| k in pending;
          newResp.headers := newResp.headers[k := response.headers[k]];
          pending := pending - {k};
        }
        newResp.headers := newResp.headers[RedirectHeader := url];
        return newResp;
      }
    }
    return response;
  }

  /** A 302 to `/wheee/` becomes a 200 carrying `X-IC-Redirect: /wheee/` and keeps its other headers. */
  lemma WheeeRedirect(others: map<string, string>)
    requires LocationHeader !in others && RedirectHeader !in others
    ensures IsRewritable(302, others[LocationHeader := "/wheee/"])
    ensures RedirectHeaders(others[LocationHeader := "/wheee/"]) == others[RedirectHeader := "/wheee/"]
  {
    var h := others[LocationHeader := "/wheee/"];
    assert h - {LocationHeader} == others;
  }
}
