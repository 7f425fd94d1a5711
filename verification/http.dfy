/** The request and response vocabulary the route table works on: what the
    HTTP library hands to a handler and what a handler hands back. */
module Http {

  datatype Option<+T> = None | Some(value: T)

  /** The request verbs the table distinguishes. Any other verb the HTTP
      library accepts is only ever matched by an `app.all` entry, exactly
      like `Delete` or `Options` here. */
  datatype Method = Get | Post | Put | Patch | Delete | Head | Options

  /** A parsed request: verb, path (without query string) and the protocol
      version as the library reports it, e.g. "1.1" or "2.0". The request
      body is never read by any handler and is not part of the model. */
  datatype Request = Request(verb: Method, path: string, httpVersion: string)

  /** What a handler sends: nothing, a static file (named relative to the
      project directory), or the JSON object `{message: text}`. */
  datatype Body = Empty | File(name: string) | Message(text: string)

  datatype Response = Response(status: nat, location: Option<string>, body: Body)

  predicate IsSuccess(status: nat) { 200 <= status < 300 }

  predicate IsRedirect(status: nat) { 300 <= status < 400 }

  /** The verb a user agent re-issues a redirected request with (section
      15.4 of RFC 9110): 303 turns every verb but HEAD into GET; 301 and
      302 turn POST into GET, as browsers do; 307 and 308 keep the verb. */
  function RedirectVerb(status: nat, m: Method): (r: Method)
    ensures status == 307 || status == 308 ==> r == m
    ensures status == 303 && m != Head ==> r == Get
    ensures (status == 301 || status == 302) && m == Post ==> r == Get
    ensures r != m ==> r == Get && status in {301, 302, 303}
  {
    if status == 303 && m != Head then Get
    else if (status == 301 || status == 302) && m == Post then Get
    else m
  }

  /** The request a user agent sends on receiving `resp` for `req`: the
      location of a redirect, on the same protocol version. */
  function FollowRedirect(req: Request, resp: Response): (next: Option<Request>)
    ensures next.Some? <==> IsRedirect(resp.status) && resp.location.Some?
    ensures next.Some? ==> next.value.path == resp.location.value && next.value.httpVersion == req.httpVersion
    ensures next.Some? ==> next.value.verb == RedirectVerb(resp.status, req.verb)
  {
    if IsRedirect(resp.status) && resp.location.Some? then
      Some(Request(RedirectVerb(resp.status, req.verb), resp.location.value, req.httpVersion))
    else None
  }
}
