/** What index.js promises about its route table, proved of `App.Serve`.
    The lemmas per source section establish which registration answers
    which request; `ServeAgreesWithReference` assembles them into the
    statement that the ordered table and the hand-written decision tree of
    `Reference` agree on every request. */
module Properties {
  import opened Http
  import opened Routing
  import opened Replies
  import opened App
  import opened Reference

  /** Once entry `i` is known to be the first match, its handler decides
      the reply. */
  lemma Selects(req: Request, i: nat)
    requires FirstMatchAt(Routes, req, i)
    ensures Serve(req) == Respond(Routes[i].handler, req)
  {
  }

  /** GET on the six page routes serves the page's file (index.js:36-59). */
  lemma StaticPagesServed(req: Request)
    requires req.verb == Get
    ensures req.path == "/" ==> Serve(req) == Response(200, None, File("html/register.html"))
    ensures req.path == "/update" ==> Serve(req) == Response(200, None, File("html/update.html"))
    ensures req.path == "/bad-request" ==> Serve(req) == Response(200, None, File("html/bad-request.html"))
    ensures req.path == "/complete" ==> Serve(req) == Response(200, None, File("html/complete.html"))
    ensures req.path == "/old-registration" ==> Serve(req) == Response(200, None, File("html/old-register.html"))
    ensures req.path == "/old-reg-fail" ==> Serve(req) == Response(200, None, File("html/old-reg-fail.html"))
  {
    var p := req.path;
    if p == "/" { Selects(req, 0); }
    else if p == "/update" { Selects(req, 1); }
    else if p == "/bad-request" { Selects(req, 2); }
    else if p == "/complete" { Selects(req, 3); }
    else if p == "/old-registration" { Selects(req, 4); }
    else if p == "/old-reg-fail" { Selects(req, 5); }
  }

  /** The data endpoints of the 2xx section (index.js:61-94). */
  lemma DataEndpointsServed(req: Request)
    ensures req.verb == Get && req.path == "/user/john-new.html" ==> Serve(req) == Response(200, None, Message("This is John's new page"))
    ensures req.verb == Get && req.path == "/user/jane-new" ==> Serve(req) == Response(200, None, Message("This is Jane's new page"))
    ensures req.verb == Get && req.path == "/thank-you-page" ==> Serve(req) == Response(200, None, Message("Thank you for registering"))
    ensures req.verb == Post && req.path == "/register" ==> Serve(req) == Response(201, None, Message("registration complete"))
    ensures req.verb == Post && req.path == "/login" ==> Serve(req) == Response(201, None, Message("You are logged in"))
    ensures req.verb == Put && req.path == "/update" ==> Serve(req) == Response(204, None, Empty)
  {
    var (m, p) := (req.verb, req.path);
    if m == Get && p == "/user/john-new.html" { Selects(req, 6); }
    else if m == Get && p == "/user/jane-new" { Selects(req, 7); }
    else if m == Get && p == "/thank-you-page" { Selects(req, 8); }
    else if m == Post && p == "/register" { Selects(req, 9); }
    else if m == Post && p == "/login" { Selects(req, 10); }
    else if m == Put && p == "/update" { Selects(req, 11); }
  }

  /** The redirects registered for GET: 301 and 302, each with a location
      header and an empty body (index.js:100-103, index.js:111-114). */
  lemma GetRedirectsServed(req: Request)
    requires req.verb == Get
    ensures req.path == "/user/john" ==> Serve(req) == Response(301, Some("/user/john-new.html"), Empty)
    ensures req.path == "/user/jane" ==> Serve(req) == Response(302, Some("/user/jane-new"), Empty)
  {
    if req.path == "/user/john" { Selects(req, 12); }
    else if req.path == "/user/jane" { Selects(req, 14); }
  }

  /** The redirects registered for POST: 301, 303, 307 and 308, each with
      a location header and an empty body (index.js:105-108,
      index.js:117-132). */
  lemma PostRedirectsServed(req: Request)
    requires req.verb == Post
    ensures req.path == "/old-registration-fail" ==> Serve(req) == Response(301, Some("/register"), Empty)
    ensures req.path == "/complete-registration" ==> Serve(req) == Response(303, Some("/thank-you-page"), Empty)
    ensures req.path == "/old-registration" ==> Serve(req) == Response(307, Some("/register"), Empty)
    ensures req.path == "/old-login" ==> Serve(req) == Response(308, Some("/login"), Empty)
  {
    var p := req.path;
    if p == "/old-registration-fail" { Selects(req, 13); }
    else if p == "/complete-registration" { Selects(req, 15); }
    else if p == "/old-registration" { Selects(req, 16); }
    else if p == "/old-login" { Selects(req, 17); }
  }

  /** The fixed-reply routes of the 4xx section (index.js:138-150). */
  lemma ClientErrorsServed(req: Request)
    ensures req.verb == Post && req.path == "/bad-request" ==> Serve(req) == Response(400, None, Message("You are missing vital credentials"))
    ensures req.verb == Get && req.path == "/user" ==> Serve(req) == Response(401, None, Message("You need to login to view this"))
    ensures req.verb == Get && req.path == "/super-secret" ==> Serve(req) == Response(403, None, Message("You are forbidden from seeing this"))
  {
    var (m, p) := (req.verb, req.path);
    if m == Post && p == "/bad-request" { Selects(req, 18); }
    else if m == Get && p == "/user" { Selects(req, 19); }
    else if m == Get && p == "/super-secret" { Selects(req, 20); }
  }

  /** The fixed-reply routes of the 5xx section (index.js:165-167,
      index.js:175-177). */
  lemma ServerErrorsServed(req: Request)
    ensures req.verb == Post && req.path == "/500" ==> Serve(req) == Response(500, None, Message("I failed. I'm sorry"))
    ensures req.verb == Get && req.path == "/503" ==> Serve(req) == Response(503, None, Message("I had to take a break. Getting too old for this"))
  {
    if req.verb == Post && req.path == "/500" { Selects(req, 22); }
    else if req.verb == Get && req.path == "/503" { Selects(req, 24); }
  }

  /** `/only-put` answers every verb, PATCH included, because it is
      registered before the PATCH wildcard: 204 with no body for PUT,
      405 "Please use put" otherwise (index.js:153-160). */
  lemma OnlyPutServed(req: Request)
    requires req.path == "/only-put"
    ensures req.verb == Put ==> Serve(req) == Response(204, None, Empty)
    ensures req.verb != Put ==> Serve(req) == Response(405, None, Message("Please use put"))
  {
    Selects(req, 21);
  }

  /** PATCH on any path but `/only-put` is refused with 501, `/http2`
      included, although `/http2` accepts every verb: the wildcard is
      registered first (index.js:170-172, index.js:180). */
  lemma PatchWildcardServed(req: Request)
    requires req.verb == Patch && req.path != "/only-put"
    ensures Serve(req) == Response(501, None, Message("I will patch no such thing"))
  {
    Selects(req, 23);
  }

  /** `/http2` with any verb but PATCH: 200 on protocol version "2.0",
      505 "Only http2 baby" on every other version (index.js:180-186). */
  lemma Http2Served(req: Request)
    requires req.path == "/http2" && req.verb != Patch
    ensures req.httpVersion == "2.0" ==> Serve(req) == Response(200, None, Message("You get a response. She gets a response...Everybody gets a response"))
    ensures req.httpVersion != "2.0" ==> Serve(req) == Response(505, None, Message("Only http2 baby"))
  {
    Selects(req, 25);
  }

  /** A request no entry but the last one matches gets the 404 reply of
      the final `app.all('*')` (index.js:193-195). */
  lemma FallbackServed(req: Request)
    requires forall i | 0 <= i < |Routes| - 1 :: !Matches(Routes[i], req)
    ensures Serve(req) == Response(404, None, Message("This resource was not found"))
  {
  }

  /** The requests the reference sends to the 404 reply match no entry but
      the catch-all. */
  lemma UnregisteredMatchesNothingEarlier(req: Request)
    requires req.path != "/only-put" && req.path != "/http2" && req.verb != Patch
    requires req.verb == Get ==> OnGet(req.path) == NotFound
    requires req.verb == Post ==> OnPost(req.path) == NotFound
    requires req.verb == Put ==> req.path != "/update"
    ensures forall i | 0 <= i < |Routes| - 1 :: !Matches(Routes[i], req)
  {
  }

  /** GET requests, away from the two all-verb paths. */
  lemma GetAgreesWithReference(req: Request)
    requires req.verb == Get && req.path != "/only-put" && req.path != "/http2"
    ensures Serve(req) == OnGet(req.path)
  {
    if OnGet(req.path) == NotFound {
      UnregisteredMatchesNothingEarlier(req);
      FallbackServed(req);
    } else {
      StaticPagesServed(req);
      DataEndpointsServed(req);
      GetRedirectsServed(req);
      ClientErrorsServed(req);
      ServerErrorsServed(req);
    }
  }

  /** POST requests, away from the two all-verb paths. */
  lemma PostAgreesWithReference(req: Request)
    requires req.verb == Post && req.path != "/only-put" && req.path != "/http2"
    ensures Serve(req) == OnPost(req.path)
  {
    if OnPost(req.path) == NotFound {
      UnregisteredMatchesNothingEarlier(req);
      FallbackServed(req);
    } else {
      DataEndpointsServed(req);
      PostRedirectsServed(req);
      ClientErrorsServed(req);
      ServerErrorsServed(req);
    }
  }

  /** The ordered table and the hand-written decision tree answer every
      request identically. */
  lemma ServeAgreesWithReference(req: Request)
    ensures Serve(req) == Expected(req)
  {
    var (m, p) := (req.verb, req.path);
    if p == "/only-put" {
      OnlyPutServed(req);
    } else if m == Patch {
      PatchWildcardServed(req);
    } else if p == "/http2" {
      Http2Served(req);
    } else if m == Get {
      GetAgreesWithReference(req);
    } else if m == Post {
      PostAgreesWithReference(req);
    } else if m == Put && p == "/update" {
      DataEndpointsServed(req);
    } else {
      UnregisteredMatchesNothingEarlier(req);
      FallbackServed(req);
    }
  }
}
