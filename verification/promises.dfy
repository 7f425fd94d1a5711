/** The behavioural promises of index.js, derived from the agreement
    between the route table and the reference. */
module Promises {
  import opened Http
  import opened Routing
  import opened Replies
  import opened App
  import opened Reference
  import opened Properties

  /** A request gets the 404 reply exactly when no registration before
      the final catch-all matches it (index.js:193-195). */
  lemma NotFoundIffUnregistered(req: Request)
    ensures Serve(req).status == 404 <==> forall i | 0 <= i < |Routes| - 1 :: !Matches(Routes[i], req)
    ensures Serve(req).status == 404 ==> Serve(req) == NotFound
  {
    if forall i | 0 <= i < |Routes| - 1 :: !Matches(Routes[i], req) {
      FallbackServed(req);
    } else {
      OnlyCatchAllAnswersNotFound(req);
      var k := FirstMatch(Routes, req).value;
      Selects(req, k);
    }
  }

  /** The GET routes that redirect. */
  lemma OnGetRedirects(p: string)
    requires IsRedirect(OnGet(p).status)
    ensures p == "/user/john" || p == "/user/jane"
  {
  }

  /** The POST routes that redirect. */
  lemma OnPostRedirects(p: string)
    requires IsRedirect(OnPost(p).status)
    ensures p in {"/old-registration-fail", "/complete-registration", "/old-registration", "/old-login"}
  {
  }

  /** Only the six redirect registrations answer with a redirect. */
  lemma RedirectSources(req: Request)
    ensures IsRedirect(Serve(req).status) ==>
      || (req.verb == Get && req.path in {"/user/john", "/user/jane"})
      || (req.verb == Post && req.path in {"/old-registration-fail", "/complete-registration", "/old-registration", "/old-login"})
  {
    ServeAgreesWithReference(req);
    if req.verb == Get && IsRedirect(OnGet(req.path).status) {
      OnGetRedirects(req.path);
    } else if req.verb == Post && IsRedirect(OnPost(req.path).status) {
      OnPostRedirects(req.path);
    }
  }

  /** Following any redirect the table emits lands on a 2xx route, except
      the 301 from POST `/old-registration-fail`, which a user agent
      re-issues as `GET /register`, a request only the catch-all answers
      (index.js:104-108). Method-preserving redirects land on POST routes
      answering 201; the others land on GET routes answering 200. */
  lemma RedirectsLandOnSuccess(req: Request)
    ensures IsRedirect(Serve(req).status) ==> FollowRedirect(req, Serve(req)).Some?
    ensures IsRedirect(Serve(req).status) ==>
      var next := FollowRedirect(req, Serve(req)).value;
      if req.verb == Post && req.path == "/old-registration-fail" then
        next == Request(Get, "/register", req.httpVersion) && Serve(next) == NotFound
      else IsSuccess(Serve(next).status)
    ensures Serve(req).status in {307, 308} ==>
      var next := FollowRedirect(req, Serve(req)).value;
      next.verb == Post && Serve(next).status == 201
    ensures Serve(req).status in {301, 302, 303} ==>
      var next := FollowRedirect(req, Serve(req)).value;
      next.verb == Get && (req.path != "/old-registration-fail" ==> Serve(next).status == 200)
  {
    if IsRedirect(Serve(req).status) {
      RedirectSources(req);
      if req.verb == Get {
        GetRedirectsLand(req);
      } else {
        PostRedirectsLand(req);
      }
    }
  }

  /** The two GET redirects lead to GET routes answering 200. */
  lemma GetRedirectsLand(req: Request)
    requires req.verb == Get && req.path in {"/user/john", "/user/jane"}
    ensures Serve(req).status in {301, 302}
    ensures FollowRedirect(req, Serve(req)).Some?
    ensures var next := FollowRedirect(req, Serve(req)).value;
      next.verb == Get && Serve(next).status == 200
  {
    GetRedirectsServed(req);
    var next := FollowRedirect(req, Serve(req)).value;
    DataEndpointsServed(next);
  }

  /** `/register` is registered for POST only, so the GET a user agent
      sends after a downgrading 301 falls through to the catch-all
      (index.js:76, index.js:104-108). */
  lemma GetRegisterIsNotFound(v: string)
    ensures Serve(Request(Get, "/register", v)) == NotFound
  {
    GetAgreesWithReference(Request(Get, "/register", v));
  }

  /** The four POST redirects: 303 leads to a GET route answering 200,
      307 and 308 to POST routes answering 201, and the 301 to 404. */
  lemma PostRedirectsLand(req: Request)
    requires req.verb == Post
    requires req.path in {"/old-registration-fail", "/complete-registration", "/old-registration", "/old-login"}
    ensures FollowRedirect(req, Serve(req)).Some?
    ensures var next := FollowRedirect(req, Serve(req)).value;
      if req.path == "/old-registration-fail" then
        next == Request(Get, "/register", req.httpVersion) && Serve(next) == NotFound
      else if req.path == "/complete-registration" then
        Serve(req).status == 303 && next.verb == Get && Serve(next).status == 200
      else
        Serve(req).status in {307, 308} && next.verb == Post && Serve(next).status == 201
  {
    PostRedirectsServed(req);
    var next := FollowRedirect(req, Serve(req)).value;
    if req.path == "/old-registration-fail" {
      GetRegisterIsNotFound(req.httpVersion);
    } else {
      DataEndpointsServed(next);
    }
  }

  /** The same path answers differently per verb (index.js:41 and
      index.js:90, index.js:45 and index.js:138, index.js:53 and
      index.js:123). */
  lemma SamePathDependsOnVerb(v: string)
    ensures Serve(Request(Get, "/update", v)) == Response(200, None, File("html/update.html"))
    ensures Serve(Request(Put, "/update", v)) == Response(204, None, Empty)
    ensures Serve(Request(Get, "/bad-request", v)) == Response(200, None, File("html/bad-request.html"))
    ensures Serve(Request(Post, "/bad-request", v)) == Response(400, None, Message("You are missing vital credentials"))
    ensures Serve(Request(Get, "/old-registration", v)) == Response(200, None, File("html/old-register.html"))
    ensures Serve(Request(Post, "/old-registration", v)) == Response(307, Some("/register"), Empty)
  {
    StaticPagesServed(Request(Get, "/update", v));
    DataEndpointsServed(Request(Put, "/update", v));
    StaticPagesServed(Request(Get, "/bad-request", v));
    ClientErrorsServed(Request(Post, "/bad-request", v));
    StaticPagesServed(Request(Get, "/old-registration", v));
    PostRedirectsServed(Request(Post, "/old-registration", v));
  }

  /** The catch-all is the last registration and the only one. */
  lemma CatchAllIsLast()
    ensures IsCatchAll(Routes[|Routes| - 1])
    ensures forall i | 0 <= i < |Routes| - 1 :: !IsCatchAll(Routes[i])
  {
  }

  /** Anything registered after the catch-all would never be reached: the
      table answers every request before getting to it. */
  lemma LaterRegistrationsAreDead(extra: seq<Route<Handler>>, req: Request)
    ensures Dispatch(Routes + extra, req) == Dispatch(Routes, req)
    ensures forall i | |Routes| <= i < |Routes + extra| :: !FirstMatchAt(Routes + extra, req, i)
  {
    CatchAllIsLast();
    EntriesAfterCatchAllAreDead(Routes, |Routes| - 1, extra, req);
  }

  /** The table with the PATCH wildcard registered after `/http2` instead
      of before it. */
  const PatchAfterHttp2: seq<Route<Handler>> :=
    SuccessRoutes + RedirectRoutes + ClientErrorRoutes
    + [ServerErrorRoutes[0], ServerErrorRoutes[2], ServerErrorRoutes[3], ServerErrorRoutes[1]]
    + [CatchAll]

  /** Registration order decides `PATCH /http2`: as registered, the PATCH
      wildcard answers it; registered after `/http2`, the `/http2` handler
      would (index.js:170, index.js:180). */
  lemma RegistrationOrderMatters(v: string)
    ensures Dispatch(Routes, Request(Patch, "/http2", v)) == Some(Send(WillNotPatch))
    ensures Dispatch(PatchAfterHttp2, Request(Patch, "/http2", v)) == Some(Http2OrRefuse)
  {
    assert FirstMatchAt(Routes, Request(Patch, "/http2", v), 23);
    assert FirstMatchAt(PatchAfterHttp2, Request(Patch, "/http2", v), 24);
  }
}
