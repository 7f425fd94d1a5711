/** The route table of index.js, registered in source order, and the
    dispatcher that answers every request from it. */
module App {
  import opened Http
  import opened Routing
  import opened Replies

  /** A response builder: a fixed reply, or one of the two handlers that
      inspect the request at dispatch time. */
  datatype Handler =
    | Send(reply: Response)
    | PutOrRefuse    // app.all('/only-put'): 204 for PUT, 405 otherwise
    | Http2OrRefuse  // app.all('/http2'): 200 on HTTP/2.0, 505 otherwise

  /** The reply a handler builds for a request: a fixed reply ignores the
      request; `/only-put` decides on the verb alone and `/http2` on the
      protocol version alone. */
  function Respond(h: Handler, req: Request): (r: Response)
    ensures h.Send? ==> r == h.reply
    ensures h.PutOrRefuse? ==> (r.status == 204 <==> req.verb == Put) && r.status in {204, 405}
    ensures h.PutOrRefuse? && r.status == 204 ==> r.body == Empty
    ensures h.Http2OrRefuse? ==> (r.status == 200 <==> req.httpVersion == "2.0") && r.status in {200, 505}
  {
    match h
    case Send(reply) => reply
    case PutOrRefuse => if req.verb == Put then NoContent else PleaseUsePut
    case Http2OrRefuse => if req.httpVersion == "2.0" then Http2Greeting else OnlyHttp2
  }

  /** 2xx registrations, index.js lines 36-94. */
  const SuccessRoutes: seq<Route<Handler>> := [
    Route(Verb(Get), Exact("/"), Send(RegisterPage)),
    Route(Verb(Get), Exact("/update"), Send(UpdatePage)),
    Route(Verb(Get), Exact("/bad-request"), Send(BadRequestPage)),
    Route(Verb(Get), Exact("/complete"), Send(CompletePage)),
    Route(Verb(Get), Exact("/old-registration"), Send(OldRegisterPage)),
    Route(Verb(Get), Exact("/old-reg-fail"), Send(OldRegFailPage)),
    Route(Verb(Get), Exact("/user/john-new.html"), Send(JohnNewPage)),
    Route(Verb(Get), Exact("/user/jane-new"), Send(JaneNewPage)),
    Route(Verb(Get), Exact("/thank-you-page"), Send(ThankYou)),
    Route(Verb(Post), Exact("/register"), Send(Registered)),
    Route(Verb(Post), Exact("/login"), Send(LoggedIn)),
    Route(Verb(Put), Exact("/update"), Send(NoContent))
  ]

  /** 3xx registrations, index.js lines 100-132. */
  const RedirectRoutes: seq<Route<Handler>> := [
    Route(Verb(Get), Exact("/user/john"), Send(JohnMoved)),
    Route(Verb(Post), Exact("/old-registration-fail"), Send(RegistrationFailMoved)),
    Route(Verb(Get), Exact("/user/jane"), Send(JaneFound)),
    Route(Verb(Post), Exact("/complete-registration"), Send(SeeThankYou)),
    Route(Verb(Post), Exact("/old-registration"), Send(RegistrationTemporary)),
    Route(Verb(Post), Exact("/old-login"), Send(LoginPermanent))
  ]

  /** 4xx registrations, index.js lines 138-160. */
  const ClientErrorRoutes: seq<Route<Handler>> := [
    Route(Verb(Post), Exact("/bad-request"), Send(MissingCredentials)),
    Route(Verb(Get), Exact("/user"), Send(LoginRequired)),
    Route(Verb(Get), Exact("/super-secret"), Send(Forbidden)),
    Route(AllMethods, Exact("/only-put"), PutOrRefuse)
  ]

  /** 5xx registrations, index.js lines 165-186. */
  const ServerErrorRoutes: seq<Route<Handler>> := [
    Route(Verb(Post), Exact("/500"), Send(InternalError)),
    Route(Verb(Patch), AnyPath, Send(WillNotPatch)),
    Route(Verb(Get), Exact("/503"), Send(TakingABreak)),
    Route(AllMethods, Exact("/http2"), Http2OrRefuse)
  ]

  /** The final registration, index.js lines 193-195. */
  const CatchAll: Route<Handler> := Route(AllMethods, AnyPath, Send(NotFound))

  /** Every registration, in the order the application makes them. */
  const Routes: seq<Route<Handler>> :=
    SuccessRoutes + RedirectRoutes + ClientErrorRoutes + ServerErrorRoutes + [CatchAll]

  /** The statuses the application can emit. */
  const Emittable: set<nat> := {200, 201, 204, 301, 302, 303, 307, 308, 400, 401, 403, 404, 405, 500, 501, 503, 505}

  /** The shape every reply has: a known status, no body on 204, a location
      header exactly on redirects, and no body alongside a location. */
  predicate WellFormed(r: Response) {
    && r.status in Emittable
    && (r.status == 204 ==> r.body == Empty)
    && (r.location.Some? <==> IsRedirect(r.status))
    && (r.location.Some? ==> r.body == Empty)
  }

  lemma EveryEntryReplyIsWellFormed(req: Request)
    ensures forall i | 0 <= i < |Routes| :: WellFormed(Respond(Routes[i].handler, req))
  {
  }

  /** No registration but the catch-all replies 404. */
  lemma OnlyCatchAllAnswersNotFound(req: Request)
    ensures forall i | 0 <= i < |Routes| - 1 :: Respond(Routes[i].handler, req).status != 404
  {
  }

  /** Answers a request: the handler of the first matching registration
      builds the response. The final `app.all('*')` entry makes this total. */
  function Serve(req: Request): (r: Response)
    ensures WellFormed(r)
  {
    CatchAllMakesTotal(Routes, |Routes| - 1, req);
    EveryEntryReplyIsWellFormed(req);
    match Dispatch(Routes, req)
    case Some(h) => Respond(h, req)
    case None => assert false; NotFound
  }
}
