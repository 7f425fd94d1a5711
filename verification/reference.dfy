/** The application's behaviour stated without a route list: a decision
    tree over the request, with the precedence between overlapping
    registrations resolved by hand. `Properties.ServeAgreesWithReference`
    proves that the ordered table answers every request the same way. */
module Reference {
  import opened Http
  import opened Replies

  function Expected(req: Request): (r: Response) {
    if req.path == "/only-put" then
      (if req.verb == Put then NoContent else PleaseUsePut)
    else if req.verb == Patch then WillNotPatch
    else if req.path == "/http2" then
      (if req.httpVersion == "2.0" then Http2Greeting else OnlyHttp2)
    else
      match req.verb
      case Get => OnGet(req.path)
      case Post => OnPost(req.path)
      case Put => if req.path == "/update" then NoContent else NotFound
      case _ => NotFound
  }

  function OnGet(path: string): (r: Response) {
    if path == "/" then RegisterPage
    else if path == "/update" then UpdatePage
    else if path == "/bad-request" then BadRequestPage
    else if path == "/complete" then CompletePage
    else if path == "/old-registration" then OldRegisterPage
    else if path == "/old-reg-fail" then OldRegFailPage
    else if path == "/user/john-new.html" then JohnNewPage
    else if path == "/user/jane-new" then JaneNewPage
    else if path == "/thank-you-page" then ThankYou
    else if path == "/user/john" then JohnMoved
    else if path == "/user/jane" then JaneFound
    else if path == "/user" then LoginRequired
    else if path == "/super-secret" then Forbidden
    else if path == "/503" then TakingABreak
    else NotFound
  }

  function OnPost(path: string): (r: Response) {
    if path == "/register" then Registered
    else if path == "/login" then LoggedIn
    else if path == "/old-registration-fail" then RegistrationFailMoved
    else if path == "/complete-registration" then SeeThankYou
    else if path == "/old-registration" then RegistrationTemporary
    else if path == "/old-login" then LoginPermanent
    else if path == "/bad-request" then MissingCredentials
    else if path == "/500" then InternalError
    else NotFound
  }
}
