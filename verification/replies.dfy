/** The fixed responses the handlers of index.js send, one per handler:
    `sendFile` becomes a `File` body, `send({message})` a `Message` body,
    `set('location', ...)` followed by an empty `send()` a redirect, and
    `end()` an empty body. */
module Replies {
  import opened Http

  // 200 OK: static pages
  const RegisterPage := Response(200, None, File("html/register.html"))
  const UpdatePage := Response(200, None, File("html/update.html"))
  const BadRequestPage := Response(200, None, File("html/bad-request.html"))
  const CompletePage := Response(200, None, File("html/complete.html"))
  const OldRegisterPage := Response(200, None, File("html/old-register.html"))
  const OldRegFailPage := Response(200, None, File("html/old-reg-fail.html"))

  // 200 OK: endpoints that return data
  const JohnNewPage := Response(200, None, Message("This is John's new page"))
  const JaneNewPage := Response(200, None, Message("This is Jane's new page"))
  const ThankYou := Response(200, None, Message("Thank you for registering"))

  // 201 Created
  const Registered := Response(201, None, Message("registration complete"))
  const LoggedIn := Response(201, None, Message("You are logged in"))

  // 204 No Content
  const NoContent := Response(204, None, Empty)

  // 3xx redirects
  const JohnMoved := Response(301, Some("/user/john-new.html"), Empty)
  const RegistrationFailMoved := Response(301, Some("/register"), Empty)
  const JaneFound := Response(302, Some("/user/jane-new"), Empty)
  const SeeThankYou := Response(303, Some("/thank-you-page"), Empty)
  const RegistrationTemporary := Response(307, Some("/register"), Empty)
  const LoginPermanent := Response(308, Some("/login"), Empty)

  // 4xx client errors
  const MissingCredentials := Response(400, None, Message("You are missing vital credentials"))
  const LoginRequired := Response(401, None, Message("You need to login to view this"))
  const Forbidden := Response(403, None, Message("You are forbidden from seeing this"))
  const NotFound := Response(404, None, Message("This resource was not found"))
  const PleaseUsePut := Response(405, None, Message("Please use put"))

  // 5xx server errors
  const InternalError := Response(500, None, Message("I failed. I'm sorry"))
  const WillNotPatch := Response(501, None, Message("I will patch no such thing"))
  const TakingABreak := Response(503, None, Message("I had to take a break. Getting too old for this"))
  const Http2Greeting := Response(200, None, Message("You get a response. She gets a response...Everybody gets a response"))
  const OnlyHttp2 := Response(505, None, Message("Only http2 baby"))
}
