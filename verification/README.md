# HTTP status-code teaching server: the route table

The server in `index.js` registers a fixed list of 27 Express handlers that
between them demonstrate 17 HTTP status codes. Nine of the fixed handlers
send 200. A handler either serves an HTML page,
sends a constant `{message}` JSON object, sets a `location` header on a 3xx
status, or ends with an empty body. Express hands each request to the first
registration, in source order, whose verb and path both match. The final
`app.all('*')` entry answers every request nothing else claimed with 404.

This project models that table as data and proves what it does:

- `Http` holds the request and response vocabulary. A request is a verb, a
  path and a protocol version. A response is a status, an optional location
  and a body. The body is `Empty`, `File(name)` or `Message(text)`. The module
  also states how a user agent follows a redirect.
- `Routing` holds the Express-style ordered table. An entry pairs a method
  pattern (a verb, or every verb) and a path pattern (a literal, or `*`) with
  a handler. `Dispatch` implements first-match-wins; it is generic in the
  handler type.
- `Replies` holds the constant responses of `index.js`.
- `App` holds the handlers, including the two that branch at dispatch time
  (`/only-put` on the verb, `/http2` on the protocol version). It also holds
  the 27 registrations in source order, grouped by the source's own 2xx, 3xx,
  4xx and 5xx sections, followed by the catch-all. `Serve` answers a request
  from that table.
- `Reference` states the same behaviour as a hand-written decision tree with
  no route list. The precedence between overlapping registrations is resolved
  explicitly there.
- `Properties` proves, section by section, which registration answers which
  request. It then proves that `Serve` and `Reference.Expected` agree on every
  request.
- `Promises` derives the behavioural promises from those lemmas: the 404
  fallback, PATCH precedence, redirect following, verb-dependent paths, the
  position of the catch-all, and the dependence on registration order.

Where the code and its comments differ, the model follows the code. The
comment at index.js:169 calls 501 "UNAUTHORIZED", and the one at index.js:179
calls 505 "METHOD NOT ALLOWED". The handlers send 501 and 505 with the messages
modelled here. `ALL` is a registration pattern (`app.all`), not a request verb.
`/http2` is registered for every verb, but `PATCH /http2` never reaches it: the
PATCH wildcard registered before it answers with 501.

Assumptions about the HTTP library, which is not part of this model:

- A path pattern matches by exact string equality; `*` matches every path.
- `req.method == "PUT"` is a comparison of verbs.
- `req.httpVersion == "2.0"` is a comparison of the version string as the
  library reports it.

## Model

| member | source | states |
|---|---|---|
| Routing.FirstMatch | index.js:36-195 | the position returned is a matching registration with no matching registration before it, and no position is returned only when no registration matches |
| Routing.Dispatch | index.js:36-195 | a handler is returned exactly when some registration matches, and it is the handler of the first matching registration |
| Routing.CatchAllMakesTotal | index.js:193-195 | a table holding an `all('*')` entry answers every request |
| Routing.LaterEntriesCannotOverride | index.js:36-195 | registrations appended to a table that already answers a request do not change the answer |
| Routing.EntriesAfterCatchAllAreDead | index.js:191-195 | no request ever reaches a registration made after a catch-all |
| App.Serve | index.js:36-195 | every response has a status in {200, 201, 204, 301, 302, 303, 307, 308, 400, 401, 403, 404, 405, 500, 501, 503, 505}; 204 responses have an empty body; a location header is present exactly on 3xx statuses, and then the body is empty |
| App.Respond | index.js:153-186 | a fixed handler returns its reply whatever the request; the `/only-put` handler (index.js:153-160) answers 204 exactly on PUT and 405 otherwise, with no body on 204; the `/http2` handler (index.js:180-186) answers 200 exactly on protocol version "2.0" and 505 otherwise; the exact replies are pinned by `Properties.OnlyPutServed` and `Properties.Http2Served` |
| App.EveryEntryReplyIsWellFormed | index.js:36-195 | every handler of the table, on every request, builds a response of that shape |
| App.OnlyCatchAllAnswersNotFound | index.js:36-186 | no handler registered before the catch-all ever replies 404 |
| Properties.StaticPagesServed | index.js:36-59 | GET on `/`, `/update`, `/bad-request`, `/complete`, `/old-registration` and `/old-reg-fail` serves the corresponding HTML file with 200 |
| Properties.DataEndpointsServed | index.js:61-94 | GET on the John, Jane and thank-you pages gives 200 with their messages; POST `/register` and `/login` give 201 with their messages; PUT `/update` gives 204 with no body |
| Properties.GetRedirectsServed | index.js:100-114 | GET `/user/john` gives 301 to `/user/john-new.html` and GET `/user/jane` gives 302 to `/user/jane-new`, each with an empty body |
| Properties.PostRedirectsServed | index.js:105-132 | POST `/old-registration-fail` gives 301 to `/register`, `/complete-registration` 303 to `/thank-you-page`, `/old-registration` 307 to `/register` and `/old-login` 308 to `/login`, each with an empty body |
| Properties.ClientErrorsServed | index.js:138-150 | POST `/bad-request` gives 400, GET `/user` 401 and GET `/super-secret` 403, each with its message |
| Properties.ServerErrorsServed | index.js:165-177 | POST `/500` gives 500 and GET `/503` gives 503, each with its message |
| Properties.OnlyPutServed | index.js:153-160 | on `/only-put`, PUT gives 204 with no body and every other verb, PATCH included, gives 405 "Please use put" |
| Properties.PatchWildcardServed | index.js:170-172 | PATCH on any path other than `/only-put` gives 501 "I will patch no such thing" |
| Properties.Http2Served | index.js:180-186 | on `/http2`, every verb but PATCH gives 200 with the greeting when the protocol version is "2.0" and 505 "Only http2 baby" otherwise |
| Properties.FallbackServed | index.js:193-195 | a request matched by no registration before the last gets 404 "This resource was not found" |
| Properties.UnregisteredMatchesNothingEarlier | index.js:36-186 | a request the decision tree sends to 404 matches no registration before the catch-all |
| Properties.GetAgreesWithReference | index.js:36-177 | for GET away from `/only-put` and `/http2`, the table and the decision tree agree |
| Properties.PostAgreesWithReference | index.js:76-167 | for POST away from `/only-put` and `/http2`, the table and the decision tree agree |
| Properties.ServeAgreesWithReference | index.js:36-195 | the ordered table and the hand-written decision tree give the same response to every request |
| Promises.NotFoundIffUnregistered | index.js:193-195 | a request gets 404 exactly when no registration before the catch-all matches it, and then the reply is the catch-all's |
| Promises.OnGetRedirects | index.js:100-114 | the only GET paths the decision tree redirects are `/user/john` and `/user/jane` |
| Promises.OnPostRedirects | index.js:105-132 | the only POST paths the decision tree redirects are the four POST redirect routes |
| Promises.RedirectSources | index.js:100-132 | only the six redirect registrations ever answer with a 3xx status |
| Promises.RedirectsLandOnSuccess | index.js:61-132 | following any redirect leads to a 2xx answer; 307/308 lead to a POST route answering 201, 301/302/303 to a GET route answering 200; the one exception is the 301 from POST `/old-registration-fail`, which is re-issued as GET `/register` and gets 404 |
| Promises.GetRedirectsLand | index.js:61-114 | the GET redirects lead to GET routes answering 200 |
| Promises.PostRedirectsLand | index.js:76-132 | the POST redirects lead to 200 (after 303), to 201 (after 307/308), or to 404 (after the 301) |
| Promises.GetRegisterIsNotFound | index.js:104-108 | GET `/register` is answered by the catch-all with 404 |
| Promises.SamePathDependsOnVerb | index.js:41-126 | `/update` gives 200 with a file for GET and 204 with no body for PUT; `/bad-request` gives 200 for GET and 400 for POST; `/old-registration` gives 200 for GET and 307 for POST |
| Promises.CatchAllIsLast | index.js:193-195 | the last registration is the catch-all and no other registration is one |
| Promises.LaterRegistrationsAreDead | index.js:191-195 | appending registrations after the table changes no response |
| Promises.RegistrationOrderMatters | index.js:170-186 | as registered, PATCH `/http2` goes to the PATCH wildcard; with the wildcard registered after `/http2` it would go to the `/http2` handler |
| Http.RedirectVerb | index.js:104 | a user agent keeps the verb on 307 and 308, turns every verb but HEAD into GET on 303, turns POST into GET on 301 and 302, and changes the verb only to GET and only on 301, 302 or 303 |
| Http.FollowRedirect | index.js:100-132 | a follow-up request exists exactly for a 3xx response with a location; it goes to that location, on the same protocol version, with the verb `RedirectVerb` gives for the status |

## Left out

- The HTTP library's path matching is left out. This covers HEAD requests being answered by GET routes, case-insensitive and trailing-slash-tolerant matching, query-string stripping, and the regular-expression reading of `'*'`. Paths are compared by exact equality, and `*` matches every path. Express answers a HEAD request with the status and headers of the GET route for its path, and with no body. In the model a HEAD request to a path registered only for GET matches nothing before the catch-all and gets its 404 reply. So `HEAD /` gets 404, not 200, and `HEAD /user/john` gets 404, not the 301. `HEAD /only-put` gets the 405 message with its body.
- Request verbs other than GET, POST, PUT, PATCH, DELETE, HEAD and OPTIONS are left out. Such a verb can only match `app.all` entries, exactly as DELETE does here.
- `sendFile` and the HTML pages are left out. A page is the tag `File(name)` with the name relative to the project directory, and `__dirname` is dropped.
- The JSON serialisation of `send({message})` is left out. The body is `Message(text)`.
- The `bodyParser.urlencoded` middleware (index.js:22) is left out; no handler reads what it parses. It can answer a request itself before any route runs. A malformed form body gets 400, a body over its size limit gets 413, and an unsupported charset gets 415. None of these replies is modelled, and 413 and 415 are outside `App.Emittable`.
- A path with a malformed percent-escape, such as `/%zz`, is left out. Express decodes the path that each `'*'` registration captures (index.js:170, index.js:193). It tries this before checking the verb, so the decode fails for every verb. Its error handler then answers 400 with its own body, and neither handler runs.
- A failing `sendFile` (index.js:37-58) is left out. A page file may be missing, since the note at index.js:30 has the pages created later. `sendFile` then passes the error to Express's error handler, which answers 404 or 500 with its own HTML body, not the catch-all's reply. `File(name)` assumes every page exists.
- Request headers are left out; a request is only a verb, a path and a protocol version. The handlers' own `send` and `sendFile` calls read some headers. A GET or HEAD whose `If-None-Match` or `If-Modified-Since` header shows the client's copy is fresh gets 304 with no body. This applies to the JSON replies through `send`'s freshness check and to the pages through `sendFile`. A `Range` header on a page request gets 206 with part of the file, or 416 when the range cannot be satisfied.
- App.Serve: its status set and the shape of its replies hold for the route table only, and only for requests without conditional or `Range` headers. They do not cover the middleware and `sendFile` error replies above, which the HTTP library sends itself, nor the 304, 206 and 416 replies, which lie outside `App.Emittable`.
- Promises.RedirectsLandOnSuccess: the 2xx landing holds for a follow-up request without conditional headers. A user agent that re-requests a page it has cached can get 304 instead.
- Promises.NotFoundIffUnregistered: holds for the route table only, and only for paths that decode. A registered page whose file is missing can also get 404, from Express's error handler. It describes HEAD only in the model's sense above: a HEAD to a GET-only path counts as unregistered.
- Promises.RedirectSources: describes HEAD only in the model's sense above. Express would also answer `HEAD /user/john` and `HEAD /user/jane` with their redirects.
- Properties.PatchWildcardServed: holds only for paths that decode. PATCH on a path with a malformed percent-escape gets Express's 400, not 501.
- Properties.FallbackServed: holds only for paths that decode. Any request on a path with a malformed percent-escape gets Express's 400, not the catch-all's 404.
- Headers that the HTTP library adds on its own are left out: content type, content length, date and ETag. The only header modelled is `location`.
- `app.listen` on port 3000 and its console message (index.js:199-201) are left out, because they are process start-up and I/O.
- Express's own 404 for a request no registration matches is left out. The catch-all makes that case impossible, and `App.Serve` proves it. The one exception is the 400 for a path that does not decode, described above.
- Idempotence of dispatch (the same request gives the same response) is not stated as a lemma. Every member is a pure function, so it holds by construction.
