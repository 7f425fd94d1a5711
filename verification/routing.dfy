/** An ordered route table in the manner of Express's `app.get/post/put/
    patch/all(path, handler)` registrations: every entry pairs a method
    pattern and a path pattern with a handler, and a request is handed to
    the FIRST entry, in registration order, whose two patterns both match.

    Path matching is exact string equality, or `*` matching every path. */
module Routing {
  import opened Http

  /** A specific verb (`app.get`, `app.post`, ...) or every verb (`app.all`). */
  datatype MethodPattern = Verb(verb: Method) | AllMethods

  /** A literal path, or the wildcard `'*'`. */
  datatype PathPattern = Exact(path: string) | AnyPath

  datatype Route<H> = Route(methods: MethodPattern, path: PathPattern, handler: H)

  predicate MethodMatches(p: MethodPattern, m: Method) {
    match p
    case AllMethods => true
    case Verb(v) => v == m
  }

  predicate PathMatches(p: PathPattern, path: string) {
    match p
    case AnyPath => true
    case Exact(s) => s == path
  }

  predicate Matches<H>(r: Route<H>, req: Request) {
    MethodMatches(r.methods, req.verb) && PathMatches(r.path, req.path)
  }

  /** An `app.all('*', ...)` entry: it matches every request. */
  predicate IsCatchAll<H>(r: Route<H>) {
    r.methods.AllMethods? && r.path.AnyPath?
  }

  /** Entry `i` is the one a request is handed to: it matches, and no entry
      registered before it does. */
  predicate FirstMatchAt<H>(table: seq<Route<H>>, req: Request, i: int) {
    && 0 <= i < |table|
    && Matches(table[i], req)
    && forall j | 0 <= j < i :: !Matches(table[j], req)
  }

  /** The position of the entry a request is handed to, if any. */
  function FirstMatch<H>(table: seq<Route<H>>, req: Request): (r: Option<nat>)
    ensures r.Some? ==> FirstMatchAt(table, req, r.value)
    ensures r.None? ==> forall i | 0 <= i < |table| :: !Matches(table[i], req)
    decreases |table|
  {
    if |table| == 0 then None
    else if Matches(table[0], req) then Some(0)
    else
      match FirstMatch(table[1..], req)
      case None => None
      case Some(i) => Some(i + 1)
  }

  /** The handler of the first matching entry; `None` when no entry matches. */
  function Dispatch<H>(table: seq<Route<H>>, req: Request): (r: Option<H>)
    ensures r.Some? <==> exists i | 0 <= i < |table| :: Matches(table[i], req)
    ensures forall i | FirstMatchAt(table, req, i) :: r == Some(table[i].handler)
  {
    match FirstMatch(table, req)
    case None => None
    case Some(i) => Some(table[i].handler)
  }

  /** A catch-all entry anywhere in the table makes dispatch total. */
  lemma CatchAllMakesTotal<H>(table: seq<Route<H>>, k: nat, req: Request)
    requires k < |table| && IsCatchAll(table[k])
    ensures Dispatch(table, req).Some?
  {
  }

  /** Registering further entries after a table that already handles a
      request leaves the handling of that request unchanged. */
  lemma LaterEntriesCannotOverride<H>(table: seq<Route<H>>, extra: seq<Route<H>>, req: Request)
    requires Dispatch(table, req).Some?
    ensures Dispatch(table + extra, req) == Dispatch(table, req)
  {
    var i := FirstMatch(table, req).value;
    assert FirstMatchAt(table, req, i);
    forall j | 0 <= j <= i
      ensures (table + extra)[j] == table[j]
    {
    }
    assert FirstMatchAt(table + extra, req, i);
  }

  /** Hence every entry registered after a catch-all is dead: no request
      ever reaches it. */
  lemma EntriesAfterCatchAllAreDead<H>(table: seq<Route<H>>, k: nat, extra: seq<Route<H>>, req: Request)
    requires k < |table| && IsCatchAll(table[k])
    ensures Dispatch(table + extra, req) == Dispatch(table, req)
    ensures forall i | |table| <= i < |table + extra| :: !FirstMatchAt(table + extra, req, i)
  {
    CatchAllMakesTotal(table, k, req);
    LaterEntriesCannotOverride(table, extra, req);
    assert (table + extra)[k] == table[k];
    assert Matches((table + extra)[k], req);
  }
}
