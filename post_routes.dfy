/**
 * The post router (server/src/routes/postRoutes.js), mounted at `/api/posts`:
 * an ordered table of (verb, path pattern, whether `protect` runs first,
 * handler), dispatched to the first route that matches. Paths are those seen
 * by the router, after the mount point.
 */
module PostRoutes {
  import opened Wrappers
  import opened Text
  import opened Tokens
  import opened Accounts
  import opened Express
  import AuthMiddleware
  import PostControllers

  datatype Verb = GET | POST | PUT | DELETE

  /** `/`, a fixed one-segment path such as `/user`, or `/:id`. */
  datatype Pattern = Root | Literal(segment: string) | Param

  datatype Handler = CreatePost | GetAllPostsForUser | GetAllPosts | GetPostById | UpdatePost | DeletePost

  datatype Route = Route(verb: Verb, pattern: Pattern, guarded: bool, handler: Handler)

  /** The routes in registration order; `guarded` marks those behind `protect`. */
  const Table: seq<Route> := [
    Route(POST, Root, true, CreatePost),
    Route(GET, Literal("user"), false, GetAllPostsForUser),
    Route(GET, Root, false, GetAllPosts),
    Route(GET, Param, true, GetPostById),
    Route(PUT, Param, true, UpdatePost),
    Route(DELETE, Param, true, DeletePost)
  ]

  /** The one segment of a path `/t` or `/t/` (the router is not strict about
      a trailing slash); a parameter is non-empty and holds no slash. */
  function SegmentOf(path: string): (r: Option<string>)
    ensures r.Some? ==> r.value != "" && '/' !in r.value
    ensures r.Some? ==> path == "/" + r.value || path == "/" + r.value + "/"
  {
    if |path| < 2 || path[0] != '/' then None
    else
      var body := if path[|path| - 1] == '/' then path[1..|path| - 1] else path[1..];
      if body == "" || '/' in body then None
      else
        assert path == "/" + body || path == "/" + body + "/";
        Some(body)
  }

  /** Every well-formed segment is found again, with or without the slash. */
  lemma SegmentOfSpec(t: string)
    requires t != "" && '/' !in t
    ensures SegmentOf("/" + t) == Some(t)
    ensures SegmentOf("/" + t + "/") == Some(t)
  {
    assert ("/" + t)[1..] == t;
    assert ("/" + t + "/")[1..|t| + 1] == t;
    assert ("/" + t)[|t|] == t[|t| - 1];
  }

  /** Literal segments are compared without regard to case, as the router does
      by default. */
  predicate PatternMatches(p: Pattern, path: string) {
    match p
    case Root => path == "/"
    case Literal(s) => SegmentOf(path).Some? && Lower(SegmentOf(path).value) == s
    case Param => SegmentOf(path).Some?
  }

  predicate Matches(r: Route, verb: Verb, path: string) {
    r.verb == verb && PatternMatches(r.pattern, path)
  }

  /** The first route of `table` that matches, as the router picks it. */
  function FirstMatch(table: seq<Route>, verb: Verb, path: string): (r: Option<nat>)
    ensures r.Some? ==> r.value < |table| && Matches(table[r.value], verb, path)
    ensures r.Some? ==> forall j :: 0 <= j < r.value ==> !Matches(table[j], verb, path)
    ensures r.None? <==> forall j :: 0 <= j < |table| ==> !Matches(table[j], verb, path)
    decreases |table|
  {
    if table == [] then None
    else if Matches(table[0], verb, path) then Some(0)
    else
      match FirstMatch(table[1..], verb, path)
      case None => None
      case Some(k) => Some(k + 1)
  }

  /** The route that serves a request, if any. */
  function Resolve(verb: Verb, path: string): Option<Route> {
    match FirstMatch(Table, verb, path)
    case None => None
    case Some(i) => Some(Table[i])
  }

  /** What the router does with a request before the handler runs. */
  datatype Outcome =
    | NoRoute
    | Halted(status: nat, message: string)
    | Runs(handler: Handler, user: ReqUser, param: Option<string>)

  /** A request: its route, then `protect` if that route is guarded, then the
      handler with whatever `req.user` `protect` set (none for an open route). */
  function Gate(verb: Verb, path: string, header: Option<string>, signer: Signer,
                users: seq<UserRecord>, now: int): (g: Outcome)
    ensures g.NoRoute? <==> Resolve(verb, path).None?
    ensures Resolve(verb, path).Some? && !Resolve(verb, path).value.guarded ==>
      g == Runs(Resolve(verb, path).value.handler, Unset, SegmentOf(path))
    ensures Resolve(verb, path).Some? && Resolve(verb, path).value.guarded ==>
      var d := AuthMiddleware.Decide(header, signer, users, now);
      g == if d.Reject? then Halted(d.status, d.message)
           else Runs(Resolve(verb, path).value.handler, d.user, SegmentOf(path))
    ensures g.Halted? ==> g.status == 401
  {
    match Resolve(verb, path)
    case None => NoRoute
    case Some(route) =>
      if !route.guarded then Runs(route.handler, Unset, SegmentOf(path))
      else
        match AuthMiddleware.Decide(header, signer, users, now)
        case Reject(status, message) => Halted(status, message)
        case Proceed(user) => Runs(route.handler, user, SegmentOf(path))
  }

  /** The first match is the route at `i` when it matches and nothing
      before it does. */
  lemma FirstMatchIs(verb: Verb, path: string, i: nat)
    requires i < |Table| && Matches(Table[i], verb, path)
    requires forall j :: 0 <= j < i ==> !Matches(Table[j], verb, path)
    ensures Resolve(verb, path) == Some(Table[i])
  {
    var m := FirstMatch(Table, verb, path);
    assert m.Some?;
    assert !(m.value < i) && !(m.value > i);
  }

  /** Which route serves `/`: `POST` is behind `protect`, `GET` is open, and
      `PUT` and `DELETE` have no route. */
  lemma RootRoutes()
    ensures Resolve(POST, "/") == Some(Route(POST, Root, true, CreatePost))
    ensures Resolve(GET, "/") == Some(Route(GET, Root, false, GetAllPosts))
    ensures Resolve(PUT, "/") == None && Resolve(DELETE, "/") == None
  {
    assert SegmentOf("/") == None;
    FirstMatchIs(POST, "/", 0);
    FirstMatchIs(GET, "/", 2);
  }

  /** Which route serves `/t`: `GET /user` (in any case) is open, and every
      other `GET`, and every `PUT` and `DELETE`, goes through `protect`. */
  lemma SegmentRoutes(t: string)
    requires t != "" && '/' !in t
    ensures Lower(t) == "user" ==> Resolve(GET, "/" + t) == Some(Route(GET, Literal("user"), false, GetAllPostsForUser))
    ensures Lower(t) != "user" ==> Resolve(GET, "/" + t) == Some(Route(GET, Param, true, GetPostById))
    ensures Resolve(PUT, "/" + t) == Some(Route(PUT, Param, true, UpdatePost))
    ensures Resolve(DELETE, "/" + t) == Some(Route(DELETE, Param, true, DeletePost))
  {
    var path := "/" + t;
    SegmentOfSpec(t);
    assert path != "/";
    if Lower(t) == "user" {
      FirstMatchIs(GET, path, 1);
    } else {
      FirstMatchIs(GET, path, 3);
    }
    FirstMatchIs(PUT, path, 4);
    FirstMatchIs(DELETE, path, 5);
  }

  /** `/user` is registered before `/:id`, so a GET that reaches
      `getPostById` never carries `user` (in any case) as its id. */
  lemma UserShadowsId(path: string)
    requires Resolve(GET, path).Some? && Resolve(GET, path).value.handler == GetPostById
    ensures SegmentOf(path).Some? && Lower(SegmentOf(path).value) != "user"
  {
    var i := FirstMatch(Table, GET, path).value;
    assert i == 3;
    assert !Matches(Table[1], GET, path);
  }

  /** Without a token, or with one the verifier refuses, every guarded route
      answers 401 and its handler does not run. */
  lemma GuardedRoutesNeedToken(verb: Verb, path: string, header: Option<string>, signer: Signer,
                               users: seq<UserRecord>, now: int)
    requires Resolve(verb, path).Some? && Resolve(verb, path).value.guarded
    ensures AuthMiddleware.BearerToken(header).None? ==>
      Gate(verb, path, header, signer, users, now) == Halted(401, AuthMiddleware.NoToken)
    ensures AuthMiddleware.BearerToken(header).Some? &&
            signer.verify(AuthMiddleware.BearerToken(header).value, now).None? ==>
      Gate(verb, path, header, signer, users, now) == Halted(401, AuthMiddleware.TokenFailed)
  {
  }

  /** Unauthenticated update and delete are refused with 401, as is a bearer
      header carrying a token the verifier does not accept. */
  lemma UnauthenticatedChangesRefused(t: string, junk: string, signer: Signer, users: seq<UserRecord>, now: int)
    requires t != "" && '/' !in t && ' ' !in junk && signer.verify(junk, now).None?
    ensures Gate(PUT, "/" + t, None, signer, users, now) == Halted(401, AuthMiddleware.NoToken)
    ensures Gate(DELETE, "/" + t, None, signer, users, now) == Halted(401, AuthMiddleware.NoToken)
    ensures Gate(PUT, "/" + t, Some(AuthMiddleware.Scheme + junk), signer, users, now) ==
            Halted(401, AuthMiddleware.TokenFailed)
    ensures Gate(DELETE, "/" + t, Some(AuthMiddleware.Scheme + junk), signer, users, now) ==
            Halted(401, AuthMiddleware.TokenFailed)
  {
    SegmentRoutes(t);
    AuthMiddleware.BearerTokenOf(junk);
  }

  /** `GET /user` runs its handler with no `req.user`, so it always answers
      500, signed in or not. */
  lemma UserPostsAlwaysFail(t: string, header: Option<string>, signer: Signer, users: seq<UserRecord>, now: int,
                            posts: seq<PostControllers.PostRecord>, stripsUnknownPaths: bool)
    requires t != "" && '/' !in t && Lower(t) == "user"
    ensures Gate(GET, "/" + t, header, signer, users, now) == Runs(GetAllPostsForUser, Unset, Some(t))
    ensures PostControllers.GetAllPostsForUser(posts, Unset, stripsUnknownPaths) == Fail(500, ServerError)
  {
    SegmentRoutes(t);
    SegmentOfSpec(t);
  }

  /** Nothing between the request and `updatePost` or `deletePost` looks at
      who wrote the post: any stored user with a live token gets through, and
      the handlers take no user at all. */
  lemma AnyUserReachesChanges(t: string, signer: Signer, users: seq<UserRecord>, k: nat, iat: int, now: int)
    requires Sound(signer) && t != "" && '/' !in t
    requires forall i, j :: 0 <= i < j < |users| ==> users[i].id != users[j].id
    requires k < |users| && iat <= now < iat + LoginTtl
    ensures var header := Some(AuthMiddleware.Scheme + signer.sign(Claims(users[k].id, users[k].role), iat, LoginTtl));
      && Gate(PUT, "/" + t, header, signer, users, now) == Runs(UpdatePost, Loaded(Profile(users[k])), Some(t))
      && Gate(DELETE, "/" + t, header, signer, users, now) == Runs(DeletePost, Loaded(Profile(users[k])), Some(t))
  {
    SegmentRoutes(t);
    SegmentOfSpec(t);
    AuthMiddleware.ValidTokenLoadsUser(signer, users, k, iat, now);
  }
}
