/**
 * The `protect` middleware that the post routes use, and the `authorize`
 * role guard (server/src/middleware/authMiddleware.js).
 */
module AuthMiddleware {
  import opened Wrappers
  import opened Text
  import opened Tokens
  import opened Accounts
  import opened Express

  const NoToken := "Not authorized, no token"
  const TokenFailed := "Not authorized, token failed"
  const NotPermitted := "Not authorized to access this resource"

  /** What a middleware does with a request: call `next()` with `req.user`
      set as given, or answer with an error and stop. */
  datatype Decision = Proceed(user: ReqUser) | Reject(status: nat, message: string)

  const Scheme := "Bearer "

  /** The token `protect` verifies: present only for a `"Bearer "` header, and
      then the text after that prefix up to the next space (the second piece
      of `auth.split(' ')`). */
  function BearerToken(header: Option<string>): (t: Option<string>)
    ensures t.Some? <==> header.Some? && StartsWith(header.value, Scheme)
    ensures t.Some? ==> ' ' !in t.value && StartsWith(header.value, Scheme + t.value)
    ensures t.Some? ==> |header.value| == |Scheme| + |t.value| || header.value[|Scheme| + |t.value|] == ' '
    ensures t.Some? ==> t == PieceAt(header.value, ' ', 1)
  {
    if header.None? || !StartsWith(header.value, Scheme) then None
    else
      var h := header.value;
      var rest := h[|Scheme|..];
      assert h == "Bearer" + [' '] + rest;
      SplitAfterPiece("Bearer", ' ', rest);
      SplitFirstPiece(rest, ' ');
      var t := Split(h, ' ')[1];
      assert t == Split(rest, ' ')[0];
      assert h[..|Scheme| + |t|] == Scheme + t;
      Some(t)
  }

  /** A well-formed bearer header yields exactly its token. */
  lemma BearerTokenOf(token: string)
    requires ' ' !in token
    ensures BearerToken(Some(Scheme + token)) == Some(token)
  {
    var h := Scheme + token;
    assert StartsWith(h, Scheme);
    var t := BearerToken(Some(h)).value;
    assert forall i :: 0 <= i < |token| ==> h[|Scheme| + i] == token[i] && token[i] != ' ';
    assert |t| == |token|;
    assert h[..|Scheme| + |t|] == h;
    assert t == (Scheme + t)[|Scheme|..] == h[|Scheme|..] == token;
  }

  /** The decision of `protect` for a request with this Authorization header,
      with `users` the user collection and `now` the verifier's clock. */
  function Decide(header: Option<string>, signer: Signer, users: seq<UserRecord>, now: int): (d: Decision)
    ensures header.None? || !StartsWith(header.value, Scheme) ==> d == Reject(401, NoToken)
    ensures d.Reject? ==> d.status == 401 && (d.message == NoToken || d.message == TokenFailed)
    ensures d == Reject(401, TokenFailed) <==>
      BearerToken(header).Some? && signer.verify(BearerToken(header).value, now).None?
    ensures d.Proceed? <==>
      BearerToken(header).Some? && signer.verify(BearerToken(header).value, now).Some?
    ensures d.Proceed? ==>
      var found := FindById(users, signer.verify(BearerToken(header).value, now).value.id);
      d.user == if found.Some? then Loaded(Profile(found.value)) else NullUser
  {
    match BearerToken(header)
    case None => Reject(401, NoToken)
    case Some(token) =>
      match signer.verify(token, now)
      case None => Reject(401, TokenFailed)
      case Some(decoded) =>
        var found := FindById(users, decoded.id);
        Proceed(if found.Some? then Loaded(Profile(found.value)) else NullUser)
  }

  /** `protect(req, res, next)`: answers 401 and leaves `req.user` and `next`
      alone, or sets `req.user` and calls `next()` exactly once. */
  method Protect(x: Exchange, signer: Signer, store: UserStore, now: int)
    modifies x
    ensures Decide(x.authorization, signer, store.users, now).Reject? ==>
      && x.sent == Some(Sent(401, Decide(x.authorization, signer, store.users, now).message))
      && x.user == old(x.user) && x.nextCalls == old(x.nextCalls)
    ensures Decide(x.authorization, signer, store.users, now).Proceed? ==>
      && x.user == Decide(x.authorization, signer, store.users, now).user
      && x.nextCalls == old(x.nextCalls) + 1 && x.sent == old(x.sent)
  {
    var auth := x.authorization;
    if auth.None? || !StartsWith(auth.value, Scheme) {
      x.sent := Some(Sent(401, NoToken));
      return;
    }
    var token := BearerToken(auth).value;
    var decoded := signer.verify(token, now);
    if decoded.None? {
      x.sent := Some(Sent(401, TokenFailed));
      return;
    }
    var found := FindById(store.users, decoded.value.id);
    x.user := if found.Some? then Loaded(Profile(found.value)) else NullUser;
    x.nextCalls := x.nextCalls + 1;
  }

  /** A token minted for a user who is still stored, used before it expires,
      gets that user (without password) into `req.user`. */
  lemma ValidTokenLoadsUser(signer: Signer, users: seq<UserRecord>, k: nat, iat: int, now: int)
    requires Sound(signer)
    requires forall i, j :: 0 <= i < j < |users| ==> users[i].id != users[j].id
    requires k < |users| && iat <= now < iat + LoginTtl
    ensures var token := signer.sign(Claims(users[k].id, users[k].role), iat, LoginTtl);
      Decide(Some(Scheme + token), signer, users, now) == Proceed(Loaded(Profile(users[k])))
  {
    var token := signer.sign(Claims(users[k].id, users[k].role), iat, LoginTtl);
    BearerTokenOf(token);
    FindByIdUnique(users, users[k].id, k);
  }

  /** The same token after it has expired is refused. */
  lemma ExpiredTokenRejected(signer: Signer, users: seq<UserRecord>, c: Claims, iat: int, now: int)
    requires Sound(signer) && now >= iat + LoginTtl
    ensures Decide(Some(Scheme + signer.sign(c, iat, LoginTtl)), signer, users, now) == Reject(401, TokenFailed)
  {
    BearerTokenOf(signer.sign(c, iat, LoginTtl));
  }

  /** A header that is exactly the scheme carries an empty token, which the
      verifier refuses. */
  lemma EmptyBearerTokenFails(signer: Signer, users: seq<UserRecord>, now: int)
    requires Sound(signer)
    ensures Decide(Some(Scheme), signer, users, now) == Reject(401, TokenFailed)
  {
    BearerTokenOf("");
    assert Scheme + "" == Scheme;
  }

  /** `protect` does not answer 401 when the token's user is gone: it sets
      `req.user` to `null` and calls `next()`. */
  lemma MissingUserStillProceeds(signer: Signer, users: seq<UserRecord>, c: Claims, iat: int, now: int)
    requires Sound(signer) && iat <= now < iat + LoginTtl
    requires forall i :: 0 <= i < |users| ==> users[i].id != c.id
    ensures Decide(Some(Scheme + signer.sign(c, iat, LoginTtl)), signer, users, now) == Proceed(NullUser)
  {
    BearerTokenOf(signer.sign(c, iat, LoginTtl));
  }

  /** `authorize(...roles)`: `next()` exactly when there is a user whose role
      is among `roles`; otherwise 403. */
  function Authorize(roles: seq<string>, user: ReqUser): (d: Decision)
    ensures d.Proceed? <==> RoleOf(user).Some? && RoleOf(user).value in roles
    ensures d.Proceed? ==> d.user == user
    ensures d.Reject? ==> d == Reject(403, NotPermitted)
    ensures user.Unset? || user.NullUser? ==> d == Reject(403, NotPermitted)
  {
    match RoleOf(user)
    case None => Reject(403, NotPermitted)
    case Some(role) => if role in roles then Proceed(user) else Reject(403, NotPermitted)
  }
}
