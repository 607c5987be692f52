/**
 * The auth controller (server/src/controllers/authController.js): its own,
 * looser `protect`, account registration and login.
 */
module AuthController {
  import opened Wrappers
  import opened Text
  import opened Tokens
  import opened Passwords
  import opened Accounts
  import opened Express
  import AuthMiddleware

  const AllFieldsRequired := "All fields are required"
  const UserExists := "User already exists"
  const Registered := "User registered successfully"
  const InvalidEmail := "Invalid email"
  const InvalidPassword := "Invalid password"

  // ---------------------------------------------------------------------------
  // protect

  /** `req.headers.authorization?.split(' ')[1]`, kept only when truthy: the
      second space-separated piece, whatever the first one says. */
  function HeaderToken(header: Option<string>): (t: Option<string>)
    ensures t.Some? ==> t.value != "" && ' ' !in t.value
    ensures t.Some? ==> header.Some? && ' ' in header.value && t == PieceAt(header.value, ' ', 1)
    ensures t.None? ==> header.None? || PieceAt(header.value, ' ', 1) in {None, Some("")}
  {
    if header.None? then None
    else
      match PieceAt(header.value, ' ', 1)
      case None => None
      case Some(p) =>
        if p == "" then None
        else
          JoinSplit(header.value, ' ');
          assert ' ' in Join(Split(header.value, ' '), ' ');
          Some(p)
  }

  /** Any scheme word is accepted in front of the token, not only `Bearer`. */
  lemma {:induction false} AnySchemeAccepted(scheme: string, token: string, rest: string)
    requires ' ' !in scheme && ' ' !in token && token != ""
    ensures HeaderToken(Some(scheme + [' '] + token)) == Some(token)
    ensures HeaderToken(Some(scheme + [' '] + token + [' '] + rest)) == Some(token)
  {
    SplitAfterPiece(scheme, ' ', token);
    SplitNoSeparator(token, ' ');
    SplitAfterPiece(scheme, ' ', token + [' '] + rest);
    assert scheme + [' '] + token + [' '] + rest == scheme + [' '] + (token + [' '] + rest);
    SplitAfterPiece(token, ' ', rest);
  }

  /** A header with no space carries no token. */
  lemma NoSpaceNoToken(header: string)
    requires ' ' !in header
    ensures HeaderToken(Some(header)) == None
  {
    SplitNoSeparator(header, ' ');
  }

  /** The two `protect`s disagree on a non-Bearer header. */
  lemma SchemeCheckDiffers()
    ensures AuthMiddleware.BearerToken(Some("Token abc")) == None
    ensures HeaderToken(Some("Token abc")) == Some("abc")
  {
    assert "Token abc" == "Token" + [' '] + "abc";
    AnySchemeAccepted("Token", "abc", "");
  }

  /** The decision of this `protect`: the decoded claims themselves become
      `req.user`; the user collection is not consulted. */
  function Decide(header: Option<string>, signer: Signer, now: int): (d: AuthMiddleware.Decision)
    ensures HeaderToken(header).None? <==> d == AuthMiddleware.Reject(401, AuthMiddleware.NoToken)
    ensures d == AuthMiddleware.Reject(401, AuthMiddleware.TokenFailed) <==>
      HeaderToken(header).Some? && signer.verify(HeaderToken(header).value, now).None?
    ensures d.Proceed? ==>
      && HeaderToken(header).Some? && d.user.Decoded?
      && signer.verify(HeaderToken(header).value, now) == Some(d.user.claims)
  {
    match HeaderToken(header)
    case None => AuthMiddleware.Reject(401, AuthMiddleware.NoToken)
    case Some(token) =>
      match signer.verify(token, now)
      case None => AuthMiddleware.Reject(401, AuthMiddleware.TokenFailed)
      case Some(decoded) => AuthMiddleware.Proceed(Decoded(decoded))
  }

  /** This `protect(req, res, next)`, step by step. */
  method Protect(x: Exchange, signer: Signer, now: int)
    modifies x
    ensures Decide(x.authorization, signer, now).Reject? ==>
      && x.sent == Some(Sent(401, Decide(x.authorization, signer, now).message))
      && x.user == old(x.user) && x.nextCalls == old(x.nextCalls)
    ensures Decide(x.authorization, signer, now).Proceed? ==>
      && x.user == Decide(x.authorization, signer, now).user
      && x.nextCalls == old(x.nextCalls) + 1 && x.sent == old(x.sent)
  {
    var token := HeaderToken(x.authorization);
    if token.None? {
      x.sent := Some(Sent(401, AuthMiddleware.NoToken));
      return;
    }
    var decoded := signer.verify(token.value, now);
    if decoded.None? {
      x.sent := Some(Sent(401, AuthMiddleware.TokenFailed));
      return;
    }
    x.user := Decoded(decoded.value);
    x.nextCalls := x.nextCalls + 1;
  }

  // ---------------------------------------------------------------------------
  // registerUser

  datatype RegisterBody = RegisterBody(name: Option<string>, email: Option<string>, password: Option<string>)

  predicate FieldsPresent(body: RegisterBody) {
    Truthy(body.name) && Truthy(body.email) && Truthy(body.password)
  }

  /** `registerUser`: 400 for a missing field before the store is touched, 400
      for an email already stored, otherwise one new user holding the digest
      of the password, and 201. The store stays valid (emails unique). */
  method RegisterUser(store: UserStore, body: RegisterBody, hasher: Hasher, salt: nat, now: int)
    returns (r: Reply<string>)
    requires store.Valid()
    modifies store
    ensures store.Valid()
    ensures !FieldsPresent(body) ==>
      r == Fail(400, AllFieldsRequired) && store.users == old(store.users) && store.nextId == old(store.nextId)
    ensures FieldsPresent(body) && FindByEmail(old(store.users), body.email).Some? ==>
      r == Fail(400, UserExists) && store.users == old(store.users) && store.nextId == old(store.nextId)
    ensures FieldsPresent(body) && FindByEmail(old(store.users), body.email).None? ==>
      && r == Ok(201, Registered)
      && store.users == old(store.users) + [UserRecord(old(store.nextId), body.name.value, body.email.value,
                                                       hasher.hash(body.password.value, salt), DefaultRole, now)]
      && store.nextId == old(store.nextId) + 1
  {
    if !Truthy(body.name) || !Truthy(body.email) || !Truthy(body.password) {
      return Fail(400, AllFieldsRequired);
    }
    var userExists := FindByEmail(store.users, body.email);
    if userExists.Some? {
      return Fail(400, UserExists);
    }
    var hashedPassword := hasher.hash(body.password.value, salt);
    var newUser := UserRecord(store.nextId, body.name.value, body.email.value, hashedPassword, DefaultRole, now);
    store.users := store.users + [newUser];
    store.nextId := store.nextId + 1;
    r := Ok(201, Registered);
  }

  // ---------------------------------------------------------------------------
  // loginUser

  datatype LoginBody = LoginBody(email: Option<string>, password: Option<string>)

  /** The login answer `{ token, user }`; `user` has no password field. */
  datatype Session = Session(token: string, user: PublicUser)

  /** `loginUser`: 401 for an unknown email, 500 when no password was sent
      (`bcrypt.compare` throws on `undefined`), 401 for a wrong password, and
      otherwise 200 with a one-hour token for `{ id, role }` and the user
      without password. Nothing is written. */
  method LoginUser(store: UserStore, body: LoginBody, hasher: Hasher, signer: Signer, now: int)
    returns (r: Reply<Session>)
    ensures FindByEmail(store.users, body.email).None? ==> r == Fail(401, InvalidEmail)
    ensures FindByEmail(store.users, body.email).Some? && body.password.None? ==> r == Fail(500, ServerError)
    ensures FindByEmail(store.users, body.email).Some? && body.password.Some? ==>
      var u := FindByEmail(store.users, body.email).value;
      if hasher.compare(body.password.value, u.password)
      then r == Ok(200, Session(signer.sign(Claims(u.id, u.role), now, LoginTtl), Profile(u)))
      else r == Fail(401, InvalidPassword)
  {
    var user := FindByEmail(store.users, body.email);
    if user.None? {
      return Fail(401, InvalidEmail);
    }
    if body.password.None? {
      return Fail(500, ServerError);
    }
    var isMatch := hasher.compare(body.password.value, user.value.password);
    if !isMatch {
      return Fail(401, InvalidPassword);
    }
    var token := signer.sign(Claims(user.value.id, user.value.role), now, LoginTtl);
    var userData := Profile(user.value);
    r := Ok(200, Session(token, userData));
  }
}
