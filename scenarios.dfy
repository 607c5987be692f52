/**
 * The server pieces composed: a visitor registers, signs in, and creates a
 * post with the token the login answered, through the post router.
 */
module Scenarios {
  import opened Wrappers
  import opened Tokens
  import opened Passwords
  import opened Accounts
  import opened Express
  import AuthMiddleware
  import AuthController
  import PostControllers
  import PostRoutes

  /** On an empty user collection, registration stores one account and
      login with the same credentials answers a one-hour token for it. */
  method RegisterThenLogin(name: string, email: string, password: string, hasher: Hasher, salt: nat,
                           signer: Signer, now: int)
    returns (users: UserStore, registered: Reply<string>, session: Reply<AuthController.Session>)
    requires Passwords.Sound(hasher)
    requires name != "" && email != "" && password != ""
    ensures fresh(users)
    ensures users.users == [UserRecord(0, name, email, hasher.hash(password, salt), DefaultRole, now)]
    ensures registered == Ok(201, AuthController.Registered)
    ensures session == Ok(200, AuthController.Session(signer.sign(Claims(0, DefaultRole), now, LoginTtl),
                                                      PublicUser(0, name, email, DefaultRole, now)))
  {
    users := new UserStore();
    registered := AuthController.RegisterUser(users, AuthController.RegisterBody(Some(name), Some(email), Some(password)),
                                              hasher, salt, now);
    FindByEmailUnique(users.users, email, 0);
    session := AuthController.LoginUser(users, AuthController.LoginBody(Some(email), Some(password)), hasher, signer, now);
  }

  /** Registration, login, then `POST /` with the login's token: `protect`
      lets the request through with the new account, and the post it creates
      is authored by that account. */
  method RegisterLoginCreate(name: string, email: string, password: string, hasher: Hasher, salt: nat,
                             signer: Signer, now: int, title: string, content: string)
    returns (gate: PostRoutes.Outcome, created: Reply<PostControllers.PostRecord>)
    requires Passwords.Sound(hasher) && Tokens.Sound(signer)
    requires name != "" && email != "" && password != ""
    ensures gate == PostRoutes.Runs(PostRoutes.CreatePost, Loaded(PublicUser(0, name, email, DefaultRole, now)), None)
    ensures created.Ok? && created.status == 201
    ensures created.data.author == 0 && created.data.title == title && created.data.content == content
  {
    var users, registered, session := RegisterThenLogin(name, email, password, hasher, salt, signer, now);
    var header := Some(AuthMiddleware.Scheme + session.data.token);
    AuthMiddleware.ValidTokenLoadsUser(signer, users.users, 0, now, now);
    PostRoutes.RootRoutes();
    gate := PostRoutes.Gate(PostRoutes.POST, "/", header, signer, users.users, now);
    var posts := new PostControllers.PostStore();
    created := PostControllers.CreatePost(posts, PostControllers.CreateBody(Some(title), Some(content), None, PostControllers.NoTags, None),
                                          None, gate.user);
  }

  /** After registration, a password that does not match the stored digest
      is refused with 401. */
  method WrongPasswordRefused(name: string, email: string, password: string, other: string, hasher: Hasher,
                              salt: nat, signer: Signer, now: int)
    returns (session: Reply<AuthController.Session>)
    requires name != "" && email != "" && password != ""
    requires !hasher.compare(other, hasher.hash(password, salt))
    ensures session == Fail(401, AuthController.InvalidPassword)
  {
    var users := new UserStore();
    var registered := AuthController.RegisterUser(users, AuthController.RegisterBody(Some(name), Some(email), Some(password)),
                                                  hasher, salt, now);
    FindByEmailUnique(users.users, email, 0);
    session := AuthController.LoginUser(users, AuthController.LoginBody(Some(email), Some(other)), hasher, signer, now);
  }

  /** Registering the same email twice is refused the second time and adds
      no second account. */
  method DuplicateRegistrationRefused(name: string, email: string, password: string, hasher: Hasher,
                                      salt: nat, now: int)
    returns (second: Reply<string>, accounts: nat)
    requires name != "" && email != "" && password != ""
    ensures second == Fail(400, AuthController.UserExists)
    ensures accounts == 1
  {
    var users := new UserStore();
    var first := AuthController.RegisterUser(users, AuthController.RegisterBody(Some(name), Some(email), Some(password)),
                                             hasher, salt, now);
    FindByEmailUnique(users.users, email, 0);
    second := AuthController.RegisterUser(users, AuthController.RegisterBody(Some(name), Some(email), Some(password)),
                                          hasher, salt, now);
    accounts := |users.users|;
  }
}
