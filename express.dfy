/**
 * The parts of an Express request/response pair that the middleware and the
 * controllers read and write.
 */
module Express {
  import opened Wrappers
  import opened Tokens
  import opened Accounts

  /** What `req.user` holds: never set, `null` (the lookup found no user), a
      user document without its password, or the decoded token claims. */
  datatype ReqUser = Unset | NullUser | Loaded(profile: PublicUser) | Decoded(claims: Claims)

  /** `req.user.id`, or `None` where reading it throws a TypeError. */
  function UserIdOf(u: ReqUser): Option<UserId> {
    match u
    case Unset => None
    case NullUser => None
    case Loaded(p) => Some(p.id)
    case Decoded(c) => Some(c.id)
  }

  /** `req.user.role`, or `None` where `!req.user` holds. */
  function RoleOf(u: ReqUser): Option<string> {
    match u
    case Unset => None
    case NullUser => None
    case Loaded(p) => Some(p.role)
    case Decoded(c) => Some(c.role)
  }

  /** A handler's answer: a success status with its payload, or an error
      status with the `message` of the JSON body. */
  datatype Reply<T> = Ok(status: nat, data: T) | Fail(status: nat, message: string)

  /** `res.status(status).json({ message })` as sent by a middleware. */
  datatype Sent = Sent(status: nat, message: string)

  /** The message of every caught server-side exception. */
  const ServerError := "Server error"

  /** One request travelling through the middleware chain. */
  class Exchange {
    /** `req.headers.authorization`. */
    const authorization: Option<string>
    /** `req.user`. */
    var user: ReqUser
    /** How many times `next()` has been called. */
    var nextCalls: nat
    /** What has been written to `res`, if anything. */
    var sent: Option<Sent>

    constructor (authorization: Option<string>)
      ensures this.authorization == authorization
      ensures user == Unset && nextCalls == 0 && sent == None
    {
      this.authorization := authorization;
      user := Unset;
      nextCalls := 0;
      sent := None;
    }
  }
}
