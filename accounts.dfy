/**
 * User documents and the user collection. The collection is a sequence in
 * natural (insertion) order, so `findOne` and `findById` return the first
 * document that matches; `nextId` stands for ObjectId allocation.
 */
module Accounts {
  import opened Wrappers
  import opened Tokens

  /** A stored user; `password` holds the digest, never the plaintext. */
  datatype UserRecord = UserRecord(id: UserId, name: string, email: string, password: string, role: string, createdAt: int)

  /** A user without the password: what `select('-password')` returns and what
      the login answer's `user` object holds. */
  datatype PublicUser = PublicUser(id: UserId, name: string, email: string, role: string, createdAt: int)

  /** The role a new account gets. */
  const DefaultRole := "user"

  /** The user as `.select('-password')` returns it. */
  function Profile(u: UserRecord): PublicUser {
    PublicUser(u.id, u.name, u.email, u.role, u.createdAt)
  }

  /** `User.findById(id)`: the first user with that id, or `null`. */
  function FindById(users: seq<UserRecord>, id: UserId): (r: Option<UserRecord>)
    ensures r.Some? ==> r.value in users && r.value.id == id
    ensures r.None? <==> forall i :: 0 <= i < |users| ==> users[i].id != id
    decreases |users|
  {
    if users == [] then None
    else if users[0].id == id then Some(users[0])
    else FindById(users[1..], id)
  }

  /** `User.findOne({ email })`: the first user with that email. An absent
      email is taken to find nobody, as a `null` filter value would. */
  function FindByEmail(users: seq<UserRecord>, email: Option<string>): (r: Option<UserRecord>)
    ensures r.Some? ==> r.value in users && email == Some(r.value.email)
    ensures r.None? <==> forall i :: 0 <= i < |users| ==> email != Some(users[i].email)
    decreases |users|
  {
    if users == [] then None
    else if email == Some(users[0].email) then Some(users[0])
    else FindByEmail(users[1..], email)
  }

  /** The user collection. */
  class UserStore {
    var users: seq<UserRecord>
    var nextId: nat

    /** Ids are below the allocation counter, and no two users share an id or an email. */
    ghost predicate Valid()
      reads this
    {
      && (forall i :: 0 <= i < |users| ==> users[i].id < nextId)
      && (forall i, j :: 0 <= i < j < |users| ==> users[i].id != users[j].id && users[i].email != users[j].email)
    }

    constructor ()
      ensures Valid() && users == [] && nextId == 0
    {
      users := [];
      nextId := 0;
    }
  }

  /** In a valid store, the user found by email is the only one with it. */
  lemma {:induction false} FindByEmailUnique(users: seq<UserRecord>, email: string, k: nat)
    requires forall i, j :: 0 <= i < j < |users| ==> users[i].email != users[j].email
    requires k < |users| && users[k].email == email
    ensures FindByEmail(users, Some(email)) == Some(users[k])
    decreases |users|
  {
    if k > 0 {
      FindByEmailUnique(users[1..], email, k - 1);
    }
  }

  /** In a valid store, the user found by id is the only one with it. */
  lemma {:induction false} FindByIdUnique(users: seq<UserRecord>, id: UserId, k: nat)
    requires forall i, j :: 0 <= i < j < |users| ==> users[i].id != users[j].id
    requires k < |users| && users[k].id == id
    ensures FindById(users, id) == Some(users[k])
    decreases |users|
  {
    if k > 0 {
      FindByIdUnique(users[1..], id, k - 1);
    }
  }
}
