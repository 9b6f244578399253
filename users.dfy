/** The user collection's two queries, over the stored documents in insertion
    order: `User.findOne({ email })` and `User.findById(id)`. */
module Users {
  import opened Data
  import opened Search

  /** The first stored user with this email, if any. */
  function FindByEmail(users: seq<User>, email: string): (found: Option<User>)
    ensures found.None? <==> forall i :: 0 <= i < |users| ==> users[i].email != email
    ensures found.Some? ==> found.value in users && found.value.email == email
  {
    Find(users, (u: User) => u.email == email)
  }

  /** The stored user with this id, if any. */
  function FindById(users: seq<User>, id: Id): (found: Option<User>)
    ensures found.None? <==> forall i :: 0 <= i < |users| ==> users[i].id != id
    ensures found.Some? ==> found.value in users && found.value.id == id
  {
    Find(users, (u: User) => u.id == id)
  }

  /** Adding a user leaves every lookup by another email as it was, and a
      lookup by its email finds it when no earlier user has that email. */
  lemma LookupAfterInsert(users: seq<User>, u: User, email: string)
    ensures FindByEmail(users + [u], email) ==
      if email == u.email && FindByEmail(users, email).None? then Some(u)
      else FindByEmail(users, email)
  {
    FindAppend(users, [u], (v: User) => v.email == email);
  }
}
