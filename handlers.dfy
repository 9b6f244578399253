/** The register, login and profile handlers over one shared user collection.
    Each request is handled atomically. */
module Handlers {
  import opened Data
  import opened Crypto
  import opened Validation
  import opened Bearer
  import opened Users

  /** The `User` collection: stored documents in insertion order, and the
      next identifier to hand out. */
  class UserCollection {
    var users: seq<User>
    var nextId: Id

    /** Every id was handed out before, names and emails are non-empty, and
        no two users share an id or an email. */
    ghost predicate Valid()
      reads this
    {
      && (forall i :: 0 <= i < |users| ==>
            users[i].id < nextId && users[i].name != "" && users[i].email != "")
      && (forall i, j :: 0 <= i < j < |users| ==>
            users[i].id != users[j].id && users[i].email != users[j].email)
    }

    constructor ()
      ensures Valid() && users == [] && nextId == 0
    {
      users := [];
      nextId := 0;
    }

    /** `POST /auth/register`. `salt` is what the salt generator produced and
        `saveSucceeds` whether `user.save()` resolved. */
    method Register(b: Body, salt: string, hash: Hasher, saveSucceeds: bool) returns (reply: Reply)
      requires Valid()
      modifies this
      ensures Valid()
      ensures ValidateRegister(b).Some? ==>
        && reply == Reply(422, Msg(FailureMessage(ValidateRegister(b).value)))
        && users == old(users) && nextId == old(nextId)
      ensures ValidateRegister(b).None? && FindByEmail(old(users), b.email.value).Some? ==>
        && reply == Reply(422, Msg(EmailTaken))
        && users == old(users) && nextId == old(nextId)
      ensures ValidateRegister(b).None? && FindByEmail(old(users), b.email.value).None? ==>
        && nextId == old(nextId) + 1
        && (saveSucceeds ==>
              && reply == Reply(201, Msg(UserCreated))
              && users == old(users) +
                 [User(old(nextId), b.name.value, b.email.value, hash(b.password.value, salt))])
        && (!saveSucceeds ==> reply == Reply(500, Msg(ServerError)) && users == old(users))
    {
      var failed := ValidateRegister(b);
      if failed.Some? {
        return Reply(422, Msg(FailureMessage(failed.value)));
      }
      var email := b.email.value;
      if FindByEmail(users, email).Some? {
        return Reply(422, Msg(EmailTaken));
      }
      var passwordHash := hash(b.password.value, salt);
      var user := User(nextId, b.name.value, email, passwordHash);
      nextId := nextId + 1;
      if saveSucceeds {
        users := users + [user];
        reply := Reply(201, Msg(UserCreated));
      } else {
        reply := Reply(500, Msg(ServerError));
      }
    }

    /** `POST /auth/login`. */
    method Login(b: Body, compare: Comparer, sign: Signer, secret: Option<string>) returns (reply: Reply)
      ensures ValidateLogin(b).Some? ==>
        reply == Reply(422, Msg(FailureMessage(ValidateLogin(b).value)))
      ensures ValidateLogin(b).None? && FindByEmail(users, b.email.value).None? ==>
        reply == Reply(404, Msg(UserNotFound))
      ensures ValidateLogin(b).None? && FindByEmail(users, b.email.value).Some? ==>
        var u := FindByEmail(users, b.email.value).value;
        reply ==
          if !compare(b.password.value, u.password) then Reply(422, Msg(WrongPassword))
          else if sign(Claims(u.id), secret).None? then Reply(500, Msg(ServerError))
          else Reply(200, MsgToken(Authenticated, sign(Claims(u.id), secret).value))
      ensures reply.payload.MsgToken? ==>
        && reply.status == 200
        && exists u :: u in users && b.email == Some(u.email) && b.password.Some? &&
             compare(b.password.value, u.password) && sign(Claims(u.id), secret) == Some(reply.payload.token)
    {
      var failed := ValidateLogin(b);
      if failed.Some? {
        return Reply(422, Msg(FailureMessage(failed.value)));
      }
      var found := FindByEmail(users, b.email.value);
      if found.None? {
        return Reply(404, Msg(UserNotFound));
      }
      var user := found.value;
      if !compare(b.password.value, user.password) {
        return Reply(422, Msg(WrongPassword));
      }
      var token := sign(Claims(user.id), secret);
      if token.None? {
        reply := Reply(500, Msg(ServerError));
      } else {
        reply := Reply(200, MsgToken(Authenticated, token.value));
      }
    }

    /** `GET /user/:id` behind `checkToken`. The id from the path is not compared
        with the token's subject. */
    method FetchUser(header: Option<string>, secret: Option<string>, verify: Verifier, id: Id)
      returns (reply: Reply)
      ensures CheckToken(header, secret, verify).Deny? ==>
        var g := CheckToken(header, secret, verify); reply == Reply(g.status, Msg(g.msg))
      ensures CheckToken(header, secret, verify).Next? ==>
        reply == match FindById(users, id)
                 case None => Reply(404, Msg(UserNotFound))
                 case Some(u) => Reply(200, UserRecord(WithoutPassword(u)))
      ensures reply.payload.UserRecord? ==>
        && reply.status == 200
        && exists u :: u in users && u.id == id && reply.payload.user == WithoutPassword(u)
    {
      var gate := CheckToken(header, secret, verify);
      if gate.Deny? {
        return Reply(gate.status, Msg(gate.msg));
      }
      var found := FindById(users, id);
      if found.None? {
        return Reply(404, Msg(UserNotFound));
      }
      reply := Reply(200, UserRecord(WithoutPassword(found.value)));
    }
  }

  /** A new user registers, logs in with the same credentials and fetches their
      own profile with the issued token, assuming the hasher and signer agree
      with their checkers. */
  method RegisterLoginFetch(c: UserCollection, name: string, email: string, password: string,
                            salt: string, hash: Hasher, compare: Comparer,
                            sign: Signer, verify: Verifier, secret: Option<string>)
    returns (registered: Reply, loggedIn: Reply, fetched: Reply)
    requires c.Valid()
    requires name != "" && email != "" && password != ""
    requires FindByEmail(c.users, email).None?
    requires CompareAcceptsHash(hash, compare)
    requires VerifyAcceptsSigned(sign, verify, secret)
    requires sign(Claims(c.nextId), secret).Some?
    modifies c
    ensures c.Valid()
    ensures registered == Reply(201, Msg(UserCreated))
    ensures loggedIn == Reply(200, MsgToken(Authenticated, sign(Claims(old(c.nextId)), secret).value))
    ensures fetched == Reply(200, UserRecord(Profile(old(c.nextId), name, email)))
  {
    var id := c.nextId;
    registered := c.Register(Body(Some(name), Some(email), Some(password), Some(password)),
                             salt, hash, true);
    LookupAfterInsert(old(c.users), User(id, name, email, hash(password, salt)), email);
    loggedIn := c.Login(Body(None, Some(email), Some(password), None), compare, sign, secret);
    var token := loggedIn.payload.token;
    BearerPasses(token, secret, verify);
    fetched := c.FetchUser(Some("Bearer " + token), secret, verify, id);
  }

  /** Registering an email a second time is refused and leaves exactly one
      stored user with that email. */
  method RegisterTwice(c: UserCollection, first: Body, second: Body, salt: string, hash: Hasher)
    returns (again: Reply)
    requires c.Valid()
    requires ValidateRegister(first).None? && ValidateRegister(second).None?
    requires first.email == second.email
    requires FindByEmail(c.users, first.email.value).None?
    modifies c
    ensures c.Valid()
    ensures again == Reply(422, Msg(EmailTaken))
    ensures exists u :: u in c.users && Some(u.email) == first.email
    ensures forall i, j :: 0 <= i < j < |c.users| ==> c.users[i].email != c.users[j].email
  {
    var id := c.nextId;
    var registered := c.Register(first, salt, hash, true);
    LookupAfterInsert(old(c.users), User(id, first.name.value, first.email.value,
                                         hash(first.password.value, salt)), first.email.value);
    again := c.Register(second, salt, hash, true);
  }
}
