/** The values the request handlers exchange: users as stored, the profile the
    private route returns, token claims and the replies the handlers send. */
module Data {

  datatype Option<+T> = None | Some(value: T)

  /** A stored user's identifier (a Mongo ObjectId in the original). */
  type Id = nat

  /** A user document as stored; `password` holds the hasher's output. */
  datatype User = User(id: Id, name: string, email: string, password: string)

  /** A user document fetched with the password field excluded. */
  datatype Profile = Profile(id: Id, name: string, email: string)

  /** The payload of an issued token: `{ id: user._id }`. */
  datatype Claims = Claims(id: Id)

  /** What a reply's `msg` says; one constructor per distinct message text. */
  datatype Message =
    | NameRequired
    | EmailRequired
    | PasswordRequired
    | PasswordsDiffer
    | EmailTaken
    | UserCreated
    | UserNotFound
    | WrongPassword
    | Authenticated
    | ServerError
    | AccessDenied
    | InvalidToken

  /** The JSON body of a reply: `{ msg }`, `{ msg, token }` or `{ user }`. */
  datatype Payload =
    | Msg(msg: Message)
    | MsgToken(msg: Message, token: string)
    | UserRecord(user: Profile)

  /** An HTTP reply: status code and JSON payload. */
  datatype Reply = Reply(status: nat, payload: Payload)

  /** The profile view of a stored user, as `findById(id, "-password")` returns it. */
  function WithoutPassword(u: User): Profile
  {
    Profile(u.id, u.name, u.email)
  }
}
