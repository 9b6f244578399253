# A model of a JWT user-authentication API

The system is a small HTTP API: a client registers a user, logs in to obtain
a signed token, and fetches a user profile on a private route guarded by a
bearer-token check. This project models the decisions of the four request
handlers in `app.js` and proves what each of them replies and how they change
the shared user collection:

- `POST /auth/register` checks `name`, `email` and `password` for presence and
  then that `password` and `confirmPassword` are strictly equal, stopping at
  the first failing check with 422. It refuses an email that is already
  stored with 422. It then stores a new user whose `password` field holds the
  hasher's output: 201 when saving succeeds, 500 when it fails.
- `POST /auth/login` checks `email` and then `password` for presence (422),
  looks the user up by email (404 if absent), compares the password with the
  stored hash (422), and signs a token `{ id }` bound to the user's id: 200
  with the token, or 500 when signing throws.
- `checkToken` takes the token as the second piece of the `Authorization`
  header split on single spaces. Without a non-empty token it replies 401.
  When verification throws it replies 400. Otherwise it passes the request on.
- `GET /user/:id` fetches the user with the path's id, without the password
  field: 200 with the profile, or 404. The id is not compared with the
  token's subject, so any valid token reads any profile.

Modules, one per component:

- `Data` (`data.dfy`): users, profiles, token claims, reply messages and
  replies.
- `Search` (`search.dfy`): ordered first-match search. It is shared by the
  validation chains and the store lookups.
- `Crypto` (`crypto.dfy`): bcrypt and jsonwebtoken as function-typed
  parameters. Two named assumptions link them with their checkers:
  `CompareAcceptsHash` and `VerifyAcceptsSigned`. The code does not promise
  either, so they are used only by the end-to-end client methods.
- `Validation` (`validation.dfy`): JavaScript truthiness of request fields.
  The register and login checks are written as the source's if-chains and
  proved equal to "the first failing check of an ordered list".
- `Bearer` (`bearer.dfy`): JavaScript `split(" ")` and its inverse, token
  extraction, and the `checkToken` gate.
- `Users` (`users.dfy`): `findOne({ email })` and `findById(id)` over the
  stored documents, in insertion order.
- `Handlers` (`handlers.dfy`): the `UserCollection` class. `Register` updates
  it; `Login` and `FetchUser` only read it.

The libraries' behaviour, the salt and whether saving succeeds are all
parameters: `salt` stands for the value the salt generator resolved to,
`saveSucceeds` says whether `user.save()` resolved, `sign` returns `None`
when `jwt.sign` throws, and `verify` returns false when `jwt.verify` throws.

Where the code and a plain reading of its design differ, the model follows
the code. `checkToken` discards the decoded claims and attaches nothing to
the request. A missing signing secret makes `jwt.sign` throw, which the
login handler reports as 500. In `checkToken` a missing secret makes
`jwt.verify` throw, which is reported as 400.

## Model

| member | source | states |
|---|---|---|
| `Validation.ValidateRegister` | app.js:58-71 | the register validation equals the first failing check of the ordered list name, email, password present, then password strictly equal to confirmPassword; it passes exactly when all four hold |
| `Validation.ValidateLogin` | app.js:107-113 | the login validation equals the first failing check of email present, then password present; it passes exactly when both hold |
| `Validation.FirstFailingIsFirst` | app.js:58-71 | a check reported as failing does fail, and every check before it in the list passed |
| `Bearer.Split` | app.js:37 | `split(" ")` yields at least one piece, no piece contains a space, and joining the pieces with single spaces gives back the header |
| `Bearer.SplitSpaceFree` | app.js:37 | a string without spaces splits into itself alone |
| `Bearer.SplitAfterPiece` | app.js:37 | a space-free piece followed by a space splits off as the first piece |
| `Bearer.SplitJoin` | app.js:37 | splitting undoes joining of space-free pieces, so the split is the unique such decomposition |
| `Bearer.TokenOf` | app.js:36-37 | an absent header yields no token; a token, when there is one, is non-empty and contains no space |
| `Bearer.TokenOfJoin` | app.js:36-39 | the token is the header's second space-separated piece exactly when that piece exists and is non-empty |
| `Bearer.BearerTokenOf` | app.js:36-39 | a header `scheme token` with a space-free scheme and a non-empty space-free token yields exactly that token |
| `Bearer.NoSpaceNoToken` | app.js:36-41 | a header without a space, such as `Bearer`, yields no token |
| `Bearer.DoubleSpaceNoToken` | app.js:36-41 | a header with two spaces after the scheme, such as `Bearer  x`, yields no token |
| `Bearer.CheckToken` | app.js:35-52 | the gate passes exactly when a token is present and verifies; it denies with 401 exactly when there is no token; every other denial is 400 |
| `Bearer.NoHeaderDenied` | app.js:36-41 | a request without an Authorization header is denied with 401 |
| `Bearer.BearerPasses` | app.js:35-48 | a `Bearer <token>` header whose token verifies passes the gate |
| `Users.FindByEmail` | app.js:74-76 | the lookup finds nothing exactly when no stored user has the email; a found user is stored and has that email |
| `Users.FindById` | app.js:26-28 | the lookup finds nothing exactly when no stored user has the id; a found user is stored and has that id |
| `Users.LookupAfterInsert` | app.js:94 | appending a user leaves lookups by other emails unchanged, and a lookup by its email finds it when it was not found before |
| `Handlers.UserCollection.Register` | app.js:55-101 | a failed check gives 422 with that check's message and changes nothing; a stored email gives 422 and changes nothing; otherwise save success gives 201 and appends exactly one user with the given name and email and password `hash(password, salt)`, and save failure gives 500 and adds no user; ids and emails stay distinct |
| `Handlers.UserCollection.Login` | app.js:104-145 | a failed check gives 422; an unknown email gives 404; a failed compare gives 422; otherwise 500 when signing throws, else 200 with `sign({id}, secret)`; any issued token belongs to a stored user with that email whose password compared; the collection is not changed |
| `Handlers.UserCollection.FetchUser` | app.js:22-52 | a denied token check replies with its 401 or 400; otherwise an unknown id gives 404 and a stored one gives 200 with that user's profile without the password |
| `Handlers.RegisterLoginFetch` | app.js:22-145 | under the two named assumptions, registering a new email, logging in with the same credentials and fetching the new id with the issued bearer token give 201, 200 with the token, and 200 with the new profile |
| `Handlers.RegisterTwice` | app.js:74-95 | registering the same valid email twice gives 422 the second time, and exactly one stored user has that email |

## Left out

- Express setup, JSON body parsing, the `GET /` welcome route, the database connection and `listen`: framework plumbing and network I/O.
- Environment configuration: the signing secret is a parameter (`Option<string>`, None when unset); database credentials are not modelled.
- bcrypt internals (salt generation with cost 12, the hash, constant-time compare) and jsonwebtoken internals (signature, encoding, the `iat` claim it adds): library code that is not part of this model; `hash`, `compare`, `sign` and `verify` are parameters.
- The `./models/User` schema is not part of this model; the save outcome is a parameter, so schema validation failures appear only as `saveSucceeds == false`.
- Request bodies whose fields hold non-string JSON values (numbers, booleans, objects): fields are modelled as an optional string.
- A path id that cannot be cast to an ObjectId makes `findById` reject inside the async route, which the handler does not catch; `FetchUser` takes an already cast `Id`.
- A rejection of the salt generation or of hashing is not caught by the register handler either; the model treats both as succeeding.
- Handlers.UserCollection.Register: "no lookup and no hashing after a failed check" is stated only as an unchanged collection and id counter, since the lookup and the hash have no other observable effect in the model.
- Concurrency: each request is modelled as atomic, so the check-then-insert race on duplicate emails is not modelled.
- The Portuguese message texts: replaced by the `Message` constructors, one per distinct text.
- Error and success bodies are modelled as `msg` codes, the token and the profile; HTTP headers of replies are not modelled.
