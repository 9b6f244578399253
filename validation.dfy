/** The required-field checks at the top of the register and login handlers. */
module Validation {
  import opened Data
  import opened Search

  /** The fields the handlers destructure from the JSON request body; a field the
      body lacks is None. Only string values are modelled. */
  datatype Body = Body(
    name: Option<string>,
    email: Option<string>,
    password: Option<string>,
    confirmPassword: Option<string>)

  datatype Field = Name | Email | Password | ConfirmPassword

  function Get(b: Body, f: Field): Option<string>
  {
    match f
    case Name => b.name
    case Email => b.email
    case Password => b.password
    case ConfirmPassword => b.confirmPassword
  }

  /** JavaScript truthiness of a string that may be undefined: `undefined` and
      `""` are both falsy. */
  predicate Truthy(v: Option<string>)
  {
    v.Some? && v.value != ""
  }

  /** One early-return test: `!x` rejects a falsy field, `x !== y` rejects two
      fields that are not strictly equal (a missing one equals only a missing one). */
  datatype Check = Required(field: Field) | SameAs(field: Field, other: Field)

  predicate Passes(b: Body, c: Check)
  {
    match c
    case Required(f) => Truthy(Get(b, f))
    case SameAs(f, g) => Get(b, f) == Get(b, g)
  }

  /** The register handler's checks, in the order it makes them. */
  const RegisterChecks: seq<Check> :=
    [Required(Name), Required(Email), Required(Password), SameAs(Password, ConfirmPassword)]

  /** The login handler's checks, in the order it makes them. */
  const LoginChecks: seq<Check> := [Required(Email), Required(Password)]

  /** Reference meaning of a chain of early returns: the first check that fails. */
  function FirstFailing(checks: seq<Check>, b: Body): Option<Check>
  {
    Find(checks, (c: Check) => !Passes(b, c))
  }

  /** The message a failed check replies with. */
  function FailureMessage(c: Check): Message
  {
    match c
    case Required(Name) => NameRequired
    case Required(Email) => EmailRequired
    case Required(Password) => PasswordRequired
    case Required(ConfirmPassword) => PasswordRequired
    case SameAs(_, _) => PasswordsDiffer
  }

  /** The register handler's validation, as its if-chain is written. */
  function ValidateRegister(b: Body): (failed: Option<Check>)
    ensures failed == FirstFailing(RegisterChecks, b)
    ensures failed.None? <==>
      Truthy(b.name) && Truthy(b.email) && Truthy(b.password) && b.password == b.confirmPassword
  {
    if !Truthy(b.name) then Some(Required(Name))
    else if !Truthy(b.email) then Some(Required(Email))
    else if !Truthy(b.password) then Some(Required(Password))
    else if b.password != b.confirmPassword then Some(SameAs(Password, ConfirmPassword))
    else None
  }

  /** The login handler's validation, as its if-chain is written. */
  function ValidateLogin(b: Body): (failed: Option<Check>)
    ensures failed == FirstFailing(LoginChecks, b)
    ensures failed.None? <==> Truthy(b.email) && Truthy(b.password)
  {
    if !Truthy(b.email) then Some(Required(Email))
    else if !Truthy(b.password) then Some(Required(Password))
    else None
  }

  /** A failing check is reported only when every check before it passed. */
  lemma {:induction false} FirstFailingIsFirst(checks: seq<Check>, b: Body, k: nat)
    requires k < |checks| && FirstFailing(checks, b) == Some(checks[k])
    requires forall j :: 0 <= j < |checks| ==> j == k || checks[j] != checks[k]
    ensures !Passes(b, checks[k])
    ensures forall j :: 0 <= j < k ==> Passes(b, checks[j])
  {
    var p := (c: Check) => !Passes(b, c);
    var i := FirstIndex(checks, p);
    assert checks[i] == checks[k];
  }
}
