/** The request validators of the user routes. Each route declares a chain of
    express-validator checks on body fields; the handler then asks for the
    failures and answers 400 when there are any. Two routes declare checks
    whose handlers never ask, so those never reject. */
module UserRoutes {
  import opened Common

  /** The request body: the string fields the client sent. */
  type Body = map<string, string>

  /** The field's value as the validators see it: a missing field reads as ''. */
  function Field(b: Body, f: string): string
  {
    if f in b then b[f] else ""
  }

  /** `notEmpty()`, `exists()` and `isLength({ min })`. */
  datatype Check = NotEmpty(field: string) | Exists(field: string) | MinLength(field: string, min: nat)

  predicate Passes(c: Check, b: Body)
  {
    match c
    case NotEmpty(f) => Field(b, f) != ""
    case Exists(f) => f in b
    case MinLength(f, n) => |Field(b, f)| >= n
  }

  datatype Route = Register | Login | ForgotPassword | ResetPassword | VerifyResetCode | UpdatePassword

  const PasswordMinLength: nat := 6

  /** The chain each route declares. */
  function Chain(r: Route): (chain: seq<Check>)
    ensures chain != []
    ensures forall c :: c in chain && c.MinLength? ==> c.min == PasswordMinLength
    ensures r != UpdatePassword ==> NotEmpty("email") in chain
  {
    match r
    case Register => [NotEmpty("firstName"), NotEmpty("lastName"), NotEmpty("email"), MinLength("password", PasswordMinLength)]
    case Login => [NotEmpty("email"), Exists("password")]
    case ForgotPassword => [NotEmpty("email")]
    case ResetPassword => [NotEmpty("email"), MinLength("new_password", PasswordMinLength)]
    case VerifyResetCode => [NotEmpty("email"), NotEmpty("resetCode")]
    case UpdatePassword => [Exists("password"), MinLength("new_password", PasswordMinLength)]
  }

  /** `validationResult(req).array()`: the failing checks, in chain order. */
  function Failures(chain: seq<Check>, b: Body): (r: seq<Check>)
    ensures |r| <= |chain|
    ensures forall c :: c in r <==> c in chain && !Passes(c, b)
  {
    if chain == [] then []
    else (if Passes(chain[0], b) then [] else [chain[0]]) + Failures(chain[1..], b)
  }

  /** `String(errors.array())`: each failure is an object, printed as
      "[object Object]", and the entries are joined by commas. */
  function ErrorsText(n: nat): (s: string)
    requires n >= 1
  {
    if n == 1 then "[object Object]" else "[object Object]," + ErrorsText(n - 1)
  }

  /** The message names no field: it only grows with the number of failures. */
  lemma {:induction false} ErrorsTextLength(n: nat)
    requires n >= 1
    ensures |ErrorsText(n)| == 16 * n - 1
  {
    if n > 1 {
      ErrorsTextLength(n - 1);
    }
  }

  /** Whether the route's handler consults the validators at all. */
  predicate Consulted(r: Route)
  {
    r != ForgotPassword && r != VerifyResetCode
  }

  /** The error the handler throws for the body, if any. */
  function Gate(r: Route, b: Body): (e: Option<HttpError>)
    ensures e.Some? ==> e.value.status == 400
    ensures e.Some? <==> Consulted(r) && exists c :: c in Chain(r) && !Passes(c, b)
  {
    var failures := Failures(Chain(r), b);
    assert failures != [] ==> failures[0] in failures;
    if !Consulted(r) || failures == [] then None
    else if r == Register then Some(HttpError(400, "Please fill all the required fields!"))
    else Some(HttpError(400, ErrorsText(|failures|)))
  }

  /** Registration needs a first name, a last name, an email and a password of six or more characters. */
  lemma RegisterGate(b: Body)
    ensures Gate(Register, b).None? <==>
              Field(b, "firstName") != "" && Field(b, "lastName") != "" && Field(b, "email") != ""
              && |Field(b, "password")| >= 6
    ensures Gate(Register, b).Some? ==> Gate(Register, b).value == HttpError(400, "Please fill all the required fields!")
  {
    var chain := Chain(Register);
    if !Passes(chain[0], b) { assert chain[0] in chain; }
    if !Passes(chain[1], b) { assert chain[1] in chain; }
    if !Passes(chain[2], b) { assert chain[2] in chain; }
    if !Passes(chain[3], b) { assert chain[3] in chain; }
  }

  /** Login needs a non-empty email and a password field, which may be empty. */
  lemma LoginGate(b: Body)
    ensures Gate(Login, b).None? <==> Field(b, "email") != "" && "password" in b
  {
    var chain := Chain(Login);
    if !Passes(chain[0], b) { assert chain[0] in chain; }
    if !Passes(chain[1], b) { assert chain[1] in chain; }
  }

  /** An empty password passes the login validators. */
  lemma LoginAcceptsEmptyPassword(email: string)
    requires email != ""
    ensures Gate(Login, map["email" := email, "password" := ""]).None?
  {
    LoginGate(map["email" := email, "password" := ""]);
  }

  lemma ResetPasswordGate(b: Body)
    ensures Gate(ResetPassword, b).None? <==> Field(b, "email") != "" && |Field(b, "new_password")| >= 6
  {
    var chain := Chain(ResetPassword);
    if !Passes(chain[0], b) { assert chain[0] in chain; }
    if !Passes(chain[1], b) { assert chain[1] in chain; }
  }

  lemma UpdatePasswordGate(b: Body)
    ensures Gate(UpdatePassword, b).None? <==> "password" in b && |Field(b, "new_password")| >= 6
  {
    var chain := Chain(UpdatePassword);
    if !Passes(chain[0], b) { assert chain[0] in chain; }
    if !Passes(chain[1], b) { assert chain[1] in chain; }
  }

  /** Every failing check adds one entry to the message, so a body failing both
      checks of the password reset gets two entries. */
  lemma ResetPasswordBothFail(b: Body)
    requires Field(b, "email") == "" && |Field(b, "new_password")| < 6
    ensures Gate(ResetPassword, b) == Some(HttpError(400, ErrorsText(2)))
  {
    var chain := Chain(ResetPassword);
    assert chain[1..][1..] == [];
    assert Failures(chain[1..], b) == [chain[1]];
    assert Failures(chain, b) == [chain[0], chain[1]];
  }

  /** The password-reset request and the code check declare validators that are never consulted. */
  lemma UnconsultedRoutesAcceptAll(b: Body)
    ensures Gate(ForgotPassword, b).None? && Gate(VerifyResetCode, b).None?
  {
  }
}
