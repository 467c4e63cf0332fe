/** The request schemas of backend/src/models/auth.model.ts. Each schema is a
    parser from an already string-typed request body to either the accepted
    body or the list of issues the schema library reports, in field order.
    The email-format test belongs to the schema library and is a parameter. */
module AuthSchemas {
  import opened Wrappers

  datatype IssueKind = InvalidEmail | TooSmall(minimum: nat) | TooBig(maximum: nat) | Custom(message: string)

  /** A reported problem and the path of the field it concerns. */
  datatype Issue = Issue(path: seq<string>, kind: IssueKind)

  /** The fields `loginSchema` and `registerSchema` read. */
  datatype AuthInput = AuthInput(email: string, password: string, confirmPassword: string, userAgent: Option<string>)

  const EMAIL_MIN: nat := 5
  const EMAIL_MAX: nat := 25
  const PASSWORD_MIN: nat := 6
  const PASSWORD_MAX: nat := 256
  const MismatchMessage: string := "Passwordds do not match"

  /** `.min(lo).max(hi)` on a string field: each failed bound is one issue. */
  function LengthIssues(field: string, s: string, lo: nat, hi: nat): (issues: seq<Issue>)
    ensures issues == [] <==> lo <= |s| <= hi
    ensures forall k :: 0 <= k < |issues| ==> issues[k].path == [field]
  {
    (if |s| < lo then [Issue([field], TooSmall(lo))] else [])
    + (if |s| > hi then [Issue([field], TooBig(hi))] else [])
  }

  /** `emailSchema`: `z.string().email().min(5).max(25)`. */
  function EmailIssues(email: string, isEmail: string -> bool): (issues: seq<Issue>)
    ensures issues == [] <==> isEmail(email) && EMAIL_MIN <= |email| <= EMAIL_MAX
  {
    (if isEmail(email) then [] else [Issue(["email"], InvalidEmail)])
    + LengthIssues("email", email, EMAIL_MIN, EMAIL_MAX)
  }

  /** `passwordSchema`, and the identical rule on `confirmPassword`. */
  function PasswordIssues(field: string, password: string): (issues: seq<Issue>)
    ensures issues == [] <==> PASSWORD_MIN <= |password| <= PASSWORD_MAX
  {
    LengthIssues(field, password, PASSWORD_MIN, PASSWORD_MAX)
  }

  /** Issues of the object shape shared by both schemas; `userAgent` is
      optional and never reported. */
  function FieldIssues(input: AuthInput, isEmail: string -> bool): seq<Issue> {
    EmailIssues(input.email, isEmail)
    + PasswordIssues("password", input.password)
    + PasswordIssues("confirmPassword", input.confirmPassword)
  }

  /** The conditions every field of the shared shape has to meet. */
  predicate FieldsValid(input: AuthInput, isEmail: string -> bool) {
    && isEmail(input.email) && EMAIL_MIN <= |input.email| <= EMAIL_MAX
    && PASSWORD_MIN <= |input.password| <= PASSWORD_MAX
    && PASSWORD_MIN <= |input.confirmPassword| <= PASSWORD_MAX
  }

  /** `loginSchema.parse`: accepts exactly the inputs whose fields are valid,
      unchanged, whether or not the two passwords agree. */
  function ParseLogin(input: AuthInput, isEmail: string -> bool): (r: Result<AuthInput, seq<Issue>>)
    ensures r.Success? <==> FieldsValid(input, isEmail)
    ensures r.Success? ==> r.value == input
    ensures r.Failure? ==> r.error != []
  {
    var issues := FieldIssues(input, isEmail);
    if issues == [] then Success(input) else Failure(issues)
  }

  /** `registerSchema.parse`: the login shape, then the refinement that the
      two passwords are equal, reported at `["confirmPassword"]`. The
      refinement runs on every string-typed body, so its issue is listed
      after any field issues. */
  function ParseRegister(input: AuthInput, isEmail: string -> bool): (r: Result<AuthInput, seq<Issue>>)
    ensures r.Success? <==> FieldsValid(input, isEmail) && input.password == input.confirmPassword
    ensures r.Success? ==> r.value == input
    ensures input.password != input.confirmPassword ==>
      r.Failure? && Issue(["confirmPassword"], Custom(MismatchMessage)) in r.error
  {
    var issues := FieldIssues(input, isEmail)
      + (if input.password == input.confirmPassword then []
         else [Issue(["confirmPassword"], Custom(MismatchMessage))]);
    if issues == [] then Success(input) else Failure(issues)
  }

  /** The user agent never decides acceptance, for either schema. */
  lemma UserAgentIrrelevant(input: AuthInput, agent: Option<string>, isEmail: string -> bool)
    ensures ParseLogin(input.(userAgent := agent), isEmail).Success? == ParseLogin(input, isEmail).Success?
    ensures ParseRegister(input.(userAgent := agent), isEmail).Success? == ParseRegister(input, isEmail).Success?
  {
  }

  /** Every body `registerSchema` accepts, `loginSchema` accepts too; the
      converse fails exactly on mismatched passwords. */
  lemma RegisterNarrowsLogin(input: AuthInput, isEmail: string -> bool)
    ensures ParseRegister(input, isEmail).Success? ==> ParseLogin(input, isEmail).Success?
    ensures ParseLogin(input, isEmail).Success? && ParseRegister(input, isEmail).Failure?
      ==> input.password != input.confirmPassword
  {
  }
}
