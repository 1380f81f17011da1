/** The sign-up page: two guards (terms accepted, passwords equal), then one
    account request carrying the name and phone as metadata, and an alert
    for each outcome. The sign-up schema is not applied on this page. */
module Signup {
  import opened Common
  import opened ValidationSchemas

  const MustAgree := "You must agree to the terms to continue."
  const PasswordsDiffer := "Passwords do not match."
  const SignupSucceeded := "Signup successful! Please check your email to confirm your account."

  /** The alert shown and the account request sent, if one was. */
  datatype SignupOutcome = SignupOutcome(alert: string, sent: Option<SignUpRequest>)

  /** The request built from the form: no role, so the profile trigger
      gives the default one. */
  function SignupRequestFor(f: SignupForm): (req: SignUpRequest)
    ensures req.email == f.email && req.password == f.password
    ensures req.metadata.firstName == f.firstName && req.metadata.lastName == f.lastName
    ensures req.metadata.phone == f.phone && req.metadata.role.None?
  {
    SignUpRequest(f.email, f.password, SignUpMetadata(f.firstName, f.lastName, f.phone, None))
  }

  /** `handleSignup`: the terms first, then the password match, then the
      request; `error` is the identity service's answer to it. */
  function HandleSignup(f: SignupForm, agree: bool, error: Option<DbError>): (o: SignupOutcome)
    ensures !agree ==> o == SignupOutcome(MustAgree, None)
    ensures agree && f.password != f.confirmPassword ==> o == SignupOutcome(PasswordsDiffer, None)
    ensures o.sent.Some? <==> agree && f.password == f.confirmPassword
    ensures o.sent.Some? ==> o.sent.value == SignupRequestFor(f)
    ensures o.sent.Some? && error.Some? ==> o.alert == "Signup failed: " + error.value.message
    ensures o.sent.Some? && error.None? ==> o.alert == SignupSucceeded
  {
    if !agree then SignupOutcome(MustAgree, None)
    else if f.password != f.confirmPassword then SignupOutcome(PasswordsDiffer, None)
    else
      var req := SignupRequestFor(f);
      SignupOutcome(if error.Some? then "Signup failed: " + error.value.message else SignupSucceeded, Some(req))
  }

  /** The page sends passwords the sign-up schema would reject: any equal
      pair shorter than eight characters still reaches the service. */
  lemma WeakPasswordIsSent(f: SignupForm, isEmail: string -> bool, error: Option<DbError>)
    requires f.password == f.confirmPassword && |f.password| < 8
    ensures HandleSignup(f, true, error).sent.Some?
    ensures SignupIssues(f, isEmail) != []
  {
  }
}
