/** The four input schemas. A schema checks every field and reports every
    failing check, field by field in declaration order; each `*Issues`
    function returns that list and the form is accepted exactly when the
    list is empty. The email and uuid recognisers are parameters. */
module ValidationSchemas {
  import opened Common
  import opened Text

  /** All issues concern the one field `path`. */
  predicate AllAbout(issues: seq<Issue>, path: string) {
    forall i :: 0 <= i < |issues| ==> issues[i].path == path
  }

  /** `z.string().min(lo, tooShort).max(hi, tooLong)` on the field `path`. */
  function LengthIssues(path: string, s: string, lo: nat, tooShort: string, hi: nat, tooLong: string): (r: seq<Issue>)
    requires lo <= hi
    ensures r == [] <==> lo <= |s| <= hi
    ensures AllAbout(r, path)
    ensures |s| < lo ==> r == [Issue(path, tooShort)]
    ensures |s| > hi ==> r == [Issue(path, tooLong)]
  {
    (if |s| < lo then [Issue(path, tooShort)] else [])
    + (if |s| > hi then [Issue(path, tooLong)] else [])
  }

  /** `z.string().min(1, message)` */
  function RequiredIssues(path: string, s: string, message: string): (r: seq<Issue>)
    ensures r == [] <==> s != ""
    ensures s == "" ==> r == [Issue(path, message)]
  {
    if |s| < 1 then [Issue(path, message)] else []
  }

  /** `z.number().positive(message)` */
  function PositiveIssues(path: string, n: int, message: string): (r: seq<Issue>)
    ensures r == [] <==> n > 0
    ensures AllAbout(r, path)
  {
    if n > 0 then [] else [Issue(path, message)]
  }

  /** A recogniser given as a predicate, reported under `path`. */
  function CheckIssues(path: string, ok: bool, message: string): (r: seq<Issue>)
    ensures r == [] <==> ok
    ensures AllAbout(r, path)
  {
    if ok then [] else [Issue(path, message)]
  }

  // ------------------------------------------------------------------ login

  datatype LoginForm = LoginForm(email: string, password: string)

  function LoginIssues(f: LoginForm, isEmail: string -> bool): (r: seq<Issue>)
    ensures r == [] <==> isEmail(f.email) && |f.password| >= 6
  {
    CheckIssues("email", isEmail(f.email), "Please enter a valid email address")
    + CheckIssues("password", |f.password| >= 6, "Password must be at least 6 characters")
  }

  // ----------------------------------------------------------------- signup

  datatype SignupForm = SignupForm(
    firstName: string,
    lastName: string,
    email: string,
    phone: string,
    password: string,
    confirmPassword: string)

  /** `/^\+?[1-9]\d{1,14}$/`: an optional plus, a digit 1-9, then one to
      fourteen digits. A string starting with '+' can only match through
      the optional plus, since '+' is not a digit. */
  predicate PhoneOk(s: string) {
    var body := if |s| > 0 && s[0] == '+' then s[1..] else s;
    2 <= |body| <= 15 && '1' <= body[0] <= '9' && AllDigits(body)
  }

  /** The number part of a phone (the digits after an optional '+'). */
  predicate PhoneDigits(d: string) {
    2 <= |d| <= 15 && '1' <= d[0] <= '9' && AllDigits(d)
  }

  /** The two ways the phone pattern can match, and the resulting length. */
  lemma PhoneShape(s: string)
    ensures PhoneOk(s) <==> PhoneDigits(s) || (|s| > 0 && s[0] == '+' && PhoneDigits(s[1..]))
    ensures PhoneOk(s) ==> 2 <= |s| <= 16
  {
  }

  /** `(?=.*[a-z])` and friends: the lookahead finds a match at some start
      position exactly when some character is in the class. */
  predicate HasLower(s: string) { exists i :: 0 <= i < |s| && 'a' <= s[i] <= 'z' }
  predicate HasUpper(s: string) { exists i :: 0 <= i < |s| && 'A' <= s[i] <= 'Z' }
  predicate HasDigit(s: string) { exists i :: 0 <= i < |s| && IsDigit(s[i]) }

  predicate StrongPassword(p: string) {
    |p| >= 8 && HasLower(p) && HasUpper(p) && HasDigit(p)
  }

  function PasswordIssues(p: string): (r: seq<Issue>)
    ensures r == [] <==> StrongPassword(p)
    ensures AllAbout(r, "password")
    ensures |r| <= 4
  {
    CheckIssues("password", |p| >= 8, "Password must be at least 8 characters")
    + CheckIssues("password", HasLower(p), "Password must contain at least one lowercase letter")
    + CheckIssues("password", HasUpper(p), "Password must contain at least one uppercase letter")
    + CheckIssues("password", HasDigit(p), "Password must contain at least one number")
  }

  const MismatchIssue := Issue("confirmPassword", "Passwords don't match")

  /** No issue concerns the field `path`. */
  predicate NoneAbout(issues: seq<Issue>, path: string) {
    forall i :: 0 <= i < |issues| ==> issues[i].path != path
  }

  lemma NoneAboutAppend(a: seq<Issue>, b: seq<Issue>, path: string)
    requires NoneAbout(a, path) && NoneAbout(b, path)
    ensures NoneAbout(a + b, path)
  {
  }

  predicate SignupFieldsOk(f: SignupForm, isEmail: string -> bool) {
    1 <= |f.firstName| <= 50 && 1 <= |f.lastName| <= 50 && isEmail(f.email)
    && PhoneOk(f.phone) && StrongPassword(f.password)
  }

  /** The per-field checks, in field order. */
  function SignupFieldIssues(f: SignupForm, isEmail: string -> bool): (r: seq<Issue>)
    ensures r == [] <==> SignupFieldsOk(f, isEmail)
    ensures NoneAbout(r, "confirmPassword")
  {
    var names :=
      LengthIssues("firstName", f.firstName, 1, "First name is required", 50, "First name is too long")
      + LengthIssues("lastName", f.lastName, 1, "Last name is required", 50, "Last name is too long");
    var contact :=
      CheckIssues("email", isEmail(f.email), "Please enter a valid email address")
      + CheckIssues("phone", PhoneOk(f.phone), "Please enter a valid phone number");
    var password := PasswordIssues(f.password);
    NoneAboutAppend(names, contact, "confirmPassword");
    NoneAboutAppend(names + contact, password, "confirmPassword");
    names + contact + password
  }

  /** Field checks first, then the cross-field refinement, which reports a
      mismatch on `confirmPassword` only. */
  function SignupIssues(f: SignupForm, isEmail: string -> bool): (r: seq<Issue>)
    ensures r == [] <==> SignupFieldsOk(f, isEmail) && f.password == f.confirmPassword
    ensures f.password != f.confirmPassword ==> r[|r| - 1] == MismatchIssue
    ensures forall i :: 0 <= i < |r| && r[i].path == "confirmPassword" ==>
              r[i] == MismatchIssue && f.password != f.confirmPassword
  {
    SignupFieldIssues(f, isEmail) + (if f.password == f.confirmPassword then [] else [MismatchIssue])
  }

  // ---------------------------------------------------------------- booking

  datatype BookingForm = BookingForm(turfId: string, date: string, time: string, price: int)

  function BookingIssues(f: BookingForm, isUuid: string -> bool): (r: seq<Issue>)
    ensures r == [] <==> isUuid(f.turfId) && f.date != "" && f.time != "" && f.price > 0
  {
    CheckIssues("turfId", isUuid(f.turfId), "Invalid turf ID")
    + RequiredIssues("date", f.date, "Date is required")
    + RequiredIssues("time", f.time, "Time is required")
    + PositiveIssues("price", f.price, "Price must be positive")
  }

  // ------------------------------------------------------------------- turf

  datatype TurfForm = TurfForm(name: string, location: string, sport: string, price: int, description: Option<string>)

  function DescriptionIssues(d: Option<string>): (r: seq<Issue>)
    ensures r == [] <==> d.None? || |d.value| <= 500
  {
    if d.Some? && |d.value| > 500 then [Issue("description", "Description is too long")] else []
  }

  function TurfIssues(f: TurfForm): (r: seq<Issue>)
    ensures r == [] <==>
      1 <= |f.name| <= 100 && 1 <= |f.location| <= 200 && f.sport != ""
      && f.price > 0 && (f.description.None? || |f.description.value| <= 500)
  {
    LengthIssues("name", f.name, 1, "Turf name is required", 100, "Name is too long")
    + LengthIssues("location", f.location, 1, "Location is required", 200, "Location is too long")
    + RequiredIssues("sport", f.sport, "Sport is required")
    + PositiveIssues("price", f.price, "Price must be positive")
    + DescriptionIssues(f.description)
  }
}
