/** Classification of raised errors into the text shown to the user, the
    toast text chosen by `handleError`, and `validateInput`, which turns any
    schema failure into one application error. */
module ErrorHandler {
  import opened Common
  import opened Text

  const RecordNotFound := "Record not found or access denied"
  const RecordExists := "This record already exists"
  const SessionExpired := "Session expired. Please login again"
  const NetworkProblem := "Network error. Please check your connection"
  const GenericFailure := "Something went wrong. Please try again later"

  /** `error?.code === c`: only backend errors carry a code by the time
      this test is reached (an application error is handled before it). */
  predicate HasCode(e: Error, c: string) {
    e.Backend? && e.db.code == c
  }

  /** `error?.message?.includes(t)`. A schema error's message is the text
      of its issues, and no schema message names either keyword, so it is
      taken to include neither. */
  predicate MessageIncludes(e: Error, t: string) {
    match e
    case Backend(db) => Contains(db.message, t)
    case Plain(text) => Contains(text, t)
    case AppError(message, _, _) => Contains(message, t)
    case ZodError(_) => false
  }

  /** The user-facing text for an error. The application's own errors keep
      their message; backend codes come next, then message keywords, and
      'JWT' is checked before 'network'. */
  function GetUserFriendlyMessage(e: Error): (m: string)
    ensures e.AppError? ==> m == e.message
    ensures !e.AppError? && HasCode(e, NotFoundCode) ==> m == RecordNotFound
    ensures !e.AppError? && HasCode(e, DuplicateCode) ==> m == RecordExists
    ensures !e.AppError? && !HasCode(e, NotFoundCode) && !HasCode(e, DuplicateCode) ==>
              (m == SessionExpired <==> MessageIncludes(e, "JWT"))
              && (m == NetworkProblem <==> !MessageIncludes(e, "JWT") && MessageIncludes(e, "network"))
              && (m == GenericFailure <==> !MessageIncludes(e, "JWT") && !MessageIncludes(e, "network"))
  {
    if e.AppError? then e.message
    else if HasCode(e, NotFoundCode) then RecordNotFound
    else if HasCode(e, DuplicateCode) then RecordExists
    else if MessageIncludes(e, "JWT") then SessionExpired
    else if MessageIncludes(e, "network") then NetworkProblem
    else GenericFailure
  }

  /** Any error that is not the application's own is shown as one of the
      five fixed texts. */
  lemma FriendlyMessageIsFixed(e: Error)
    requires !e.AppError?
    ensures GetUserFriendlyMessage(e) in {RecordNotFound, RecordExists, SessionExpired, NetworkProblem, GenericFailure}
  {
  }

  /** A message naming both keywords is a session problem, not a network one. */
  lemma JwtBeforeNetwork(code: string, a: string, b: string, c: string)
    requires code != NotFoundCode && code != DuplicateCode
    ensures GetUserFriendlyMessage(Backend(DbError(code, a + "JWT" + b + "network" + c))) == SessionExpired
  {
    ContainsInfix(a, "JWT", b + "network" + c);
    assert a + "JWT" + b + "network" + c == a + "JWT" + (b + "network" + c);
  }

  /** A code decides before the message does. */
  lemma CodeBeforeMessage(message: string)
    ensures GetUserFriendlyMessage(Backend(DbError(NotFoundCode, message))) == RecordNotFound
    ensures GetUserFriendlyMessage(Backend(DbError(DuplicateCode, message))) == RecordExists
  {
  }

  /** The toast text: the caller's message when it is a non-empty string,
      otherwise the classified one. */
  function HandleError(e: Error, userMessage: Option<string>): (shown: string)
    ensures Truthy(userMessage) ==> shown == userMessage.value
    ensures !Truthy(userMessage) ==> shown == GetUserFriendlyMessage(e)
  {
    if Truthy(userMessage) then userMessage.value else GetUserFriendlyMessage(e)
  }

  function InvalidInput(): Error {
    AppError("Invalid input data", Some("VALIDATION_ERROR"), Some(400))
  }

  /** `schema.parse(data)`, with `issues` the schema's verdict: the data
      when there are none, otherwise one fixed application error whatever
      the issues were. */
  function ValidateInput<T>(data: T, issues: seq<Issue>): (r: Result<T>)
    ensures r.Ok? <==> issues == []
    ensures r.Ok? ==> r.value == data
    ensures r.Err? ==> r.error == InvalidInput()
  {
    if issues == [] then Ok(data) else Err(InvalidInput())
  }

  /** A rejected input is shown as the fixed text, not as the issues. */
  lemma RejectedInputMessage<T>(data: T, issues: seq<Issue>)
    requires issues != []
    ensures GetUserFriendlyMessage(ValidateInput(data, issues).error) == "Invalid input data"
  {
  }
}
