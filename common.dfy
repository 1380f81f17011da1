/** Shared value types: optional values, the errors a call can raise, and
    the result of a call that either returns a value or raises. */
module Common {

  datatype Option<+T> = None | Some(value: T)
  {
    function GetOr(default: T): T {
      match this
      case Some(v) => v
      case None => default
    }
  }

  /** One problem a schema reports: the field it is about and the text. */
  datatype Issue = Issue(path: string, message: string)

  /** An error object returned by the backend (database, REST layer or
      identity service): a code and a message. */
  datatype DbError = DbError(code: string, message: string)

  /** What a call can raise.
      - AppError: the application's own error class (message, code, HTTP status).
      - ZodError: a schema rejected its input, with the issues it found.
      - Backend: a backend error object, rethrown as it is.
      - Plain: `new Error(text)`. */
  datatype Error =
    | AppError(message: string, code: Option<string>, statusCode: Option<int>)
    | ZodError(issues: seq<Issue>)
    | Backend(db: DbError)
    | Plain(text: string)

  datatype Result<+T> = Ok(value: T) | Err(error: Error)

  /** PostgREST's code when `.single()` finds no row (or more than one). */
  const NotFoundCode: string := "PGRST116"
  /** Postgres' code for a unique-key violation. */
  const DuplicateCode: string := "23505"
  /** Postgres' code for a null in a column declared not null. */
  const NotNullCode: string := "23502"

  function NoSingleRow(): DbError {
    DbError(NotFoundCode, "JSON object requested, multiple (or no) rows returned")
  }

  function DuplicateKey(): DbError {
    DbError(DuplicateCode, "duplicate key value violates unique constraint")
  }

  /** JavaScript truthiness of an optional string: present and non-empty. */
  predicate Truthy(s: Option<string>) {
    s.Some? && s.value != ""
  }

  /** `a || b` on strings: `a` unless it is empty. */
  function OrElse(a: string, b: string): (r: string)
    ensures a != "" ==> r == a
    ensures a == "" ==> r == b
  {
    if a != "" then a else b
  }

  /** Account metadata sent with an auth sign-up; the profile trigger reads it. */
  datatype SignUpMetadata = SignUpMetadata(firstName: string, lastName: string, phone: string, role: Option<string>)

  /** A request to the identity service to create an account. */
  datatype SignUpRequest = SignUpRequest(email: string, password: string, metadata: SignUpMetadata)
}
