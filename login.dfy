/** The login page: the form is checked against the login schema before the
    sign-in call, the sign-in error is turned into one of three texts, and a
    successful sign-in returns to the page the visitor came from. */
module Login {
  import opened Common
  import opened Text
  import opened Profiles
  import opened ValidationSchemas
  import opened ErrorHandler
  import opened AuthContext

  datatype Toast = ErrorToast(text: string) | SuccessToast(text: string)

  const LoginFailed := "Login failed"
  const BadCredentials := "Invalid email or password"
  const ConfirmEmail := "Please confirm your email before signing in"
  const LoginSucceeded := "Login successful!"

  /** The toast for a sign-in error: the two known messages by keyword,
      and the error handler with the text 'Login failed' for the rest. */
  function SignInErrorText(e: DbError): (t: string)
    ensures Contains(e.message, "Invalid login credentials") ==> t == BadCredentials
    ensures !Contains(e.message, "Invalid login credentials") && Contains(e.message, "Email not confirmed") ==>
              t == ConfirmEmail
    ensures !Contains(e.message, "Invalid login credentials") && !Contains(e.message, "Email not confirmed") ==>
              t == LoginFailed
  {
    if Contains(e.message, "Invalid login credentials") then BadCredentials
    else if Contains(e.message, "Email not confirmed") then ConfirmEmail
    else HandleError(Backend(e), Some(LoginFailed))
  }

  /** `location.state?.from?.pathname || "/"`. */
  function LoginTarget(from: Option<string>): (path: string)
    ensures path != ""
    ensures Truthy(from) ==> path == from.value
    ensures !Truthy(from) ==> path == "/"
  {
    if Truthy(from) then from.value else "/"
  }

  /** Whatever the handler is given for the fallback branch, the text it
      shows is 'Login failed', never the classified message. */
  lemma FallbackIsLoginFailed(e: Error)
    ensures HandleError(e, Some(LoginFailed)) == LoginFailed
  {
  }

  datatype LoginField = EmailField | PasswordField

  class LoginPage {
    var form: LoginForm
    var loading: bool

    constructor ()
      ensures form == LoginForm("", "") && !loading
    {
      form := LoginForm("", "");
      loading := false;
    }

    /** `handleInputChange`: one field takes the typed value. */
    method HandleInputChange(field: LoginField, value: string)
      modifies this
      ensures loading == old(loading)
      ensures field == EmailField ==> form == old(form).(email := value)
      ensures field == PasswordField ==> form == old(form).(password := value)
    {
      if field == EmailField {
        form := form.(email := value);
      } else {
        form := form.(password := value);
      }
    }

    /** `handleLogin`. A form the schema rejects never reaches the sign-in
        call and shows 'Login failed'; a sign-in error shows its text; a
        success shows the success toast and navigates back. Loading ends
        either way. `response` is the identity service's answer and `rows`
        the profiles table the context reads the role from. */
    method HandleLogin(auth: AuthState, isEmail: string -> bool, response: AuthResponse,
                       rows: seq<Profile>, queryFails: bool, from: Option<string>)
      returns (toast: Toast, navigate: Option<string>)
      modifies this, auth
      ensures !loading && form == old(form)
      ensures LoginIssues(form, isEmail) != [] ==>
                toast == ErrorToast(LoginFailed) && navigate.None?
                && auth.user == old(auth.user) && auth.role == old(auth.role) && auth.loading == old(auth.loading)
      ensures LoginIssues(form, isEmail) == [] && response.user.Some? ==>
                auth.user == response.user && auth.role == SessionRole(rows, response.user.value, queryFails)
                && !auth.loading
      ensures LoginIssues(form, isEmail) == [] && response.user.None? ==>
                auth.user == old(auth.user) && auth.role == old(auth.role) && auth.loading == old(auth.loading)
      ensures LoginIssues(form, isEmail) == [] && response.error.Some? ==>
                toast == ErrorToast(SignInErrorText(response.error.value)) && navigate.None?
      ensures LoginIssues(form, isEmail) == [] && response.error.None? ==>
                toast == SuccessToast(LoginSucceeded) && navigate == Some(LoginTarget(from))
    {
      loading := true;
      var validated := ValidateInput(form, LoginIssues(form, isEmail));
      if validated.Err? {
        toast := ErrorToast(HandleError(validated.error, Some(LoginFailed)));
        navigate := None;
      } else {
        var error := auth.SignIn(response, rows, queryFails);
        if error.Some? {
          toast := ErrorToast(SignInErrorText(error.value));
          navigate := None;
        } else {
          toast := SuccessToast(LoginSucceeded);
          navigate := Some(LoginTarget(from));
        }
      }
      loading := false;
    }
  }
}
