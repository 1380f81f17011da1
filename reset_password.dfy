/** The reset-password page: the check of the recovery link, the two
    password guards, and the status and message the page shows. */
module ResetPassword {
  import opened Common
  import opened ValidationSchemas

  datatype Status = Idle | Loading | Success | Failure

  const InvalidLink := "Invalid reset link. Please request a new password reset."
  const ExpiredLink := "Invalid or expired reset link. Please request a new password reset."
  const PasswordsDiffer := "Passwords don't match"
  const TooShort := "Password must be at least 6 characters long"
  const Updated := "Password updated successfully! Redirecting to login..."
  const UpdateFailed := "Failed to update password"

  /** The link carries `type=recovery` and both tokens, non-empty. */
  predicate RecoveryLink(linkType: Option<string>, accessToken: Option<string>, refreshToken: Option<string>) {
    linkType == Some("recovery") && Truthy(accessToken) && Truthy(refreshToken)
  }

  /** The guards of `handlePasswordReset`, the match before the length;
      `None` lets the update go ahead. */
  function PasswordGuard(password: string, confirm: string): (m: Option<string>)
    ensures m == Some(PasswordsDiffer) <==> password != confirm
    ensures m == Some(TooShort) <==> password == confirm && |password| < 6
    ensures m.None? <==> password == confirm && |password| >= 6
  {
    if password != confirm then Some(PasswordsDiffer)
    else if |password| < 6 then Some(TooShort)
    else None
  }

  /** A new password passes the guards exactly when the login schema
      accepts it, so any password set here can be used to log in. */
  lemma GuardAgreesWithLogin(password: string, email: string, isEmail: string -> bool)
    requires isEmail(email)
    ensures PasswordGuard(password, password).None? <==> LoginIssues(LoginForm(email, password), isEmail) == []
  {
  }

  class ResetPasswordPage {
    var status: Status
    var message: string

    constructor ()
      ensures status == Idle && message == ""
    {
      status := Idle;
      message := "";
    }

    /** The submit button is disabled while updating and after success. */
    predicate SubmitDisabled()
      reads this
    {
      status == Loading || status == Success
    }

    /** The effect on the link's parameters: a recovery link sets the
        session, and only a failure to set it is shown; any other link is
        reported invalid. */
    method CheckLink(linkType: Option<string>, accessToken: Option<string>, refreshToken: Option<string>,
                     sessionError: Option<DbError>)
      modifies this
      ensures RecoveryLink(linkType, accessToken, refreshToken) && sessionError.None? ==>
                status == old(status) && message == old(message)
      ensures RecoveryLink(linkType, accessToken, refreshToken) && sessionError.Some? ==>
                status == Failure && message == ExpiredLink
      ensures !RecoveryLink(linkType, accessToken, refreshToken) ==> status == Failure && message == InvalidLink
    {
      if RecoveryLink(linkType, accessToken, refreshToken) {
        if sessionError.Some? {
          message := ExpiredLink;
          status := Failure;
        }
      } else {
        message := InvalidLink;
        status := Failure;
      }
    }

    /** `handlePasswordReset`: a guard failure is shown and the update is not
        called; otherwise the update's outcome decides between success and
        the error's message (or the fixed text when it has none). */
    method HandlePasswordReset(password: string, confirm: string, updateError: Option<DbError>)
      returns (updateCalled: bool)
      modifies this
      ensures updateCalled <==> PasswordGuard(password, confirm).None?
      ensures !updateCalled ==> status == Failure && message == PasswordGuard(password, confirm).value
      ensures updateCalled && updateError.None? ==> status == Success && message == Updated
      ensures updateCalled && updateError.Some? ==>
                status == Failure && message == OrElse(updateError.value.message, UpdateFailed)
      ensures status != Idle && status != Loading
    {
      var guard := PasswordGuard(password, confirm);
      if guard.Some? {
        message := guard.value;
        status := Failure;
        return false;
      }
      status := Loading;
      updateCalled := true;
      if updateError.None? {
        message := Updated;
        status := Success;
      } else {
        message := OrElse(updateError.value.message, UpdateFailed);
        status := Failure;
      }
    }
  }
}
