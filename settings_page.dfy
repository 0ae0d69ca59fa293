// The password change on the settings page: two guards checked in order,
// then the call to the authentication service, whose outcome is a parameter.
module SettingsPage {
  import opened Common

  datatype PasswordForm = PasswordForm(oldPassword: string, newPassword: string, confirmPassword: string)

  const EMPTY_FORM: PasswordForm := PasswordForm("", "", "")
  const MIN_PASSWORD_LENGTH: nat := 8
  const MISMATCH: string := "As senhas não coincidem"
  const TOO_SHORT: string := "A nova senha deve ter pelo menos 8 caracteres"

  /** What `handleChangePassword` does with the form: reject it with a message, or call `changePassword`. */
  datatype Decision = Reject(message: string) | CallChangePassword(oldPassword: string, newPassword: string)

  /**
   * The guards of `handleChangePassword`: a confirmation that differs is
   * reported first, then a new password shorter than eight characters; the
   * service is called only after both pass.
   */
  function CheckPasswordChange(form: PasswordForm): (r: Decision)
    ensures r == Reject(MISMATCH) <==> form.newPassword != form.confirmPassword
    ensures r == Reject(TOO_SHORT) <==> form.newPassword == form.confirmPassword && |form.newPassword| < MIN_PASSWORD_LENGTH
    ensures r.CallChangePassword? <==> form.newPassword == form.confirmPassword && |form.newPassword| >= MIN_PASSWORD_LENGTH
    ensures r.CallChangePassword? ==> r == CallChangePassword(form.oldPassword, form.newPassword)
  {
    if form.newPassword != form.confirmPassword then Reject(MISMATCH)
    else if |form.newPassword| < MIN_PASSWORD_LENGTH then Reject(TOO_SHORT)
    else CallChangePassword(form.oldPassword, form.newPassword)
  }

  /**
   * The form after the handler: emptied when the service accepted the
   * change, kept as typed when a guard rejected it or the call failed.
   */
  function FormAfter(form: PasswordForm, callSucceeds: bool): (r: PasswordForm)
    ensures r == EMPTY_FORM || r == form
    ensures r == EMPTY_FORM && form != EMPTY_FORM ==> CheckPasswordChange(form).CallChangePassword? && callSucceeds
    ensures CheckPasswordChange(form).CallChangePassword? && callSucceeds ==> r == EMPTY_FORM
  {
    if CheckPasswordChange(form).CallChangePassword? && callSucceeds then EMPTY_FORM else form
  }

  /**
   * The session token after the handler: when the change went through, the
   * token the service returns is stored with the current user; a rejected
   * form or a failed call (`None`) keeps the stored token.
   */
  function TokenAfter(form: PasswordForm, stored: string, returned: Option<string>): (r: string)
    ensures CheckPasswordChange(form).CallChangePassword? && returned.Some? ==> r == returned.value
    ensures !CheckPasswordChange(form).CallChangePassword? || returned.None? ==> r == stored
  {
    if CheckPasswordChange(form).CallChangePassword? && returned.Some? then returned.value else stored
  }

  /** A form the handler cleared was a confirmed change, so the new token is the one stored. */
  lemma ClearedFormStoresNewToken(form: PasswordForm, stored: string, returned: Option<string>)
    requires form != EMPTY_FORM && FormAfter(form, returned.Some?) == EMPTY_FORM
    ensures returned.Some? && TokenAfter(form, stored, returned) == returned.value
  {
  }

  /** A mismatch is reported even when the new password is also too short: the checks run in order. */
  lemma MismatchReportedFirst(form: PasswordForm)
    requires form.newPassword != form.confirmPassword && |form.newPassword| < MIN_PASSWORD_LENGTH
    ensures CheckPasswordChange(form) == Reject(MISMATCH)
    ensures FormAfter(form, true) == form
  {
  }

  /** An empty form is never sent: its passwords agree but are too short. */
  lemma EmptyFormRejected()
    ensures CheckPasswordChange(EMPTY_FORM) == Reject(TOO_SHORT)
  {
  }
}
