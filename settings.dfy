// The settings page's change-password form: its validation, the save gate
// and what a failed change shows, and the field handlers.
module Settings {
  import opened Wrappers
  import opened Strings
  import opened FormErrors

  const MIN_PASSWORD := 6

  const OLD_REQUIRED := "Please enter your current password"
  const NEW_REQUIRED := "Please enter a new password"
  const NEW_TOO_SHORT := "Password must be at least 6 characters"
  const CONFIRM_REQUIRED := "Please confirm your new password"
  const MISMATCH := "Passwords do not match"

  const INCORRECT := "Current password is incorrect"
  const TOO_SHORT_MARK := "New password must be minimum"
  const SESSION_MARK := "Session expired"
  const SESSION_ALERT := "Your session has expired. Please refresh the page and log in again."
  const CHANGED_ALERT := "Password changed successfully!"
  const FAILED_PREFIX := "Failed to change password: "

  /** The account field whose editor opens the password form. */
  const PASSWORD_FIELD := "password"

  /** The inputs of the password form. */
  datatype PasswordField = OldPassword | NewPassword | ConfirmPassword

  datatype PasswordForm = PasswordForm(oldPassword: string, newPassword: string, confirmPassword: string)
  {
    function Get(f: PasswordField): string {
      match f
      case OldPassword => oldPassword
      case NewPassword => newPassword
      case ConfirmPassword => confirmPassword
    }

    /** `{ ...prev, [field]: value }` */
    function With(f: PasswordField, value: string): (r: PasswordForm)
      ensures forall g :: r.Get(g) == if g == f then value else Get(g)
    {
      match f
      case OldPassword => this.(oldPassword := value)
      case NewPassword => this.(newPassword := value)
      case ConfirmPassword => this.(confirmPassword := value)
    }
  }

  /** The form as it opens and as every reset leaves it. */
  const EMPTY_FORM := PasswordForm("", "", "")

  /** The error record: at most one message per input. */
  datatype PasswordErrors = PasswordErrors(oldPassword: Option<string>, newPassword: Option<string>,
                                           confirmPassword: Option<string>)
  {
    /** `Object.keys(errors).length === 0` */
    predicate Empty() {
      oldPassword.None? && newPassword.None? && confirmPassword.None?
    }

    function Get(f: PasswordField): Option<string> {
      match f
      case OldPassword => oldPassword
      case NewPassword => newPassword
      case ConfirmPassword => confirmPassword
    }

    /** `{ ...prev, [field]: '' }` when that message is shown. */
    function ClearField(f: PasswordField): (r: PasswordErrors)
      ensures forall g :: r.Get(g) == if g == f then Cleared(Get(f)) else Get(g)
    {
      match f
      case OldPassword => this.(oldPassword := Cleared(oldPassword))
      case NewPassword => this.(newPassword := Cleared(newPassword))
      case ConfirmPassword => this.(confirmPassword := Cleared(confirmPassword))
    }
  }

  const NO_ERRORS := PasswordErrors(None, None, None)

  /** The current password must be given (`!value` tests for the empty string, without trimming). */
  function OldPasswordError(old_: string): (r: Option<string>)
    ensures r.None? <==> old_ != ""
  {
    if old_ == "" then Some(OLD_REQUIRED) else None
  }

  /** The new password must be given and have at least 6 characters. */
  function NewPasswordError(new_: string): (r: Option<string>)
    ensures r.None? <==> |new_| >= MIN_PASSWORD
    ensures r == Some(NEW_TOO_SHORT) <==> 0 < |new_| < MIN_PASSWORD
  {
    if new_ == "" then Some(NEW_REQUIRED)
    else if |new_| < MIN_PASSWORD then Some(NEW_TOO_SHORT)
    else None
  }

  /** The confirmation must be given and equal the new password. */
  function ConfirmError(new_: string, confirm: string): (r: Option<string>)
    ensures r.None? <==> confirm != "" && confirm == new_
    ensures r == Some(MISMATCH) <==> confirm != "" && confirm != new_
  {
    if confirm == "" then Some(CONFIRM_REQUIRED)
    else if new_ != confirm then Some(MISMATCH)
    else None
  }

  /** The record `validatePassword` builds. */
  function ValidatePassword(form: PasswordForm): PasswordErrors {
    PasswordErrors(OldPasswordError(form.oldPassword), NewPasswordError(form.newPassword),
                   ConfirmError(form.newPassword, form.confirmPassword))
  }

  /** The form is accepted exactly when the current password is given and the new one is long enough and confirmed. */
  lemma ValidIffRulesHold(form: PasswordForm)
    ensures ValidatePassword(form).Empty() <==>
              form.oldPassword != "" && |form.newPassword| >= MIN_PASSWORD &&
              form.confirmPassword == form.newPassword
  {
  }

  /** A freshly opened form reports all three inputs as missing. */
  lemma EmptyFormRejected()
    ensures ValidatePassword(EMPTY_FORM) == PasswordErrors(Some(OLD_REQUIRED), Some(NEW_REQUIRED), Some(CONFIRM_REQUIRED))
  {
  }

  /** The error record a failed change leaves: a message the server gave for one input, else nothing. */
  function FailureErrors(message: string): (r: PasswordErrors)
    ensures r.confirmPassword.None?
    ensures r.oldPassword.Some? <==> Contains(message, INCORRECT)
    ensures r.oldPassword.Some? ==> r.oldPassword.value == INCORRECT && r.newPassword.None?
    ensures r.newPassword.Some? <==> !Contains(message, INCORRECT) && Contains(message, TOO_SHORT_MARK)
    ensures r.newPassword.Some? ==> r.newPassword.value == message
  {
    if Contains(message, INCORRECT) then NO_ERRORS.(oldPassword := Some(INCORRECT))
    else if Contains(message, TOO_SHORT_MARK) then NO_ERRORS.(newPassword := Some(message))
    else NO_ERRORS
  }

  /** The alert a failed change raises, when no input shows the failure. */
  function FailureAlert(message: string): (r: Option<string>)
    ensures r.Some? <==> FailureErrors(message).Empty()
    ensures r.Some? && Contains(message, SESSION_MARK) ==> r.value == SESSION_ALERT
    ensures r.Some? && !Contains(message, SESSION_MARK) ==> r.value == FAILED_PREFIX + message
  {
    if Contains(message, INCORRECT) || Contains(message, TOO_SHORT_MARK) then None
    else if Contains(message, SESSION_MARK) then Some(SESSION_ALERT)
    else Some(FAILED_PREFIX + message)
  }

  /** What the change-password request ended with. */
  datatype ChangeOutcome = Changed | ChangeFailed(message: string)

  /** The settings page's state. */
  class SettingsPanel {
    /** The account field whose editor is open. */
    var editingField: Option<string>
    var passwordForm: PasswordForm
    var passwordErrors: PasswordErrors
    var isChangingPassword: bool
    /** Every change-password request, as (current, new) password. */
    var requests: seq<(string, string)>

    constructor ()
      ensures editingField.None? && passwordForm == EMPTY_FORM && passwordErrors == NO_ERRORS
      ensures !isChangingPassword && requests == []
    {
      editingField, passwordForm, passwordErrors := None, EMPTY_FORM, NO_ERRORS;
      isChangingPassword, requests := false, [];
    }

    /** `handleEdit(field)`: opens the field's editor; the password editor opens on an empty form. */
    method HandleEdit(field: string)
      modifies this`editingField, this`passwordForm, this`passwordErrors
      ensures editingField == Some(field)
      ensures field == PASSWORD_FIELD ==> passwordForm == EMPTY_FORM && passwordErrors == NO_ERRORS
      ensures field != PASSWORD_FIELD ==> passwordForm == old(passwordForm) && passwordErrors == old(passwordErrors)
    {
      editingField := Some(field);
      if field == PASSWORD_FIELD {
        passwordForm, passwordErrors := EMPTY_FORM, NO_ERRORS;
      }
    }

    /** `validatePassword`: the messages are collected input by input into a new record. */
    method ValidatePasswordForm() returns (valid: bool)
      modifies this`passwordErrors
      ensures passwordErrors == ValidatePassword(passwordForm)
      ensures valid <==> passwordErrors.Empty()
    {
      var form := passwordForm;
      var errors := NO_ERRORS;
      if form.oldPassword == "" {
        errors := errors.(oldPassword := Some(OLD_REQUIRED));
      }
      if form.newPassword == "" {
        errors := errors.(newPassword := Some(NEW_REQUIRED));
      } else if |form.newPassword| < MIN_PASSWORD {
        errors := errors.(newPassword := Some(NEW_TOO_SHORT));
      }
      if form.confirmPassword == "" {
        errors := errors.(confirmPassword := Some(CONFIRM_REQUIRED));
      } else if form.newPassword != form.confirmPassword {
        errors := errors.(confirmPassword := Some(MISMATCH));
      }
      passwordErrors := errors;
      valid := errors.Empty();
    }

    /**
     * `handleSave(field)` with the request settled: only the password field
     * saves, and only a form that validates is sent. Success closes the
     * editor on an empty form; a failure keeps the form and shows the
     * server's message on an input or in an alert.
     */
    method HandleSave(field: string, outcome: ChangeOutcome) returns (requested: bool, alert: Option<string>)
      modifies this`editingField, this`passwordForm, this`passwordErrors, this`isChangingPassword, this`requests
      ensures requested <==> field == PASSWORD_FIELD && ValidatePassword(old(passwordForm)).Empty()
      ensures requested ==> requests == old(requests) + [(old(passwordForm).oldPassword, old(passwordForm).newPassword)]
      ensures !requested ==>
                requests == old(requests) && alert.None? && passwordForm == old(passwordForm) &&
                editingField == old(editingField) && isChangingPassword == old(isChangingPassword)
      ensures field != PASSWORD_FIELD ==> passwordErrors == old(passwordErrors)
      ensures field == PASSWORD_FIELD && !requested ==> passwordErrors == ValidatePassword(old(passwordForm))
      ensures requested && outcome.Changed? ==>
                editingField.None? && passwordForm == EMPTY_FORM && passwordErrors == NO_ERRORS &&
                alert == Some(CHANGED_ALERT) && !isChangingPassword
      ensures requested && outcome.ChangeFailed? ==>
                editingField == old(editingField) && passwordForm == old(passwordForm) &&
                passwordErrors == FailureErrors(outcome.message) && alert == FailureAlert(outcome.message) &&
                !isChangingPassword
    {
      requested, alert := false, None;
      if field == PASSWORD_FIELD {
        requested := ValidatePasswordForm();
        if requested {
          isChangingPassword := true;
          requests := requests + [(passwordForm.oldPassword, passwordForm.newPassword)];
          alert := Settle(outcome);
          isChangingPassword := false;
        }
      }
    }

    /** The request's two endings, after a valid form left no errors. */
    method Settle(outcome: ChangeOutcome) returns (alert: Option<string>)
      requires passwordErrors == NO_ERRORS
      modifies this`editingField, this`passwordForm, this`passwordErrors
      ensures outcome.Changed? ==>
                editingField.None? && passwordForm == EMPTY_FORM && passwordErrors == NO_ERRORS && alert == Some(CHANGED_ALERT)
      ensures outcome.ChangeFailed? ==>
                editingField == old(editingField) && passwordForm == old(passwordForm) &&
                passwordErrors == FailureErrors(outcome.message) && alert == FailureAlert(outcome.message)
    {
      match outcome {
        case Changed =>
          editingField, passwordForm, passwordErrors := None, EMPTY_FORM, NO_ERRORS;
          alert := Some(CHANGED_ALERT);
        case ChangeFailed(message) =>
          if Contains(message, INCORRECT) {
            passwordErrors := NO_ERRORS.(oldPassword := Some(INCORRECT));
            alert := None;
          } else if Contains(message, TOO_SHORT_MARK) {
            passwordErrors := NO_ERRORS.(newPassword := Some(message));
            alert := None;
          } else if Contains(message, SESSION_MARK) {
            alert := Some(SESSION_ALERT);
          } else {
            alert := Some(FAILED_PREFIX + message);
          }
      }
    }

    /** `handleCancel`: closes the editor on an empty form with no errors. */
    method HandleCancel()
      modifies this`editingField, this`passwordForm, this`passwordErrors
      ensures editingField.None? && passwordForm == EMPTY_FORM && passwordErrors == NO_ERRORS
    {
      editingField, passwordForm, passwordErrors := None, EMPTY_FORM, NO_ERRORS;
    }

    /** `handlePasswordChange`: the input takes the value, and only that input's shown message is cleared. */
    method HandlePasswordChange(field: PasswordField, value: string)
      modifies this`passwordForm, this`passwordErrors
      ensures passwordForm == old(passwordForm).With(field, value)
      ensures passwordErrors == old(passwordErrors).ClearField(field)
    {
      passwordForm := passwordForm.With(field, value);
      var shown := passwordErrors.Get(field);
      if shown.Some? && shown.value != "" {
        passwordErrors := passwordErrors.ClearField(field);
      }
    }
  }
}
