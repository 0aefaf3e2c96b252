/** `pages/changePassword.tsx`: the three-field form that changes the signed-in
    user's password. The checks run one after another and the first failing one is
    the only error shown. */
module ChangePassword {
  import opened Options
  import opened Credentials

  const AllRequired: string := "Todos los campos son obligatorios"
  const Mismatch: string := "Las contraseñas no coinciden"
  const WeakPassword: string := "La contraseña debe tener mínimo 8 caracteres, 1 mayúscula y 1 caracter especial."
  const ChangeFailed: string := "Error al actualizar contraseña"
  const Changed: string := "Contraseña actualizada correctamente"

  /** The `data` record and the input names that address its fields. */
  datatype PasswordForm = PasswordForm(current: string, newPass: string, confirm: string)
  datatype Field = Current | NewPass | Confirm

  function Get(d: PasswordForm, f: Field): string {
    match f
    case Current => d.current
    case NewPass => d.newPass
    case Confirm => d.confirm
  }

  /** `{ ...data, [name]: value }`. */
  function WithField(d: PasswordForm, f: Field, v: string): PasswordForm {
    match f
    case Current => d.(current := v)
    case NewPass => d.(newPass := v)
    case Confirm => d.(confirm := v)
  }

  /** The spread sets the named field and keeps the others; a second write to the
      same field replaces the first. */
  lemma WithFieldLaws(d: PasswordForm, f: Field, g: Field, v: string, w: string)
    ensures Get(WithField(d, f, v), g) == if g == f then v else Get(d, g)
    ensures WithField(WithField(d, f, v), f, w) == WithField(d, f, w)
    ensures WithField(d, f, Get(d, f)) == d
  {
  }

  /** `handleSubmit`'s checks, in order: all fields filled, new password confirmed,
      new password strong. */
  function FirstError(d: PasswordForm): Option<string> {
    if d.current == "" || d.newPass == "" || d.confirm == "" then Some(AllRequired)
    else if d.newPass != d.confirm then Some(Mismatch)
    else if !ValidarContrasena(d.newPass) then Some(WeakPassword)
    else None
  }

  /** Which error the form shows: the missing-field error whenever a field is empty,
      the mismatch for filled differing fields whatever their strength, the strength
      error only for a confirmed weak password, and none exactly when the request
      can be made. */
  lemma FirstErrorCases(d: PasswordForm)
    ensures FirstError(d) == Some(AllRequired) <==> d.current == "" || d.newPass == "" || d.confirm == ""
    ensures FirstError(d) == Some(Mismatch) <==>
      d.current != "" && d.newPass != "" && d.confirm != "" && d.newPass != d.confirm
    ensures FirstError(d) == Some(WeakPassword) <==>
      d.current != "" && d.newPass != "" && d.newPass == d.confirm && !StrongPassword(d.newPass)
    ensures FirstError(d).None? <==> d.current != "" && d.newPass == d.confirm && StrongPassword(d.newPass)
  {
    assert |AllRequired| == 33 && |Mismatch| == 28 && |WeakPassword| == 80;
  }

  /** A `changePassword(email, current, new)` call. */
  datatype ChangeRequest = ChangeRequest(email: string, currentPassword: string, newPassword: string)

  class ChangePasswordPage {
    var data: PasswordForm
    var error: string

    constructor ()
      ensures data == PasswordForm("", "", "") && error == ""
    {
      data, error := PasswordForm("", "", ""), "";
    }

    /** `handleChange`: the named field takes the value and the error is cleared. */
    method HandleChange(f: Field, v: string)
      modifies this
      ensures data == WithField(old(data), f, v) && error == ""
    {
      data := WithField(data, f, v);
      error := "";
    }

    /** `handleSubmit` up to `changePassword`: the first failing check sets the error
        and stops; otherwise the request goes out with an empty e-mail. */
    method HandleSubmit() returns (request: Option<ChangeRequest>)
      modifies this
      ensures data == old(data)
      ensures FirstError(data).Some? ==> error == FirstError(data).value && request.None?
      ensures FirstError(data).None? ==>
        error == old(error) && request == Some(ChangeRequest("", data.current, data.newPass))
    {
      if data.current == "" || data.newPass == "" || data.confirm == "" {
        error := AllRequired;
        return None;
      }
      if data.newPass != data.confirm {
        error := Mismatch;
        return None;
      }
      if !ValidarContrasena(data.newPass) {
        error := WeakPassword;
        return None;
      }
      request := Some(ChangeRequest("", data.current, data.newPass));
    }

    /** After `changePassword` settles: success confirms and goes back to the
        profile; failure shows the error's message, or the generic one. */
    method SubmitFinished(outcome: Outcome<()>) returns (alert: Option<string>, nav: Option<string>)
      modifies this
      ensures data == old(data)
      ensures outcome.Success? ==> alert == Some(Changed) && nav == Some("/profile") && error == old(error)
      ensures outcome.Failure? ==> alert.None? && nav.None? && error == MessageOr(outcome.message, ChangeFailed)
    {
      if outcome.Success? {
        alert, nav := Some(Changed), Some("/profile");
      } else {
        alert, nav := None, None;
        error := MessageOr(outcome.message, ChangeFailed);
      }
    }
  }
}
