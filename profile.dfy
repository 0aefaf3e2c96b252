/** `pages/profile.tsx`: the profile editor. Saving checks a new password, when one
    was typed, before anything is sent; then it changes the password, updates the
    profile and merges the sent fields into the shown profile. */
module Profile {
  import opened Options
  import opened Text
  import opened Credentials

  const Mismatch: string := "Passwords do not match."
  const WeakPassword: string := "The password must be at least 8 characters long, contain one uppercase letter and one special character."
  const Saved: string := "Cambios guardados exitosamente"

  /** The loaded profile. `lastname` is the key the save merge adds next to
      `apellido`: absent until a save succeeds. */
  datatype UserData = UserData(id: string, email: string, username: string, apellido: string, birthdate: string, lastname: Option<string>)

  /** The editable copy of the profile. */
  datatype FormData = FormData(id: string, email: string, username: string, apellido: string, birthdate: string)

  /** The `updateProfile` payload. */
  datatype UpdatedInfo = UpdatedInfo(username: string, lastname: string, email: string, birthdate: string)

  datatype PasswordData = PasswordData(newPassword: string, confirmPassword: string)
  datatype PasswordField = NewPassword | ConfirmPassword

  datatype ShowPasswords = ShowPasswords(showNew: bool, showConfirm: bool)
  datatype VisibilityField = New | Confirm

  /** `{ ...prev, [name]: value }` on the password fields. */
  function WithPassword(pd: PasswordData, f: PasswordField, v: string): PasswordData {
    match f
    case NewPassword => pd.(newPassword := v)
    case ConfirmPassword => pd.(confirmPassword := v)
  }

  /** `{ ...prev, [field]: !prev[field] }`. */
  function Toggled(s: ShowPasswords, f: VisibilityField): ShowPasswords {
    match f
    case New => s.(showNew := !s.showNew)
    case Confirm => s.(showConfirm := !s.showConfirm)
  }

  /** Toggling flips the chosen field only, and toggling it twice restores it. */
  lemma ToggledFlipsOnlyThatField(s: ShowPasswords, f: VisibilityField)
    ensures f == New ==> Toggled(s, f).showNew == !s.showNew && Toggled(s, f).showConfirm == s.showConfirm
    ensures f == Confirm ==> Toggled(s, f).showConfirm == !s.showConfirm && Toggled(s, f).showNew == s.showNew
    ensures Toggled(Toggled(s, f), f) == s
  {
  }

  /** A password change is attempted when either password field holds text. */
  predicate ChangesPassword(pd: PasswordData) {
    pd.newPassword != "" || pd.confirmPassword != ""
  }

  /** The password checks of `handleSave`: skipped when both fields are empty;
      otherwise the mismatch first, then the strength. */
  function PasswordError(pd: PasswordData): Option<string> {
    if !ChangesPassword(pd) then None
    else if pd.newPassword != pd.confirmPassword then Some(Mismatch)
    else if !ValidarContrasena(pd.newPassword) then Some(WeakPassword)
    else None
  }

  /** No error for untouched password fields; the mismatch whenever the fields
      differ, whatever their strength; the strength error only for a confirmed weak
      password; and a password is sent only when it is confirmed and strong. */
  lemma PasswordErrorCases(pd: PasswordData)
    ensures !ChangesPassword(pd) ==> PasswordError(pd).None?
    ensures PasswordError(pd) == Some(Mismatch) <==> pd.newPassword != pd.confirmPassword
    ensures PasswordError(pd) == Some(WeakPassword) <==>
      pd.newPassword == pd.confirmPassword && pd.newPassword != "" && !StrongPassword(pd.newPassword)
    ensures ChangesPassword(pd) && PasswordError(pd).None? <==>
      pd.newPassword == pd.confirmPassword && StrongPassword(pd.newPassword)
  {
    assert |Mismatch| == 23 && |WeakPassword| == 104;
  }

  /** The payload built from the form. */
  function UpdatedInfoOf(f: FormData): UpdatedInfo {
    UpdatedInfo(f.username, f.apellido, f.email, f.birthdate)
  }

  /** `{ ...userData, ...updatedInfo }`. */
  function Merge(u: UserData, info: UpdatedInfo): UserData {
    u.(username := info.username, email := info.email, birthdate := info.birthdate, lastname := Some(info.lastname))
  }

  /** After a save `userData` carries the form's user name, e-mail and birth date and
      keeps its id; the form's last name lands under a new `lastname` key, so
      `userData.apellido` keeps its loaded value. The page renders only `formData`,
      so the edited last name stays on screen; nothing on the page reads `userData`. */
  lemma MergeFromForm(u: UserData, f: FormData)
    ensures var m := Merge(u, UpdatedInfoOf(f));
      && m.id == u.id && m.username == f.username && m.email == f.email && m.birthdate == f.birthdate
      && m.lastname == Some(f.apellido) && m.apellido == u.apellido
    ensures Merge(Merge(u, UpdatedInfoOf(f)), UpdatedInfoOf(f)) == Merge(u, UpdatedInfoOf(f))
  {
  }

  /** The value shown in the date input: the part before the first `T`, or nothing. */
  function BirthdateDisplay(b: string): (r: string)
    ensures |r| <= |b| && r == b[..|r|] && 'T' !in r
  {
    if b == "" then "" else PrefixBefore(b, 'T')
  }

  /** An ISO timestamp is shown as its date part; a plain date is shown unchanged. */
  lemma BirthdateDisplayParts(date: string, time: string)
    requires 'T' !in date
    ensures BirthdateDisplay(date + "T" + time) == date
    ensures BirthdateDisplay(date) == date
  {
    PrefixBeforeAppend(date, "T" + time, 'T');
    assert date + "T" + time == date + ("T" + time);
  }

  /** The backend calls a save makes, in order. */
  datatype BackendCall =
    | ChangePasswordCall(email: string, currentPassword: string, newPassword: string)
    | UpdateProfileCall(info: UpdatedInfo)

  class ProfilePage {
    var userData: UserData
    var formData: FormData
    var passwordData: PasswordData
    var showPasswords: ShowPasswords
    var passwordError: string

    constructor (loaded: FormData)
      ensures userData == UserData(loaded.id, loaded.email, loaded.username, loaded.apellido, loaded.birthdate, None)
      ensures formData == loaded
      ensures passwordData == PasswordData("", "") && showPasswords == ShowPasswords(false, false)
      ensures passwordError == ""
    {
      userData := UserData(loaded.id, loaded.email, loaded.username, loaded.apellido, loaded.birthdate, None);
      formData := loaded;
      passwordData, showPasswords, passwordError := PasswordData("", ""), ShowPasswords(false, false), "";
    }

    /** `handlePasswordChange`: the named field takes the value and the error is cleared. */
    method HandlePasswordChange(f: PasswordField, v: string)
      modifies this
      ensures passwordData == WithPassword(old(passwordData), f, v) && passwordError == ""
      ensures userData == old(userData) && formData == old(formData) && showPasswords == old(showPasswords)
    {
      passwordData := WithPassword(passwordData, f, v);
      passwordError := "";
    }

    /** `togglePasswordVisibility`. */
    method TogglePasswordVisibility(f: VisibilityField)
      modifies this
      ensures showPasswords == Toggled(old(showPasswords), f)
      ensures userData == old(userData) && formData == old(formData)
      ensures passwordData == old(passwordData) && passwordError == old(passwordError)
    {
      showPasswords := Toggled(showPasswords, f);
    }

    /** `handleSave`, given how its backend calls settle. A password error stops it
        before any call. Otherwise a typed password is sent first, paired with an
        empty current password, and the profile update follows; the first call that
        fails ends the save with an alert. Only when every call succeeds is the
        profile merged and the password fields and error cleared. */
    method HandleSave(passwordOutcome: Outcome<()>, updateOutcome: Outcome<()>)
      returns (calls: seq<BackendCall>, alert: Option<string>)
      modifies this
      ensures formData == old(formData) && showPasswords == old(showPasswords)
      ensures var pd := old(passwordData);
        var pwCall := if ChangesPassword(pd) then [ChangePasswordCall(formData.email, "", pd.newPassword)] else [];
        var pwFails := ChangesPassword(pd) && passwordOutcome.Failure?;
        && (PasswordError(pd).Some? ==>
              calls == [] && alert.None? && passwordError == PasswordError(pd).value
              && userData == old(userData) && passwordData == pd)
        && (PasswordError(pd).None? && pwFails ==>
              calls == pwCall && alert == Some(FailedAlert(passwordOutcome.message))
              && userData == old(userData) && passwordData == pd && passwordError == old(passwordError))
        && (PasswordError(pd).None? && !pwFails && updateOutcome.Failure? ==>
              calls == pwCall + [UpdateProfileCall(UpdatedInfoOf(formData))]
              && alert == Some(FailedAlert(updateOutcome.message))
              && userData == old(userData) && passwordData == pd && passwordError == old(passwordError))
        && (PasswordError(pd).None? && !pwFails && updateOutcome.Success? ==>
              calls == pwCall + [UpdateProfileCall(UpdatedInfoOf(formData))]
              && alert == Some(Saved)
              && userData == Merge(old(userData), UpdatedInfoOf(formData))
              && passwordData == PasswordData("", "") && passwordError == "")
    {
      calls := [];
      var newPassword, confirmPassword := passwordData.newPassword, passwordData.confirmPassword;
      if newPassword != "" || confirmPassword != "" {
        if newPassword != confirmPassword {
          passwordError := Mismatch;
          return [], None;
        }
        if !ValidarContrasena(newPassword) {
          passwordError := WeakPassword;
          return [], None;
        }
        calls := calls + [ChangePasswordCall(formData.email, "", newPassword)];
        if passwordOutcome.Failure? {
          return calls, Some(FailedAlert(passwordOutcome.message));
        }
      }
      var updatedInfo := UpdatedInfo(formData.username, formData.apellido, formData.email, formData.birthdate);
      calls := calls + [UpdateProfileCall(updatedInfo)];
      if updateOutcome.Failure? {
        return calls, Some(FailedAlert(updateOutcome.message));
      }
      userData := Merge(userData, updatedInfo);
      passwordData := PasswordData("", "");
      passwordError := "";
      alert := Some(Saved);
    }
  }

  /** The failure alert, with the error's message as a template literal prints it. */
  function FailedAlert(message: Option<string>): string {
    "Failed to save changes: " + message.GetOr("undefined")
  }
}
