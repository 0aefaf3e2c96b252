/** `pages/sign_up.tsx`: the registration form. Each field's `onChange` stores the new
    value, clears the field's custom validity message and sets it again when the value
    breaks that field's rule; the browser refuses to submit while any message is set.
    Submitting sends the fields, with the e-mail trimmed. */
module SignUp {
  import opened Options
  import opened Text
  import opened Patterns
  import opened Credentials

  const NameTooShort: string := "El nombre debe tener mínimo 3 caracteres."
  const LastNameTooShort: string := "El apellido debe tener mínimo 3 caracteres."
  const EmailNeedsAt: string := "Incluye un signo '@' en la dirección de correo electrónico."
  const PasswordTooWeak: string := "Debe tener 8 caracteres, una mayúscula y un símbolo especial."
  const Mismatch: string := "Las contraseñas no coinciden."
  const RegisterFailed: string := "Error en el registro"
  const Registered: string := "¡Registro exitoso!"

  /** The message a field's rule leaves on the element: empty when the value passes. */
  function NameValidity(v: string): string { if |v| < 3 then NameTooShort else "" }
  function LastNameValidity(v: string): string { if |v| < 3 then LastNameTooShort else "" }
  function EmailValidity(v: string): string { if !ValidarEmail(v) then EmailNeedsAt else "" }
  function PasswordValidity(v: string): string { if !ValidarContrasena(v) then PasswordTooWeak else "" }
  function ConfirmValidity(confirmar: string, contrasena: string): string {
    if confirmar != contrasena then Mismatch else ""
  }

  /** Each field is flagged exactly when its value breaks its rule: names under three
      characters, an e-mail the shared e-mail rule rejects, a password the shared
      password rule rejects, a confirmation different from the password. */
  lemma FieldRules(v: string, w: string)
    ensures NameValidity(v) == "" <==> |v| >= 3
    ensures LastNameValidity(v) == "" <==> |v| >= 3
    ensures EmailValidity(v) == "" <==> WellFormedEmail(v)
    ensures PasswordValidity(v) == "" <==> StrongPassword(v)
    ensures ConfirmValidity(v, w) == "" <==> v == w
  {
    assert |NameTooShort| > 0 && |LastNameTooShort| > 0 && |EmailNeedsAt| > 0;
    assert |PasswordTooWeak| > 0 && |Mismatch| > 0;
  }

  /** The `registerUser` payload. */
  datatype RegisterRequest = RegisterRequest(email: string, password: string, username: string, lastname: string, birthdate: string)

  class SignUpPage {
    var usuario: string
    var apellido: string
    var email: string
    var fechaNacimiento: string
    var contrasena: string
    var confirmarContrasena: string
    var errores: seq<string>

    /** The custom validity message of each input. */
    var usuarioValidity: string
    var apellidoValidity: string
    var emailValidity: string
    var fechaValidity: string
    var contrasenaValidity: string
    var confirmarValidity: string

    constructor ()
      ensures usuario == "" && apellido == "" && email == "" && fechaNacimiento == ""
      ensures contrasena == "" && confirmarContrasena == "" && errores == []
      ensures NoCustomErrors() && ConfirmationConsistent()
    {
      usuario, apellido, email, fechaNacimiento := "", "", "", "";
      contrasena, confirmarContrasena, errores := "", "", [];
      usuarioValidity, apellidoValidity, emailValidity := "", "", "";
      fechaValidity, contrasenaValidity, confirmarValidity := "", "", "";
    }

    /** No input carries a custom message, so the browser lets the form submit. */
    predicate NoCustomErrors()
      reads this
    {
      && usuarioValidity == "" && apellidoValidity == "" && emailValidity == ""
      && fechaValidity == "" && contrasenaValidity == "" && confirmarValidity == ""
    }

    /** The confirmation is flagged exactly when it differs from the password. */
    predicate ConfirmationConsistent()
      reads this
    {
      confirmarValidity == "" <==> confirmarContrasena == contrasena
    }

    method OnNameChange(v: string)
      modifies this
      ensures usuario == v && usuarioValidity == NameValidity(v)
      ensures apellido == old(apellido) && email == old(email) && fechaNacimiento == old(fechaNacimiento)
      ensures contrasena == old(contrasena) && confirmarContrasena == old(confirmarContrasena)
      ensures apellidoValidity == old(apellidoValidity) && emailValidity == old(emailValidity)
      ensures fechaValidity == old(fechaValidity) && contrasenaValidity == old(contrasenaValidity)
      ensures confirmarValidity == old(confirmarValidity) && errores == old(errores)
    {
      usuario := v;
      usuarioValidity := "";
      if |v| < 3 {
        usuarioValidity := NameTooShort;
      }
    }

    method OnLastNameChange(v: string)
      modifies this
      ensures apellido == v && apellidoValidity == LastNameValidity(v)
      ensures usuario == old(usuario) && email == old(email) && fechaNacimiento == old(fechaNacimiento)
      ensures contrasena == old(contrasena) && confirmarContrasena == old(confirmarContrasena)
      ensures usuarioValidity == old(usuarioValidity) && emailValidity == old(emailValidity)
      ensures fechaValidity == old(fechaValidity) && contrasenaValidity == old(contrasenaValidity)
      ensures confirmarValidity == old(confirmarValidity) && errores == old(errores)
    {
      apellido := v;
      apellidoValidity := "";
      if |v| < 3 {
        apellidoValidity := LastNameTooShort;
      }
    }

    method OnEmailChange(v: string)
      modifies this
      ensures email == v && emailValidity == EmailValidity(v)
      ensures usuario == old(usuario) && apellido == old(apellido) && fechaNacimiento == old(fechaNacimiento)
      ensures contrasena == old(contrasena) && confirmarContrasena == old(confirmarContrasena)
      ensures usuarioValidity == old(usuarioValidity) && apellidoValidity == old(apellidoValidity)
      ensures fechaValidity == old(fechaValidity) && contrasenaValidity == old(contrasenaValidity)
      ensures confirmarValidity == old(confirmarValidity) && errores == old(errores)
    {
      email := v;
      emailValidity := "";
      if !ValidarEmail(v) {
        emailValidity := EmailNeedsAt;
      }
    }

    /** The date input only clears its message. */
    method OnBirthdateChange(v: string)
      modifies this
      ensures fechaNacimiento == v && fechaValidity == ""
      ensures usuario == old(usuario) && apellido == old(apellido) && email == old(email)
      ensures contrasena == old(contrasena) && confirmarContrasena == old(confirmarContrasena)
      ensures usuarioValidity == old(usuarioValidity) && apellidoValidity == old(apellidoValidity)
      ensures emailValidity == old(emailValidity) && contrasenaValidity == old(contrasenaValidity)
      ensures confirmarValidity == old(confirmarValidity) && errores == old(errores)
    {
      fechaNacimiento := v;
      fechaValidity := "";
    }

    /** The password's `onChange` as written: only the password's own message is
        recomputed, so the confirmation keeps the verdict it got against the previous
        password. */
    method OnPasswordChange(v: string)
      modifies this
      ensures contrasena == v && contrasenaValidity == PasswordValidity(v)
      ensures confirmarContrasena == old(confirmarContrasena) && confirmarValidity == old(confirmarValidity)
      ensures usuario == old(usuario) && apellido == old(apellido) && email == old(email)
      ensures fechaNacimiento == old(fechaNacimiento) && errores == old(errores)
      ensures usuarioValidity == old(usuarioValidity) && apellidoValidity == old(apellidoValidity)
      ensures emailValidity == old(emailValidity) && fechaValidity == old(fechaValidity)
    {
      contrasena := v;
      contrasenaValidity := "";
      if !ValidarContrasena(v) {
        contrasenaValidity := PasswordTooWeak;
      }
    }

    /** The password's `onChange` with the confirmation checked again against the new
        password, which keeps the confirmation's verdict current. */
    method OnPasswordChangeRechecked(v: string)
      modifies this
      ensures contrasena == v && contrasenaValidity == PasswordValidity(v)
      ensures confirmarContrasena == old(confirmarContrasena)
      ensures confirmarValidity == ConfirmValidity(confirmarContrasena, v)
      ensures ConfirmationConsistent()
      ensures usuario == old(usuario) && apellido == old(apellido) && email == old(email)
      ensures fechaNacimiento == old(fechaNacimiento) && errores == old(errores)
      ensures usuarioValidity == old(usuarioValidity) && apellidoValidity == old(apellidoValidity)
      ensures emailValidity == old(emailValidity) && fechaValidity == old(fechaValidity)
    {
      OnPasswordChange(v);
      confirmarValidity := "";
      if confirmarContrasena != contrasena {
        confirmarValidity := Mismatch;
      }
      FieldRules(confirmarContrasena, v);
    }

    /** The confirmation's `onChange`: flagged when it differs from the password. */
    method OnConfirmChange(v: string)
      modifies this
      ensures confirmarContrasena == v && confirmarValidity == ConfirmValidity(v, contrasena)
      ensures ConfirmationConsistent()
      ensures contrasena == old(contrasena) && contrasenaValidity == old(contrasenaValidity)
      ensures usuario == old(usuario) && apellido == old(apellido) && email == old(email)
      ensures fechaNacimiento == old(fechaNacimiento) && errores == old(errores)
      ensures usuarioValidity == old(usuarioValidity) && apellidoValidity == old(apellidoValidity)
      ensures emailValidity == old(emailValidity) && fechaValidity == old(fechaValidity)
    {
      confirmarContrasena := v;
      confirmarValidity := "";
      if v != contrasena {
        confirmarValidity := Mismatch;
      }
      FieldRules(v, contrasena);
    }

    /** `manejarSubmit` up to `registerUser`: the errors are cleared and the fields
        sent, the e-mail trimmed and everything else as typed. */
    method ManejarSubmit() returns (request: RegisterRequest)
      modifies this
      ensures errores == []
      ensures request == RegisterRequest(Trim(email), contrasena, usuario, apellido, fechaNacimiento)
      ensures usuario == old(usuario) && apellido == old(apellido) && email == old(email)
      ensures fechaNacimiento == old(fechaNacimiento) && contrasena == old(contrasena)
      ensures confirmarContrasena == old(confirmarContrasena)
    {
      errores := [];
      request := RegisterRequest(Trim(email), contrasena, usuario, apellido, fechaNacimiento);
    }

    /** After `registerUser` settles: success greets and goes to sign-in; failure
        lists the error's message, or the generic one. */
    method RegisterFinished(outcome: Outcome<()>) returns (alert: Option<string>, nav: Option<string>)
      modifies this
      ensures outcome.Success? ==> alert == Some(Registered) && nav == Some("/sign_in") && errores == old(errores)
      ensures outcome.Failure? ==> alert.None? && nav.None? && errores == [MessageOr(outcome.message, RegisterFailed)]
      ensures usuario == old(usuario) && apellido == old(apellido) && email == old(email)
      ensures fechaNacimiento == old(fechaNacimiento) && contrasena == old(contrasena)
      ensures confirmarContrasena == old(confirmarContrasena)
    {
      if outcome.Success? {
        alert, nav := Some(Registered), Some("/sign_in");
      } else {
        alert, nav := None, None;
        errores := [MessageOr(outcome.message, RegisterFailed)];
      }
    }
  }

  /** The sequence that shows the stale confirmation: type a strong password,
      confirm it, then change the password. Every input is then free of messages and
      the form can be submitted, although the two passwords differ. */
  method StaleConfirmationWitness() returns (contrasena: string, confirmar: string, submittable: bool)
    ensures contrasena != confirmar && submittable
  {
    var first, second := "Abcdefg!", "Xbcdefg!";
    StrongWitness(first);
    StrongWitness(second);
    assert PasswordValidity(first) == "" && PasswordValidity(second) == "";
    assert first != second by { assert first[0] != second[0]; }
    var page := FilledPage();
    page.OnPasswordChange(first);
    page.OnConfirmChange(first);
    page.OnPasswordChange(second);
    contrasena, confirmar, submittable := page.contrasena, page.confirmarContrasena, page.NoCustomErrors();
  }

  /** A fresh form whose name, last name, e-mail and birth date hold values their
      rules accept. */
  method FilledPage() returns (page: SignUpPage)
    ensures fresh(page) && page.NoCustomErrors()
    ensures page.contrasena == "" && page.confirmarContrasena == ""
  {
    page := new SignUpPage();
    page.OnNameChange("Juan");
    page.OnLastNameChange("Pérez");
    assert WellFormedEmail("juan@correo.com") by {
      PatternGivesWellFormed("juan@correo.com", 4, 11);
    }
    page.OnEmailChange("juan@correo.com");
    page.OnBirthdateChange("2000-01-01");
  }

  /** With the rechecking handler the same edits leave the confirmation flagged, so
      the form cannot be submitted with differing passwords. */
  method RecheckedConfirmationWitness() returns (contrasena: string, confirmar: string, submittable: bool)
    ensures contrasena != confirmar && !submittable
  {
    var first, second := "Abcdefg!", "Xbcdefg!";
    assert first != second by { assert first[0] != second[0]; }
    var page := new SignUpPage();
    page.OnPasswordChangeRechecked(first);
    page.OnConfirmChange(first);
    page.OnPasswordChangeRechecked(second);
    contrasena, confirmar, submittable := page.contrasena, page.confirmarContrasena, page.NoCustomErrors();
  }

  lemma StrongWitness(p: string)
    requires |p| == 8 && 'A' <= p[0] <= 'Z' && p[7] == '!'
    requires forall i :: 0 <= i < |p| ==> !IsLineTerminator(p[i])
    ensures StrongPassword(p)
  {
    assert InClass(p[0], Upper);
    assert InClass(p[7], Special);
  }
}
