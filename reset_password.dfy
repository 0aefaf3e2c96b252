/** `pages/reset_password.tsx`: the reset form reached from the e-mailed link. The
    token comes from the link's query string; submitting checks the new password,
    its confirmation and the token, in that order, before the reset request. */
module ResetPassword {
  import opened Options
  import opened Credentials

  const TokenMissing: string := "Token inválido o ausente."
  const NewRequired: string := "La nueva contraseña es obligatoria."
  const WeakPassword: string := "La contraseña debe tener mínimo 8 caracteres, una mayúscula y un signo."
  const ConfirmRequired: string := "Debes confirmar tu nueva contraseña."
  const Mismatch: string := "Las contraseñas no coinciden."
  const TokenNotFound: string := "Token de restablecimiento no encontrado."
  const Updated: string := "¡Contraseña actualizada exitosamente!"

  /** The new-password check: required, then strong. */
  function NewPasswordError(nueva: string): Option<string> {
    if nueva == "" then Some(NewRequired)
    else if !ValidarContrasena(nueva) then Some(WeakPassword)
    else None
  }

  /** The confirmation check: required, then equal to the new password. */
  function ConfirmationError(nueva: string, confirmar: string): Option<string> {
    if confirmar == "" then Some(ConfirmRequired)
    else if nueva != confirmar then Some(Mismatch)
    else None
  }

  /** `!token`: no token, or an empty one. */
  function TokenError(token: Option<string>): Option<string> {
    if token.None? || token.value == "" then Some(TokenNotFound) else None
  }

  /** The errors `manejarSubmit` collects, in push order. */
  function ResetErrors(nueva: string, confirmar: string, token: Option<string>): seq<string> {
    NewPasswordError(nueva).ToSeq() + ConfirmationError(nueva, confirmar).ToSeq() + TokenError(token).ToSeq()
  }

  /** Each message is reported exactly in its own situation: "required" for an empty
      field only, the strength error only for a non-empty weak password, the mismatch
      only for a non-empty differing confirmation, and the token error only without
      a token. */
  lemma ResetErrorsReportEachCase(nueva: string, confirmar: string, token: Option<string>)
    ensures var r := ResetErrors(nueva, confirmar, token);
      && (NewRequired in r <==> nueva == "")
      && (WeakPassword in r <==> nueva != "" && !StrongPassword(nueva))
      && (ConfirmRequired in r <==> confirmar == "")
      && (Mismatch in r <==> confirmar != "" && confirmar != nueva)
      && (TokenNotFound in r <==> token.None? || token.value == "")
  {
    MessagesDistinct();
  }

  lemma MessagesDistinct()
    ensures |NewRequired| == 35 && |WeakPassword| == 71 && |ConfirmRequired| == 36
    ensures |Mismatch| == 29 && |TokenNotFound| == 40
  {
  }

  /** At most three errors, in the order new password, confirmation, token; none at
      all exactly when the password is strong, confirmed and the token present. */
  lemma ResetErrorsOrderAndBound(nueva: string, confirmar: string, token: Option<string>)
    ensures var r := ResetErrors(nueva, confirmar, token);
      && |r| <= 3
      && (NewPasswordError(nueva).Some? ==> r[0] == NewPasswordError(nueva).value)
      && (TokenError(token).Some? ==> r[|r| - 1] == TokenNotFound)
      && (r == [] <==> StrongPassword(nueva) && confirmar == nueva && token.Some? && token.value != "")
  {
  }

  /** The reset request body. */
  datatype ResetRequest = ResetRequest(token: string, newPassword: string)

  class ResetPasswordPage {
    var nuevaContrasena: string
    var confirmarContrasena: string
    var errores: seq<string>
    var mensaje: string
    var token: Option<string>
    var cargando: bool

    /** Mounting reads the link's `token` parameter: a missing or empty one leaves no
        token and the single "invalid or missing" error. */
    constructor (tokenFromUrl: Option<string>)
      ensures nuevaContrasena == "" && confirmarContrasena == "" && mensaje == "" && !cargando
      ensures tokenFromUrl.Some? && tokenFromUrl.value != "" ==> token == tokenFromUrl && errores == []
      ensures tokenFromUrl.None? || tokenFromUrl.value == "" ==> token.None? && errores == [TokenMissing]
    {
      nuevaContrasena, confirmarContrasena, mensaje, cargando := "", "", "", false;
      if tokenFromUrl.Some? && tokenFromUrl.value != "" {
        token, errores := tokenFromUrl, [];
      } else {
        token, errores := None, [TokenMissing];
      }
    }

    /** `manejarSubmit` up to `resetPassword`: any error is shown, the message cleared
        and nothing sent; otherwise loading starts and the token and new password are
        sent. */
    method ManejarSubmit() returns (request: Option<ResetRequest>)
      modifies this
      ensures var errs := ResetErrors(old(nuevaContrasena), old(confirmarContrasena), old(token));
        && (errs != [] ==> errores == errs && mensaje == "" && cargando == old(cargando) && request.None?)
        && (errs == [] ==>
              && errores == old(errores) && mensaje == old(mensaje) && cargando
              && request == Some(ResetRequest(old(token).value, old(nuevaContrasena))))
      ensures nuevaContrasena == old(nuevaContrasena) && confirmarContrasena == old(confirmarContrasena)
      ensures token == old(token)
    {
      var nuevosErrores: seq<string> := [];
      if nuevaContrasena == "" {
        nuevosErrores := nuevosErrores + [NewRequired];
      } else if !ValidarContrasena(nuevaContrasena) {
        nuevosErrores := nuevosErrores + [WeakPassword];
      }
      assert nuevosErrores == NewPasswordError(nuevaContrasena).ToSeq();
      if confirmarContrasena == "" {
        nuevosErrores := nuevosErrores + [ConfirmRequired];
      } else if nuevaContrasena != confirmarContrasena {
        nuevosErrores := nuevosErrores + [Mismatch];
      }
      assert nuevosErrores == NewPasswordError(nuevaContrasena).ToSeq()
        + ConfirmationError(nuevaContrasena, confirmarContrasena).ToSeq();
      if token.None? || token.value == "" {
        nuevosErrores := nuevosErrores + [TokenNotFound];
      }
      assert nuevosErrores == ResetErrors(nuevaContrasena, confirmarContrasena, token);
      if |nuevosErrores| > 0 {
        errores, mensaje := nuevosErrores, "";
        return None;
      }
      cargando := true;
      request := Some(ResetRequest(token.value, nuevaContrasena));
    }

    /** After `resetPassword` settles: success shows the confirmation, clears the
        errors and schedules the way back to sign-in; failure lists the error's
        message alone. Loading ends either way. */
    method ResetFinished(outcome: Outcome<()>) returns (redirect: Option<string>)
      modifies this
      ensures outcome.Success? ==> mensaje == Updated && errores == [] && redirect == Some("/sign_in")
      ensures outcome.Failure? ==> mensaje == old(mensaje) && errores == [outcome.message.GetOr("")] && redirect.None?
      ensures !cargando && token == old(token)
      ensures nuevaContrasena == old(nuevaContrasena) && confirmarContrasena == old(confirmarContrasena)
    {
      if outcome.Success? {
        mensaje, errores, redirect := Updated, [], Some("/sign_in");
      } else {
        errores, redirect := [outcome.message.GetOr("")], None;
      }
      cargando := false;
    }
  }
}
