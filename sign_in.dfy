/** `pages/sign_in.tsx`: e-mail and password sign-in. Submitting checks the e-mail,
    then the password; a clean form is sent and a successful answer stores the
    session in `localStorage`. */
module SignIn {
  import opened Options
  import opened Storage
  import opened Credentials

  const EmailRequired: string := "El correo electrónico es obligatorio."
  const EmailInvalid: string := "Debes ingresar un correo electrónico válido."
  const PasswordRequired: string := "La contraseña es obligatoria."
  const WeakPassword: string := "La contraseña debe tener mínimo 8 caracteres, una mayúscula y un signo."
  const LoginFailed: string := "Credenciales inválidas."
  const Welcome: string := "Inicio de sesión exitoso"

  function EmailError(usuario: string): Option<string> {
    if usuario == "" then Some(EmailRequired)
    else if !ValidarEmail(usuario) then Some(EmailInvalid)
    else None
  }

  function PasswordError(contrasena: string): Option<string> {
    if contrasena == "" then Some(PasswordRequired)
    else if !ValidarContrasena(contrasena) then Some(WeakPassword)
    else None
  }

  /** The errors `manejarSubmit` collects, in push order. */
  function SignInErrors(usuario: string, contrasena: string): seq<string> {
    EmailError(usuario).ToSeq() + PasswordError(contrasena).ToSeq()
  }

  lemma MessagesDistinct()
    ensures |EmailRequired| == 37 && |EmailInvalid| == 44
    ensures |PasswordRequired| == 29 && |WeakPassword| == 71
  {
  }

  /** Each message is reported exactly in its own situation, at most one per field,
      the e-mail's first; the form is clean exactly when the address is well formed
      and the password strong. */
  lemma SignInErrorsCases(usuario: string, contrasena: string)
    ensures var r := SignInErrors(usuario, contrasena);
      && |r| <= 2
      && (EmailRequired in r <==> usuario == "")
      && (EmailInvalid in r <==> usuario != "" && !WellFormedEmail(usuario))
      && (PasswordRequired in r <==> contrasena == "")
      && (WeakPassword in r <==> contrasena != "" && !StrongPassword(contrasena))
      && (EmailError(usuario).Some? ==> r[0] == EmailError(usuario).value)
      && (r == [] <==> WellFormedEmail(usuario) && StrongPassword(contrasena))
  {
    MessagesDistinct();
  }

  /** The `loginUsuario` answer the page reads. */
  datatype LoginData = LoginData(token: string, userId: string)

  datatype LoginRequest = LoginRequest(email: string, password: string)

  class SignInPage {
    const storage: LocalStorage
    var usuario: string
    var contrasena: string
    var errores: seq<string>
    var isLoading: bool

    constructor (storage: LocalStorage)
      ensures this.storage == storage
      ensures usuario == "" && contrasena == "" && errores == [] && !isLoading
    {
      this.storage := storage;
      usuario, contrasena, errores, isLoading := "", "", [], false;
    }

    /** `manejarSubmit` up to `loginUsuario`: with any error the errors are shown, the
        loading flag untouched and nothing sent; otherwise loading starts, the errors
        are cleared and the credentials sent. */
    method ManejarSubmit() returns (request: Option<LoginRequest>)
      modifies this
      ensures var errs := SignInErrors(usuario, contrasena);
        && (errs != [] ==> errores == errs && isLoading == old(isLoading) && request.None?)
        && (errs == [] ==> errores == [] && isLoading && request == Some(LoginRequest(usuario, contrasena)))
      ensures usuario == old(usuario) && contrasena == old(contrasena)
    {
      var nuevosErrores: seq<string> := [];
      if usuario == "" {
        nuevosErrores := nuevosErrores + [EmailRequired];
      } else if !ValidarEmail(usuario) {
        nuevosErrores := nuevosErrores + [EmailInvalid];
      }
      if contrasena == "" {
        nuevosErrores := nuevosErrores + [PasswordRequired];
      } else if !ValidarContrasena(contrasena) {
        nuevosErrores := nuevosErrores + [WeakPassword];
      }
      if |nuevosErrores| > 0 {
        errores := nuevosErrores;
        return None;
      }
      isLoading, errores := true, [];
      request := Some(LoginRequest(usuario, contrasena));
    }

    /** After `loginUsuario` settles: success stores the token and the user id, greets
        and goes home; failure lists the error's message, or the generic one. Loading
        ends either way. */
    method LoginFinished(outcome: Outcome<LoginData>) returns (alert: Option<string>, nav: Option<string>)
      modifies this, storage
      ensures outcome.Success? ==>
        && storage.items == old(storage.items)["token" := outcome.value.token]["userId" := outcome.value.userId]
        && errores == old(errores) && alert == Some(Welcome) && nav == Some("/home")
      ensures outcome.Failure? ==>
        && storage.items == old(storage.items)
        && errores == [MessageOr(outcome.message, LoginFailed)] && alert.None? && nav.None?
      ensures !isLoading && usuario == old(usuario) && contrasena == old(contrasena)
    {
      if outcome.Success? {
        storage.SetItem("token", outcome.value.token);
        storage.SetItem("userId", outcome.value.userId);
        alert, nav := Some(Welcome), Some("/home");
      } else {
        errores := [MessageOr(outcome.message, LoginFailed)];
        alert, nav := None, None;
      }
      isLoading := false;
    }
  }
}
