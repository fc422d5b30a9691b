/** The sales-rep sign-in screen (ventas/app/login.tsx): the checks made
    before any request, the credentials sent, the message shown when sign-in
    fails, and the hand-over of the session to the auth store. */
module LoginScreen {
  import opened Common
  import opened AuthSession
  import opened VentasAuth

  const MissingFields := "Por favor ingrese su email y contraseña"
  const InvalidEmail := "Por favor ingrese un email válido"
  const DefaultLoginError := "No se pudo iniciar sesión. Verifique sus credenciales."
  const WrongCredentials := "Email o contraseña incorrectos"
  const UnknownUser := "Usuario no encontrado"
  const ConnectionError := "Error de conexión. Verifique su internet."

  /** The checks of `handleLogin`: both fields must be non-blank, then the
      email must hold an `@`. Sign-in goes ahead exactly when all hold. */
  function ValidateLogin(email: string, password: string): (r: Option<string>)
    ensures r.None? <==> Trim(email) != "" && Trim(password) != "" && Contains(email, "@")
    ensures r == Some(MissingFields) <==> Trim(email) == "" || Trim(password) == ""
    ensures r == Some(InvalidEmail) <==> Trim(email) != "" && Trim(password) != "" && !Contains(email, "@")
  {
    if Trim(email) == "" || Trim(password) == "" then Some(MissingFields)
    else if !Contains(email, "@") then Some(InvalidEmail)
    else None
  }

  /** The body of the `login` call. */
  datatype Credentials = Credentials(email: string, password: string)

  /** The credentials sent: the email trimmed, the password exactly as typed. */
  function CredentialsFor(email: string, password: string): Credentials
  {
    Credentials(Trim(email), password)
  }

  /** Trimming keeps the `@` of an email that passed the checks, and the
      email sent is already trimmed. */
  lemma SentEmailStillValid(email: string, password: string)
    requires ValidateLogin(email, password).None?
    ensures Contains(CredentialsFor(email, password).email, "@")
    ensures Trim(CredentialsFor(email, password).email) == CredentialsFor(email, password).email
    ensures CredentialsFor(email, password).password == password
  {
    TrimIdempotent(email);
    TrimKeepsNonSpace(email, '@');
    ContainsChar(email, '@');
    ContainsChar(Trim(email), '@');
  }

  /** The parts of a failed sign-in the screen looks at. */
  datatype LoginError = LoginError(status: Option<int>, message: Option<string>)

  /** The `catch` of `handleLogin`. */
  function LoginErrorMessage(e: LoginError): (m: string)
    ensures e.status == Some(401) ==> m == WrongCredentials
    ensures e.status == Some(404) ==> m == UnknownUser
    ensures e.status != Some(401) && e.status != Some(404) && e.message == Some("Network Error") ==> m == ConnectionError
    ensures e.status != Some(401) && e.status != Some(404) && e.message != Some("Network Error") ==> m == DefaultLoginError
  {
    if e.status == Some(401) then WrongCredentials
    else if e.status == Some(404) then UnknownUser
    else if e.message == Some("Network Error") then ConnectionError
    else DefaultLoginError
  }

  /** A successful `login` response. */
  datatype LoginResponse = LoginResponse(user: User, token: string, refreshToken: string)

  /** What `handleLogin` ends with. */
  datatype LoginAlert = ValidationAlert(message: string) | LoginFailed(message: string) | SignedIn

  /** The screen's state. */
  class LoginForm {
    var email: string
    var password: string
    var isLoading: bool

    constructor()
      ensures email == "" && password == "" && !isLoading
    {
      email, password, isLoading := "", "", false;
    }

    /** The email input stores what is typed, lower-cased. */
    method TypeEmail(text: string)
      modifies this
      ensures email == ToLower(text) && password == old(password) && isLoading == old(isLoading)
    {
      email := ToLower(text);
    }

    method TypePassword(text: string)
      modifies this
      ensures password == text && email == old(email) && isLoading == old(isLoading)
    {
      password := text;
    }

    /** `handleLogin`, given what `login` would produce. A failed check sends
        nothing and leaves the session alone; otherwise one request is sent,
        a success installs the session before navigating, and a failure
        leaves the session as it was. Loading is off at the end. */
    method HandleLogin(store: AuthStore, outcome: Result<LoginResponse, LoginError>)
      returns (alert: LoginAlert, sent: seq<Credentials>, navigated: bool)
      requires store.Valid()
      modifies this, store
      ensures email == old(email) && password == old(password)
      ensures store.Valid()
      ensures ValidateLogin(old(email), old(password)).Some? ==>
        alert == ValidationAlert(ValidateLogin(old(email), old(password)).value)
        && sent == [] && !navigated && isLoading == old(isLoading)
        && store.Partialize() == old(store.Partialize()) && store.isLoading == old(store.isLoading)
      ensures ValidateLogin(old(email), old(password)).None? ==>
        sent == [CredentialsFor(old(email), old(password))] && !isLoading
      ensures ValidateLogin(old(email), old(password)).None? && outcome.Ok? ==>
        alert == SignedIn && navigated
        && store.Partialize() == Persisted(Some(outcome.value.user), Some(outcome.value.token), Some(outcome.value.refreshToken), true)
      ensures ValidateLogin(old(email), old(password)).None? && outcome.Err? ==>
        alert == LoginFailed(LoginErrorMessage(outcome.error)) && !navigated
        && store.Partialize() == old(store.Partialize()) && store.isLoading == old(store.isLoading)
    {
      var invalid := ValidateLogin(email, password);
      if invalid.Some? {
        return ValidationAlert(invalid.value), [], false;
      }
      isLoading := true;
      sent := [CredentialsFor(email, password)];
      match outcome {
        case Ok(response) =>
          store.SetAuth(response.user, response.token, response.refreshToken);
          alert, navigated := SignedIn, true;
        case Err(e) =>
          alert, navigated := LoginFailed(LoginErrorMessage(e)), false;
      }
      isLoading := false;
    }
  }
}
