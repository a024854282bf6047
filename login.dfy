/** The login form: submit the credentials with the remembered device, then
    route on what the server answered. */
module LoginPage {
  import opened Js
  import AuthContext

  /** The `state` handed to the next page by `navigate`. */
  datatype NavState = NoState | WholeResponse(data: Record) | OtpHandoff(userId: Option<string>, email: Option<string>)

  datatype Navigation = Stay | GoTo(path: string, state: NavState)

  const ConnectionError: string := "Unable to connect to server. Please try again later."
  const LoginFailed: string := "Login failed"

  /** A response that asks for the authenticator-app step. */
  predicate AsksForTotp(data: Record)
  {
    Field(data, "mfaType") == Some("totp_setup") || Field(data, "mfaType") == Some("totp_app")
  }

  /** Where the form goes once `login` resolved with `data`. */
  function Dispatch(data: Record): Navigation
  {
    if Truthy(Field(data, "token")) then GoTo("/", NoState)
    else if AsksForTotp(data) then GoTo("/verify-totp", WholeResponse(data))
    else if Truthy(Field(data, "userId")) then
      GoTo("/verify-otp", OtpHandoff(Field(data, "userId"), Field(data, "email")))
    else Stay
  }

  /** The token wins over an MFA type, which wins over a user id; with none of
      them the form stays where it is. */
  lemma DispatchPrecedence(data: Record)
    ensures Truthy(Field(data, "token")) ==> Dispatch(data) == GoTo("/", NoState)
    ensures !Truthy(Field(data, "token")) && AsksForTotp(data) ==>
              Dispatch(data) == GoTo("/verify-totp", WholeResponse(data))
    ensures !Truthy(Field(data, "token")) && !AsksForTotp(data) && Truthy(Field(data, "userId")) ==>
              Dispatch(data) == GoTo("/verify-otp", OtpHandoff(Some(data["userId"]), Field(data, "email")))
    ensures Dispatch(data) == Stay <==>
              !Truthy(Field(data, "token")) && !AsksForTotp(data) && !Truthy(Field(data, "userId"))
  {
  }

  /** The OTP page is told only the user id and the e-mail, never a token. */
  lemma OtpHandoffCarriesOnlyIdAndEmail(data: Record)
    requires Dispatch(data).GoTo? && Dispatch(data).path == "/verify-otp"
    ensures Dispatch(data).state == OtpHandoff(Field(data, "userId"), Field(data, "email"))
    ensures !Truthy(Field(data, "token"))
  {
  }

  /** The error text after a failed `login`. */
  function ErrorText(f: Failure): (r: string)
    ensures r != ""
    ensures f.response.None? ==> r == ConnectionError
    ensures f.response.Some? ==> r == if Truthy(f.response.value.message) then f.response.value.message.value else LoginFailed
  {
    if f.response.None? then ConnectionError else OrElse(f.response.value.message, LoginFailed)
  }

  /** The form's own state: its error text and whether it is waiting for the server. */
  class LoginForm {
    var error: string
    var loading: bool

    constructor ()
      ensures error == "" && !loading
    {
      error := "";
      loading := false;
    }

    /** The synchronous part of `handleSubmit`: clear the error, start loading and
        read the remembered device that is sent along with the credentials. */
    method BeginSubmit(session: AuthContext.Session) returns (deviceId: Option<AuthContext.Stored>)
      modifies this
      ensures error == "" && loading
      ensures deviceId == if AuthContext.DeviceKey in session.storage
                          then Some(session.storage[AuthContext.DeviceKey]) else None
    {
      error := "";
      loading := true;
      deviceId := if AuthContext.DeviceKey in session.storage
                  then Some(session.storage[AuthContext.DeviceKey]) else None;
    }

    /** The rest of `handleSubmit`, once the login request settled. Loading is
        reset only on failure; on success the form navigates away. */
    method Settle(session: AuthContext.Session, response: Outcome<Record>) returns (nav: Navigation)
      modifies this, session
      ensures session.State() == if response.Ok? then AuthContext.AfterLogin(old(session.State()), response.data)
                                 else old(session.State())
      ensures response.Ok? ==> nav == Dispatch(response.data) && error == old(error) && loading == old(loading)
      ensures response.Err? ==> nav == Stay && error == ErrorText(response.failure) && !loading
    {
      var data := session.Login(response);
      if data.Ok? {
        nav := Dispatch(data.data);
      } else {
        nav := Stay;
        error := ErrorText(data.failure);
        loading := false;
      }
    }
  }
}
