/** The invitation page where new staff set their password: a confirmation
    check, then one request whose outcome fills a loading/error/success record. */
module SetupAccount {
  import opened Js
  import AuthContext

  const MismatchText: string := "Passwords do not match"
  const DoneText: string := "Account set up! Redirecting to login..."
  const ExpiredText: string := "Setup failed. Link may be expired."

  datatype Status = Status(loading: bool, error: string, success: string)

  const Idle: Status := Status(false, "", "")

  /** The body sent to complete the invitation. */
  datatype InviteRequest = InviteRequest(token: Option<string>, password: string)

  datatype View = InvalidLink | Form(buttonDisabled: bool, error: string, success: string)

  /** The status once the request settled: loading is over and exactly one of
      the error and success texts is shown. */
  function Settled(response: Outcome<Record>): (r: Status)
    ensures !r.loading
    ensures (r.error == "") != (r.success == "")
    ensures response.Ok? <==> r.success == DoneText
    ensures response.Err? ==> r.error == OrElse(ServerMessage(response.failure), ExpiredText)
  {
    if response.Ok? then Status(false, "", DoneText)
    else Status(false, OrElse(ServerMessage(response.failure), ExpiredText), "")
  }

  /** Without a token in the link only the invalid-link text is rendered. */
  function Render(token: Option<string>, status: Status): (v: View)
    ensures v == InvalidLink <==> !Truthy(token)
    ensures v.Form? ==> v.buttonDisabled == status.loading
  {
    if !Truthy(token) then InvalidLink else Form(status.loading, status.error, status.success)
  }

  class SetupPage {
    const token: Option<string>
    var status: Status

    constructor (token: Option<string>)
      ensures this.token == token && status == Idle
    {
      this.token := token;
      status := Idle;
    }

    /** The mount effect: whoever was signed in is logged out. */
    method Mount(session: AuthContext.Session)
      modifies session
      ensures session.State() == AuthContext.AfterLogout(old(session.State()))
    {
      session.Logout();
    }

    /** The synchronous part of `handleSubmit`. A mismatch only sets the error and
        sends nothing; a match starts loading, clears both texts and sends the request. */
    method BeginSubmit(password: string, confirmPassword: string) returns (request: Option<InviteRequest>)
      modifies this
      ensures password != confirmPassword ==> request.None? && status == old(status).(error := MismatchText)
      ensures password == confirmPassword ==>
                request == Some(InviteRequest(token, password)) && status == Status(true, "", "")
    {
      if password != confirmPassword {
        status := status.(error := MismatchText);
        request := None;
        return;
      }
      status := Status(true, "", "");
      request := Some(InviteRequest(token, password));
    }

    /** The request settled. */
    method Settle(response: Outcome<Record>)
      modifies this
      ensures status == Settled(response)
    {
      if response.Ok? {
        status := Status(false, "", DoneText);
      } else {
        status := Status(false, OrElse(ServerMessage(response.failure), ExpiredText), "");
      }
    }
  }
}
