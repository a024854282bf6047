/** The one-time-password page: a 30-second resend countdown, the resend action
    and the code submission. */
module OtpVerify {
  import opened Js
  import AuthContext

  const ResendSeconds: int := 30
  const InvalidSessionText: string := "Invalid Session. Please Login again."
  const ResentText: string := "New OTP sent to your email."
  const ResendFailed: string := "Failed to resend OTP"
  const VerifyFailed: string := "OTP Verification failed"

  /** The countdown part of the page state. */
  datatype Countdown = Countdown(timer: int, canResend: bool)

  const Start: Countdown := Countdown(ResendSeconds, false)

  /** One run of the timer effect: while time is left it counts down by one
      second, and once the timer reads 0 it allows a resend. */
  function Tick(c: Countdown): Countdown
  {
    if c.timer > 0 then c.(timer := c.timer - 1) else c.(canResend := true)
  }

  /** `n` successive ticks. */
  function Ticks(c: Countdown, n: nat): Countdown
    decreases n
  {
    if n == 0 then c else Ticks(Tick(c), n - 1)
  }

  /** The timer stays within 0..30, and a resend is allowed only at 0. */
  predicate CountdownInv(c: Countdown)
  {
    0 <= c.timer <= ResendSeconds && (c.canResend ==> c.timer == 0)
  }

  lemma TickPreservesInv(c: Countdown)
    requires CountdownInv(c)
    ensures CountdownInv(Tick(c))
    ensures Tick(c).timer == if c.timer > 0 then c.timer - 1 else 0
  {
  }

  /** From `t` seconds without a resend, `n` ticks leave max(t - n, 0) seconds,
      and a resend is allowed exactly when more than `t` ticks have run. */
  lemma {:induction false} TicksFrom(t: nat, n: nat)
    ensures Ticks(Countdown(t, false), n) == Countdown(if n <= t then t - n else 0, n > t)
  {
    if n > 0 {
      if t > 0 {
        TicksFrom(t - 1, n - 1);
      } else {
        ZeroTicks(n - 1);
      }
    }
  }

  /** At 0 with a resend allowed, further ticks change nothing. */
  lemma {:induction false} ZeroTicks(n: nat)
    ensures Ticks(Countdown(0, true), n) == Countdown(0, true)
  {
    if n > 0 {
      ZeroTicks(n - 1);
    }
  }

  /** From the start, resend becomes possible after exactly 31 ticks: 30 to count
      down and one for the effect that sees 0. */
  lemma ResendAfterCountdown(n: nat)
    ensures Ticks(Start, n).canResend <==> n > ResendSeconds
    ensures Ticks(Start, n).timer == if n <= ResendSeconds then ResendSeconds - n else 0
  {
    TicksFrom(ResendSeconds, n);
  }

  /** What the page renders. */
  datatype View = InvalidSession | Form(resendDisabled: bool, secondsShown: Option<int>)

  /** The resend button is disabled exactly while no resend is allowed. */
  function Render(userId: Option<string>, c: Countdown): (v: View)
    ensures !Truthy(userId) <==> v == InvalidSession
    ensures v.Form? ==> (v.resendDisabled <==> !c.canResend)
  {
    if !Truthy(userId) then InvalidSession
    else Form(!c.canResend, if c.canResend then None else Some(c.timer))
  }

  /** The page state. */
  class OtpPage {
    const userId: Option<string>
    var timer: int
    var canResend: bool
    var error: string
    var message: string

    function Clock(): Countdown
      reads this
    {
      Countdown(timer, canResend)
    }

    /** The page as it mounts with the navigation state it was given. */
    constructor (userId: Option<string>)
      ensures this.userId == userId
      ensures Clock() == Start && error == "" && message == ""
    {
      this.userId := userId;
      timer := ResendSeconds;
      canResend := false;
      error := "";
      message := "";
    }

    /** One run of the timer effect. */
    method RunTimerEffect()
      modifies this
      ensures Clock() == Tick(old(Clock()))
      ensures error == old(error) && message == old(message)
    {
      if timer > 0 {
        timer := timer - 1;
      } else {
        canResend := true;
      }
    }

    /** `handleResend`: clear both texts, then restart the countdown on success
        or show the error on failure, leaving the countdown as it was. */
    method HandleResend(response: Outcome<Record>)
      requires Truthy(userId)
      modifies this
      ensures response.Ok? ==> Clock() == Start && message == ResentText && error == ""
      ensures response.Err? ==> Clock() == old(Clock()) && message == ""
                                && error == OrElse(ServerMessage(response.failure), ResendFailed)
    {
      error := "";
      message := "";
      if response.Ok? {
        timer := ResendSeconds;
        canResend := false;
        message := ResentText;
      } else {
        error := OrElse(ServerMessage(response.failure), ResendFailed);
      }
    }

    /** `handleSubmit`: clear both texts, verify the code through the session and go
        to "/" on success, or show the error. Returns the path navigated to. */
    method HandleSubmit(session: AuthContext.Session, response: Outcome<Record>) returns (nav: Option<string>)
      requires Truthy(userId)
      modifies this, session
      ensures session.State() == if response.Ok? then AuthContext.AfterMfa(old(session.State()), response.data)
                                 else old(session.State())
      ensures Clock() == old(Clock()) && message == ""
      ensures response.Ok? ==> nav == Some("/") && error == ""
      ensures response.Err? ==> nav.None? && error == OrElse(ServerMessage(response.failure), VerifyFailed)
    {
      error := "";
      message := "";
      var r := session.VerifyOtp(response);
      if r.Ok? {
        nav := Some("/");
      } else {
        nav := None;
        error := OrElse(ServerMessage(r.failure), VerifyFailed);
      }
    }
  }
}
