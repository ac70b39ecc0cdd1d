/** The e-mail verification page after sign-up (src/pages/VerifyOTP.jsx): the six-digit code,
    and the sixty-second countdown that gates asking for a new code. */
module VerifyOtp {
  import opened Common
  import opened CodeEntry

  const IncompleteCode: string := "Please enter all 6 digits"
  const InvalidOtp: string := "Invalid verification code. Please try again."
  const ResendFailed: string := "Failed to resend verification code. Please try again."

  /** Seconds to wait before a new code may be requested. */
  const ResendDelay: nat := 60

  /** The countdown: `resendTimer`, `canResend`, and whether a one-second interval is set. */
  datatype Countdown = Countdown(seconds: int, canResend: bool, running: bool)

  /** The countdown as the page starts it, and as a successful resend restarts it. */
  const Started: Countdown := Countdown(ResendDelay, false, true)

  /** The invariant of the countdown: the seconds stay in 0..60; a running interval has a
      second left and resend is off; once resend is on the count is 0 and no interval runs. */
  predicate CountdownOk(c: Countdown) {
    && 0 <= c.seconds <= ResendDelay
    && (c.running ==> 1 <= c.seconds && !c.canResend)
    && (c.canResend ==> c.seconds == 0 && !c.running)
  }

  /** One interval callback: at one second or less the count becomes 0, resend is enabled and
      the interval is cleared; otherwise the count goes down by one. Without an interval
      nothing happens. */
  function Tick(c: Countdown): (r: Countdown)
    ensures !c.running ==> r == c
    ensures c.running && c.seconds <= 1 ==> r == Countdown(0, true, false)
    ensures c.running && c.seconds > 1 ==> r == c.(seconds := c.seconds - 1)
    ensures CountdownOk(c) ==> CountdownOk(r)
  {
    if !c.running then c
    else if c.seconds <= 1 then Countdown(0, true, false)
    else c.(seconds := c.seconds - 1)
  }

  /** `k` interval callbacks: they keep the countdown's invariant, and change nothing without
      an interval. */
  function Ticks(c: Countdown, k: nat): (r: Countdown)
    ensures CountdownOk(c) ==> CountdownOk(r)
    ensures !c.running ==> r == c
    decreases k
  {
    if k == 0 then c else Ticks(Tick(c), k - 1)
  }

  /** A running countdown at `n` seconds shows `n - k` after `k < n` ticks, and has stopped
      with resend enabled from tick `n` on. */
  lemma {:induction false} TicksFrom(n: nat, k: nat)
    requires n >= 1
    ensures Ticks(Countdown(n, false, true), k) ==
      if k < n then Countdown(n - k, false, true) else Countdown(0, true, false)
  {
    if k > 0 {
      if n == 1 {
        StoppedStays(k - 1);
      } else {
        TicksFrom(n - 1, k - 1);
      }
    }
  }

  /** A stopped countdown stays as it is. */
  lemma {:induction false} StoppedStays(k: nat)
    ensures Ticks(Countdown(0, true, false), k) == Countdown(0, true, false)
  {
    if k > 0 {
      StoppedStays(k - 1);
    }
  }

  /** From the start, resend becomes possible exactly at the sixtieth tick, and the count shown
      never goes below zero. */
  lemma ResendAfterSixtyTicks(k: nat)
    ensures Ticks(Started, k).canResend <==> k >= ResendDelay
    ensures Ticks(Started, k).seconds == if k < ResendDelay then ResendDelay - k else 0
  {
    TicksFrom(ResendDelay, k);
  }

  /** The page without an email sends the visitor to sign-up and starts no countdown. */
  function MountRedirect(email: string): (r: Option<string>)
    ensures r.Some? <==> email == ""
    ensures r.Some? ==> r.value == "/signup"
  {
    if email == "" then Some("/signup") else None
  }

  class VerifyOtpPage {
    const email: string
    const boxes: CodeBoxes
    var error: string
    var resendTimer: int
    var canResend: bool
    var timerRunning: bool

    function State(): Countdown
      reads this
    {
      Countdown(resendTimer, canResend, timerRunning)
    }

    predicate Valid()
      reads this, boxes, boxes.slots
    {
      boxes.Valid() && CountdownOk(State())
    }

    /** The page as mounted: the countdown runs when an email was handed over. */
    constructor (email: string)
      ensures this.email == email && fresh(boxes) && fresh(boxes.slots)
      ensures Valid() && boxes.slots[..] == EmptyCode && error == ""
      ensures State() == if email == "" then Started.(running := false) else Started
    {
      this.email := email;
      boxes := new CodeBoxes();
      error := "";
      resendTimer := 60;
      canResend := false;
      timerRunning := email != "";
    }

    /** `handleChange`: returns the box that receives the focus. */
    method ChangeCode(index: nat, value: string) returns (focus: Option<nat>)
      requires Valid() && index < Slots
      modifies boxes.slots
      ensures Valid()
      ensures boxes.slots[..] == Entered(old(boxes.slots[..]), index, value)
      ensures focus == EnteredFocus(index, value)
    {
      focus := boxes.Enter(index, value);
    }

    /** `handlePaste`: returns the box that receives the focus. */
    method PasteCode(text: string) returns (focus: Option<nat>)
      requires Valid()
      modifies boxes.slots
      ensures Valid()
      ensures boxes.slots[..] == Pasted(old(boxes.slots[..]), text)
      ensures focus == PasteFocus(text)
    {
      focus := boxes.Paste(text);
    }

    /** The interval callback. */
    method TickSecond()
      requires Valid()
      modifies this`resendTimer, this`canResend, this`timerRunning
      ensures Valid()
      ensures State() == Tick(old(State()))
    {
      if timerRunning {
        if resendTimer <= 1 {
          canResend := true;
          timerRunning := false;
          resendTimer := 0;
        } else {
          resendTimer := resendTimer - 1;
        }
      }
    }

    /** `handleSubmit`: an incomplete code is refused without a request; a verified code leads
        to the dashboard (signing the user in when the answer carries one); a refused code
        shows the server's message or the default and empties the boxes. */
    method Submit(outcome: AuthReply, userReturned: bool) returns (request: Option<(string, string)>, redirect: Option<string>, signedIn: bool)
      requires Valid()
      modifies this`error, boxes.slots
      ensures Valid()
      ensures |Concat(old(boxes.slots[..]))| != Slots ==>
        request == None && redirect == None && !signedIn && error == IncompleteCode
        && boxes.slots[..] == old(boxes.slots[..])
      ensures |Concat(old(boxes.slots[..]))| == Slots ==>
        request == Some((email, Concat(old(boxes.slots[..]))))
      ensures request.Some? && outcome.Accepted? ==>
        redirect == Some("/dashboard") && signedIn == userReturned && error == ""
        && boxes.slots[..] == old(boxes.slots[..])
      ensures request.Some? && outcome.Refused? ==>
        redirect == None && !signedIn && error == Or(outcome.serverMessage, InvalidOtp)
        && boxes.slots[..] == EmptyCode
    {
      error := "";
      var code := boxes.Code();
      if |code| != Slots {
        error := IncompleteCode;
        return None, None, false;
      }
      request := Some((email, code));
      match outcome
      case Accepted =>
        redirect, signedIn := Some("/dashboard"), userReturned;
      case Refused(message) =>
        error := Or(message, InvalidOtp);
        boxes.Clear();
        redirect, signedIn := None, false;
    }

    /** `handleResendCode`: ignored until resend is enabled; a successful resend restarts the
        countdown at sixty seconds with a new interval, a failure leaves the countdown as it
        was (resend stays enabled) and shows the server's message or the default. A new
        interval is only ever started when none runs. */
    method ResendCode(outcome: AuthReply) returns (requested: bool)
      requires Valid()
      modifies this`error, this`resendTimer, this`canResend, this`timerRunning
      ensures Valid()
      ensures requested <==> old(canResend)
      ensures requested ==> !old(timerRunning)
      ensures State() == if requested && outcome.Accepted? then Started else old(State())
      ensures !requested ==> error == old(error)
      ensures requested && outcome.Accepted? ==> error == ""
      ensures requested && outcome.Refused? ==> error == Or(outcome.serverMessage, ResendFailed)
    {
      if !canResend {
        return false;
      }
      requested := true;
      error := "";
      match outcome
      case Accepted =>
        canResend := false;
        resendTimer := 60;
        timerRunning := true;
      case Refused(message) =>
        error := Or(message, ResendFailed);
    }
  }
}
