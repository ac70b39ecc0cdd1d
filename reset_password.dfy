/** The password-reset page (src/pages/ResetPassword.jsx): step 1 takes the six-digit code from
    the e-mail, step 2 the new password. */
module ResetPassword {
  import opened Common
  import opened CodeEntry

  const IncompleteCode: string := "Please enter all 6 digits"
  const CodeVerified: string := "Code verified! Please enter your new password."
  const InvalidCode: string := "Invalid code. Please try again."
  const PasswordsDiffer: string := "Passwords do not match"
  const PasswordTooShort: string := "Password must be at least 6 characters long"
  const ResetDone: string := "Password reset successful! Redirecting to login..."
  const ResetFailed: string := "Failed to reset password. Please try again."
  const CodeResent: string := "New reset code sent to your email!"
  const ResendFailed: string := "Failed to resend code. Please try again."

  /** The shortest password the page sends. */
  const MinPasswordLength: nat := 6

  /** The checks of `handleResetPassword`, in their order: the two fields must agree, then the
      password must have at least six characters. */
  function PasswordProblem(newPassword: string, confirmPassword: string): (r: Option<string>)
    ensures r == None <==> newPassword == confirmPassword && |newPassword| >= MinPasswordLength
    ensures newPassword != confirmPassword ==> r == Some(PasswordsDiffer)
    ensures newPassword == confirmPassword && |newPassword| < MinPasswordLength ==>
      r == Some(PasswordTooShort)
  {
    if newPassword != confirmPassword then Some(PasswordsDiffer)
    else if |newPassword| < 6 then Some(PasswordTooShort)
    else None
  }

  /** The page without its email, which is missing when the page is opened directly; the
      page then sends the visitor to the forgot-password page. */
  function MountRedirect(email: string): (r: Option<string>)
    ensures r.Some? <==> email == ""
    ensures r.Some? ==> r.value == "/forgot-password"
  {
    if email == "" then Some("/forgot-password") else None
  }

  class ResetPasswordPage {
    const email: string
    const boxes: CodeBoxes
    var step: nat
    var newPassword: string
    var confirmPassword: string
    var error: string
    var success: string

    /** The code buffer is well formed and the page is on step 1 or 2. */
    predicate Valid()
      reads this, boxes, boxes.slots
    {
      boxes.Valid() && (step == 1 || step == 2)
    }

    constructor (email: string)
      ensures this.email == email && fresh(boxes) && fresh(boxes.slots)
      ensures Valid() && boxes.slots[..] == EmptyCode && step == 1
      ensures newPassword == "" && confirmPassword == "" && error == "" && success == ""
    {
      this.email := email;
      boxes := new CodeBoxes();
      step := 1;
      newPassword := "";
      confirmPassword := "";
      error := "";
      success := "";
    }

    /** `handleCodeChange`: returns the box that receives the focus. */
    method ChangeCode(index: nat, value: string) returns (focus: Option<nat>)
      requires Valid() && index < Slots
      modifies boxes.slots
      ensures Valid()
      ensures boxes.slots[..] == Entered(old(boxes.slots[..]), index, value)
      ensures focus == EnteredFocus(index, value)
    {
      focus := boxes.Enter(index, value);
    }

    /** `handlePaste`: returns the box that receives the focus. */
    method PasteCode(text: string) returns (focus: Option<nat>)
      requires Valid()
      modifies boxes.slots
      ensures Valid()
      ensures boxes.slots[..] == Pasted(old(boxes.slots[..]), text)
      ensures focus == PasteFocus(text)
    {
      focus := boxes.Paste(text);
    }

    /** `handleVerifyCode`: an incomplete code is refused without a request; a verified code
        moves the page to step 2; a refused code shows the server's message (or the default)
        and empties the boxes. */
    method VerifyCode(outcome: AuthReply) returns (request: Option<(string, string)>)
      requires Valid()
      modifies this`step, this`error, this`success, boxes.slots
      ensures Valid()
      ensures |Concat(old(boxes.slots[..]))| != Slots ==>
        request == None && error == IncompleteCode && step == old(step) && success == old(success)
        && boxes.slots[..] == old(boxes.slots[..])
      ensures |Concat(old(boxes.slots[..]))| == Slots ==>
        request == Some((email, Concat(old(boxes.slots[..]))))
      ensures request.Some? && outcome.Accepted? ==>
        step == 2 && success == CodeVerified && error == "" && boxes.slots[..] == old(boxes.slots[..])
      ensures request.Some? && outcome.Refused? ==>
        error == Or(outcome.serverMessage, InvalidCode) && boxes.slots[..] == EmptyCode
        && step == old(step) && success == old(success)
    {
      error := "";
      var code := boxes.Code();
      if |code| != Slots {
        error := IncompleteCode;
        return None;
      }
      request := Some((email, code));
      match outcome
      case Accepted =>
        success := CodeVerified;
        step := 2;
      case Refused(message) =>
        error := Or(message, InvalidCode);
        boxes.Clear();
    }

    /** Typing in the two password fields. */
    method TypePasswords(password: string, confirmation: string)
      modifies this`newPassword, this`confirmPassword
      ensures newPassword == password && confirmPassword == confirmation
    {
      newPassword, confirmPassword := password, confirmation;
    }

    /** `handleResetPassword`: both messages are cleared, then the password checks run; a
        password that passes is sent with the code, and a success shows its message and leads
        to the login page. */
    method ResetPasswordSubmit(outcome: AuthReply) returns (request: Option<(string, string, string)>, redirect: Option<string>)
      requires Valid()
      modifies this`error, this`success
      ensures PasswordProblem(newPassword, confirmPassword).Some? ==>
        request == None && redirect == None && success == ""
        && error == PasswordProblem(newPassword, confirmPassword).value
      ensures PasswordProblem(newPassword, confirmPassword).None? ==>
        request == Some((email, boxes.Code(), newPassword))
      ensures request.Some? && outcome.Accepted? ==>
        success == ResetDone && error == "" && redirect == Some("/login")
      ensures request.Some? && outcome.Refused? ==>
        error == Or(outcome.serverMessage, ResetFailed) && success == "" && redirect == None
    {
      error := "";
      success := "";
      var problem := PasswordProblem(newPassword, confirmPassword);
      if problem.Some? {
        error := problem.value;
        return None, None;
      }
      request := Some((email, boxes.Code(), newPassword));
      match outcome
      case Accepted =>
        success := ResetDone;
        redirect := Some("/login");
      case Refused(message) =>
        error := Or(message, ResetFailed);
        redirect := None;
    }

    /** `handleResendCode`: a new code is requested for the email; a success empties the boxes
        and says so, a failure shows the server's message or the default. */
    method ResendCode(outcome: AuthReply) returns (request: string)
      requires Valid()
      modifies this`error, this`success, boxes.slots
      ensures Valid() && request == email
      ensures outcome.Accepted? ==>
        success == CodeResent && error == "" && boxes.slots[..] == EmptyCode
      ensures outcome.Refused? ==>
        error == Or(outcome.serverMessage, ResendFailed) && success == old(success)
        && boxes.slots[..] == old(boxes.slots[..])
    {
      error := "";
      request := email;
      match outcome
      case Accepted =>
        success := CodeResent;
        boxes.Clear();
      case Refused(message) =>
        error := Or(message, ResendFailed);
    }
  }

  /** A failed verification empties the boxes, so a second immediate attempt is refused
      without a request: the verification request needs a full code. */
  lemma RefusedCodeMustBeRetyped()
    ensures |Concat(EmptyCode)| != Slots
  {
    assert Concat(EmptyCode) == "";
  }
}
