/**
 * The forgot-password page of the web front end: the password rule, the
 * checks made before a reset is sent, the three steps (request a code,
 * verify it, set the new password), the resend cooldown and the code field.
 */
module ForgotResetPassword {
  import opened Common

  const MIN_LENGTH: nat := 6
  const TOO_SHORT: string := "Password must be at least 6 characters long."
  const NO_UPPER: string := "Password must contain at least one uppercase letter."
  const NO_LOWER: string := "Password must contain at least one lowercase letter."
  const NO_DIGIT: string := "Password must contain at least one number."
  const MISMATCH: string := "Passwords do not match!"
  const CODE_SENT: string := "A 6-digit reset code was sent to your email."
  const CODE_RESENT: string := "A new reset code has been sent to your email."
  const CODE_VERIFIED: string := "Code verified! Enter your new password."
  const RESET_DONE: string := "✅ Password reset successfully! Redirecting..."
  const SEND_FAILED: string := "Error sending reset code"
  const VERIFY_FAILED: string := "Invalid or expired code"
  const RESET_FAILED: string := "Error resetting password"
  const SERVER_ERROR: string := "Server error. Please try again."
  const COOLDOWN: nat := 30
  const CODE_FIELD_LENGTH: nat := 6

  predicate HasUpper(p: string) { exists i :: 0 <= i < |p| && IsUpper(p[i]) }
  predicate HasLower(p: string) { exists i :: 0 <= i < |p| && IsLower(p[i]) }
  predicate HasDigit(p: string) { exists i :: 0 <= i < |p| && IsDigit(p[i]) }

  /** The password rule of the reset form: at least six characters, with an upper-case letter, a lower-case letter and a digit. */
  predicate StrongPassword(p: string)
  {
    |p| >= MIN_LENGTH && HasUpper(p) && HasLower(p) && HasDigit(p)
  }

  /**
   * `validatePassword`: "" for a strong password, otherwise the message of
   * the first check that fails, in the order length, upper case, lower
   * case, digit.
   */
  function ValidatePassword(p: string): (r: string)
    ensures r == [] <==> StrongPassword(p)
    ensures |p| < MIN_LENGTH ==> r == TOO_SHORT
    ensures |p| >= MIN_LENGTH && !HasUpper(p) ==> r == NO_UPPER
    ensures |p| >= MIN_LENGTH && HasUpper(p) && !HasLower(p) ==> r == NO_LOWER
    ensures |p| >= MIN_LENGTH && HasUpper(p) && HasLower(p) && !HasDigit(p) ==> r == NO_DIGIT
  {
    if |p| < MIN_LENGTH then TOO_SHORT
    else if !HasUpper(p) then NO_UPPER
    else if !HasLower(p) then NO_LOWER
    else if !HasDigit(p) then NO_DIGIT
    else ""
  }

  /** The error that stops a reset before any request: the password rule first, then the confirmation. */
  function ResetBlocker(newPassword: string, confirmation: string): (r: Option<string>)
    ensures r.None? <==> StrongPassword(newPassword) && newPassword == confirmation
    ensures !StrongPassword(newPassword) ==> r == Some(ValidatePassword(newPassword))
    ensures StrongPassword(newPassword) && newPassword != confirmation ==> r == Some(MISMATCH)
  {
    var v := ValidatePassword(newPassword);
    if v != [] then Some(v)
    else if newPassword != confirmation then Some(MISMATCH)
    else None
  }

  /** A weak password is reported as weak even when the confirmation differs too. */
  lemma RuleCheckedBeforeMatch(newPassword: string, confirmation: string)
    requires !StrongPassword(newPassword)
    ensures ResetBlocker(newPassword, confirmation) != Some(MISMATCH)
  {
    var v := ValidatePassword(newPassword);
    assert v == TOO_SHORT || v == NO_UPPER || v == NO_LOWER || v == NO_DIGIT;
  }

  // ------------------------------------------------------------ code field

  /**
   * `.replace(/\D/g, "")`: the digits, in order. `DigitsOfCounts` states
   * that each digit is kept as often as it occurs, `DigitsOfConcat` that the
   * order is kept.
   */
  function DigitsOf(s: string): (r: string)
    ensures |r| <= |s|
    ensures forall i :: 0 <= i < |r| ==> IsDigit(r[i])
    ensures forall i :: 0 <= i < |s| && IsDigit(s[i]) ==> s[i] in r
  {
    if s == [] then []
    else if IsDigit(s[0]) then [s[0]] + DigitsOf(s[1..])
    else DigitsOf(s[1..])
  }

  /** Every digit occurs in the kept text exactly as often as in the typed text. */
  lemma {:induction false} DigitsOfCounts(s: string)
    ensures forall c :: IsDigit(c) ==> multiset(DigitsOf(s))[c] == multiset(s)[c]
  {
    if s != [] {
      DigitsOfCounts(s[1..]);
      DigitsOfStep(s);
      assert s == [s[0]] + s[1..];
    }
  }

  lemma DigitsOfStep(s: string)
    requires s != []
    ensures DigitsOf(s) == (if IsDigit(s[0]) then [s[0]] else []) + DigitsOf(s[1..])
  {
  }

  /** The digits of a text are the digits of its first part followed by those of the rest. */
  lemma {:induction false} DigitsOfConcat(a: string, b: string)
    ensures DigitsOf(a + b) == DigitsOf(a) + DigitsOf(b)
  {
    if a == [] {
      assert a + b == b;
    } else {
      var head: string := if IsDigit(a[0]) then [a[0]] else [];
      DigitsOfStep(a);
      DigitsOfStep(a + b);
      assert (a + b)[0] == a[0] && (a + b)[1..] == a[1..] + b;
      DigitsOfConcat(a[1..], b);
      assert head + (DigitsOf(a[1..]) + DigitsOf(b)) == (head + DigitsOf(a[1..])) + DigitsOf(b);
    }
  }

  /** Text that is all digits is kept as it is. */
  lemma {:induction false} DigitsOfDigits(s: string)
    requires forall i :: 0 <= i < |s| ==> IsDigit(s[i])
    ensures DigitsOf(s) == s
  {
    if s != [] {
      DigitsOfDigits(s[1..]);
      assert s == [s[0]] + s[1..];
    }
  }

  /**
   * The code field: the browser keeps at most six typed characters
   * (`maxLength`), and of those only the digits stay. The code has no
   * white space, so the trim before verifying leaves it as it is.
   */
  function CodeField(typed: string): (r: string)
    ensures |r| <= CODE_FIELD_LENGTH
    ensures forall i :: 0 <= i < |r| ==> IsDigit(r[i])
    ensures Strip(r) == r
  {
    var r := DigitsOf(typed[..Min(CODE_FIELD_LENGTH, |typed|)]);
    assert r == [] || (!IsSpace(r[0]) && !IsSpace(r[|r| - 1]));
    assert LeadingSpaces(r) == 0;
    r
  }

  /** Typing a code of six digits fills the field with exactly that code. */
  lemma SixDigitsKept(code: string)
    requires |code| == CODE_FIELD_LENGTH && forall i :: 0 <= i < |code| ==> IsDigit(code[i])
    ensures CodeField(code) == code
  {
    assert code[..Min(CODE_FIELD_LENGTH, |code|)] == code;
    DigitsOfDigits(code);
  }

  // -------------------------------------------------------------- the steps

  /** The three forms of the page, shown one at a time. */
  datatype Step = Forgot | Verify | NewPass

  /** How a request of the page ended: an answer (ok or not, with the body's `error`), or no answer at all. */
  datatype Answer = Answered(ok: bool, error: Option<string>) | NetworkError(message: string)

  /**
   * The error text of a failed code request: `sendResetCode` throws the
   * body's error or its default, and the page shows the thrown message.
   */
  function SendError(a: Answer): (r: string)
    requires !(a.Answered? && a.ok)
    ensures a.Answered? ==> r != []
  {
    match a
    case Answered(_, error) => if Truthy(error) then error.value else SEND_FAILED
    case NetworkError(message) => message
  }

  /** The error text of a failed verification or reset: the body's error or `fallback`, or the server error without an answer. */
  function CheckError(a: Answer, fallback: string): (r: string)
    requires !(a.Answered? && a.ok) && fallback != []
    ensures r != []
    ensures a.NetworkError? ==> r == SERVER_ERROR
  {
    match a
    case Answered(_, error) => if Truthy(error) then error.value else fallback
    case NetworkError(_) => SERVER_ERROR
  }

  /** The page's state. */
  class ResetFlow {
    var step: Step
    var code: string
    var message: string
    var error: string
    var loading: bool
    var resendTimer: nat
    /** Whether the reset request was sent. */
    var resetSent: bool

    constructor ()
      ensures step == Forgot && code == [] && message == [] && error == [] && !loading && resendTimer == 0
      ensures !resetSent
    {
      step := Forgot;
      code := [];
      message := [];
      error := [];
      loading := false;
      resendTimer := 0;
      resetSent := false;
    }

    /** The resend button is disabled while loading or while the cooldown runs. */
    predicate ResendDisabled()
      reads this
    {
      loading || resendTimer > 0
    }

    /** `handleForgot`: a sent code moves to verification and starts the cooldown; a failure stays and shows the error. */
    method HandleForgot(a: Answer)
      modifies this
      ensures a.Answered? && a.ok ==> step == Verify && message == CODE_SENT && error == [] && resendTimer == COOLDOWN
      ensures !(a.Answered? && a.ok) ==>
                step == old(step) && message == [] && error == SendError(a) && resendTimer == old(resendTimer)
      ensures !loading && code == old(code) && resetSent == old(resetSent)
    {
      loading := true;
      error := [];
      message := [];
      if a.Answered? && a.ok {
        message := CODE_SENT;
        step := Verify;
        resendTimer := COOLDOWN;
      } else {
        error := SendError(a);
      }
      loading := false;
    }

    /** `handleVerify`: an accepted code moves to the new password; a refused one stays and shows why. */
    method HandleVerify(a: Answer)
      modifies this
      ensures a.Answered? && a.ok ==> step == NewPass && message == CODE_VERIFIED && error == []
      ensures !(a.Answered? && a.ok) ==> step == old(step) && message == [] && error == CheckError(a, VERIFY_FAILED)
      ensures !loading && code == old(code) && resendTimer == old(resendTimer) && resetSent == old(resetSent)
    {
      loading := true;
      error := [];
      message := [];
      if a.Answered? && a.ok {
        message := CODE_VERIFIED;
        step := NewPass;
      } else {
        error := CheckError(a, VERIFY_FAILED);
      }
      loading := false;
    }

    /** `handleResendCode`: a sent code restarts the cooldown; the step stays either way. */
    method HandleResend(a: Answer)
      modifies this
      ensures step == old(step)
      ensures a.Answered? && a.ok ==> message == CODE_RESENT && error == [] && resendTimer == COOLDOWN
      ensures !(a.Answered? && a.ok) ==> message == [] && error == SendError(a) && resendTimer == old(resendTimer)
      ensures !loading && code == old(code) && resetSent == old(resetSent)
    {
      error := [];
      message := [];
      loading := true;
      if a.Answered? && a.ok {
        message := CODE_RESENT;
        resendTimer := COOLDOWN;
      } else {
        error := SendError(a);
      }
      loading := false;
    }

    /**
     * `handleResetPassword`: nothing is sent while the rule or the
     * confirmation fails; otherwise the answer decides the message or the
     * error. The step stays (the page then leaves for the login page).
     */
    method HandleReset(newPassword: string, confirmation: string, a: Answer)
      modifies this
      ensures step == old(step) && code == old(code) && resendTimer == old(resendTimer) && !loading
      ensures resetSent <==> old(resetSent) || ResetBlocker(newPassword, confirmation).None?
      ensures ResetBlocker(newPassword, confirmation).Some? ==>
                error == ResetBlocker(newPassword, confirmation).value && message == []
      ensures ResetBlocker(newPassword, confirmation).None? ==>
                if a.Answered? && a.ok then message == RESET_DONE && error == []
                else message == [] && error == CheckError(a, RESET_FAILED)
    {
      loading := true;
      error := [];
      message := [];
      var blocker := ResetBlocker(newPassword, confirmation);
      if blocker.Some? {
        error := blocker.value;
        loading := false;
        return;
      }
      resetSent := true;
      if a.Answered? && a.ok {
        message := RESET_DONE;
      } else {
        error := CheckError(a, RESET_FAILED);
      }
      loading := false;
    }

    /** One second of the cooldown: it counts down to 0 and stays there. */
    method Tick()
      modifies this
      ensures resendTimer == if old(resendTimer) > 0 then old(resendTimer) - 1 else 0
      ensures step == old(step) && code == old(code) && message == old(message) && error == old(error)
      ensures loading == old(loading) && resetSent == old(resetSent)
    {
      if resendTimer > 0 {
        resendTimer := resendTimer - 1;
      }
    }

    /** A change of the code field. */
    method TypeCode(typed: string)
      modifies this
      ensures code == CodeField(typed)
      ensures step == old(step) && message == old(message) && error == old(error)
      ensures loading == old(loading) && resendTimer == old(resendTimer) && resetSent == old(resetSent)
    {
      code := CodeField(typed);
    }
  }

  /** A cooldown of `COOLDOWN` ticks ends with the timer at 0 and resending enabled again once loading is over. */
  method CooldownEnds(flow: ResetFlow)
    requires flow.resendTimer <= COOLDOWN && !flow.loading
    modifies flow
    ensures flow.resendTimer == 0 && !flow.ResendDisabled()
    ensures flow.step == old(flow.step)
  {
    var k := 0;
    while k < COOLDOWN
      invariant 0 <= k <= COOLDOWN
      invariant flow.resendTimer == if old(flow.resendTimer) > k then old(flow.resendTimer) - k else 0
      invariant !flow.loading && flow.step == old(flow.step)
    {
      flow.Tick();
      k := k + 1;
    }
  }
}
