/**
 * The sign-up page of the web front end: the form checks, the gate in
 * front of `signup`, where a refusal of the server is shown, and the
 * clearing of errors while the user types.
 */
module SignUp {
  import opened Common
  import AuthSession
  import ForgotResetPassword

  const USERNAME_REQUIRED: string := "Username is required"
  const EMAIL_INVALID: string := "Email is invalid"
  const PASSWORD_RULE: string := "Password must have at least 6 characters, 1 uppercase and 1 lowercase letter."
  const PASSWORDS_DIFFER: string := "Passwords do not match"
  const USERNAME_TAKEN: string := "Username already exists"
  const EMAIL_TAKEN: string := "Email already registered"
  const FIELDS_REQUIRED: string := "All fields are required"
  const SIGNUP_RETRY: string := "Signup failed. Try again."
  const ACCOUNT_CREATED: string := "Account created successfully! Redirecting..."

  datatype SignupForm = SignupForm(username: string, email: string, password: string, confirmPassword: string)

  const EMPTY_FORM := SignupForm("", "", "", "")

  /** The errors shown, per field and for the whole form; "" shows nothing. */
  datatype Errors = Errors(username: string, email: string, password: string, confirmPassword: string, submit: string)
  {
    /** Whether some error is shown (the validation object has a key). */
    predicate Any()
    {
      username != [] || email != [] || password != [] || confirmPassword != [] || submit != []
    }
  }

  const NO_ERRORS := Errors("", "", "", "", "")

  // ------------------------------------------------------------------ email

  /**
   * `/^[^\s@]+@[^\s@]+\.[^\s@]+$/` by positions: one `@` after a non-empty
   * start, a `.` after at least one character of the domain and before its
   * last, and nowhere white space or a second `@`.
   */
  predicate MatchesEmailPattern(s: string)
  {
    exists at, dot :: 0 < at && at + 1 < dot && dot + 1 < |s| && s[at] == '@' && s[dot] == '.'
                      && forall k :: 0 <= k < |s| ==> !IsSpace(s[k]) && (s[k] == '@' ==> k == at)
  }

  /** The email check as a scan: the first `@`, nothing after it that is an `@`, a dot inside the domain, no white space. */
  predicate EmailValid(s: string)
  {
    var at := IndexOf(s, '@');
    at.Some? && at.value > 0 && at.value + 3 <= |s|
    && '@' !in s[at.value + 1..]
    && '.' in s[at.value + 2..|s| - 1]
    && forall k :: 0 <= k < |s| ==> !IsSpace(s[k])
  }

  /** The scan accepts exactly the texts the pattern matches. */
  lemma EmailCheckMatchesPattern(s: string)
    ensures EmailValid(s) <==> MatchesEmailPattern(s)
  {
    if EmailValid(s) {
      var at := IndexOf(s, '@').value;
      var inner := s[at + 2..|s| - 1];
      var j :| 0 <= j < |inner| && inner[j] == '.';
      var dot := at + 2 + j;
      assert s[dot] == '.';
      forall k | 0 <= k < |s| ensures s[k] == '@' ==> k == at {
        if k < at {
          assert s[..at][k] == s[k];
        } else if k > at {
          assert s[at + 1..][k - at - 1] == s[k];
        }
      }
      assert MatchesEmailPattern(s);
    }
    if MatchesEmailPattern(s) {
      var at, dot :| 0 < at && at + 1 < dot && dot + 1 < |s| && s[at] == '@' && s[dot] == '.'
                     && forall k :: 0 <= k < |s| ==> !IsSpace(s[k]) && (s[k] == '@' ==> k == at);
      var first := IndexOf(s, '@');
      assert s[at] in s;
      assert s[first.value] == '@';
      var after := s[at + 1..];
      forall k | 0 <= k < |after| ensures after[k] != '@' {
        assert after[k] == s[at + 1 + k];
      }
      assert s[at + 2..|s| - 1][dot - at - 2] == '.';
    }
  }

  // --------------------------------------------------------------- password

  /** The characters `.` does not match: a password holding one fails `.{6,}`. */
  predicate IsLineTerminator(c: char)
  {
    c == '\n' || c == '\r' || c == '\U{2028}' || c == '\U{2029}'
  }

  /** `/^(?=.*[a-z])(?=.*[A-Z]).{6,}$/`: six characters or more on one line, with a lower-case and an upper-case letter. */
  predicate SignupPasswordOk(p: string)
  {
    |p| >= 6 && ForgotResetPassword.HasLower(p) && ForgotResetPassword.HasUpper(p)
    && forall k :: 0 <= k < |p| ==> !IsLineTerminator(p[k])
  }

  /** A password the reset form accepts passes sign-up as long as it is on one line. */
  lemma ResetRuleIsStricter(p: string)
    requires ForgotResetPassword.ValidatePassword(p) == []
    requires forall k :: 0 <= k < |p| ==> !IsLineTerminator(p[k])
    ensures SignupPasswordOk(p)
  {
  }

  /** Sign-up, unlike the reset form, does not ask for a digit. */
  lemma SignupNeedsNoDigit()
    ensures SignupPasswordOk("Abcdef")
    ensures ForgotResetPassword.ValidatePassword("Abcdef") == ForgotResetPassword.NO_DIGIT
  {
    var p := "Abcdef";
    assert IsUpper(p[0]) && IsLower(p[1]);
    assert !ForgotResetPassword.HasDigit(p) by {
      forall i | 0 <= i < |p| ensures !IsDigit(p[i]) {
        assert p[i] in {'A', 'b', 'c', 'd', 'e', 'f'};
      }
    }
  }

  /**
   * The password is checked as typed but sent trimmed, so a password that
   * passes only thanks to its surrounding spaces reaches the server shorter
   * than the rule allows.
   */
  lemma TrimmedPasswordCanBreakRule()
    ensures SignupPasswordOk(" Abcd ")
    ensures Strip(" Abcd ") == "Abcd" && !SignupPasswordOk("Abcd")
  {
    var p := " Abcd ";
    assert IsUpper(p[1]) && IsLower(p[2]);
    assert forall k :: 0 <= k < |p| ==> p[k] in {' ', 'A', 'b', 'c', 'd'};
    assert LeadingSpaces(p) == 1;
    assert !IsSpace(p[4]) && IsSpace(p[5]);
  }

  // ------------------------------------------------------------- validation

  /** `validateForm`: each check fills its own field, independently of the others; the submit error is never set here. */
  function ValidateForm(f: SignupForm): (e: Errors)
    ensures e.username != [] <==> Strip(f.username) == []
    ensures e.email != [] <==> !MatchesEmailPattern(f.email)
    ensures e.password != [] <==> !SignupPasswordOk(f.password)
    ensures e.confirmPassword != [] <==> f.password != f.confirmPassword
    ensures e.submit == []
  {
    EmailCheckMatchesPattern(f.email);
    Errors(if Strip(f.username) == [] then USERNAME_REQUIRED else "",
           if !EmailValid(f.email) then EMAIL_INVALID else "",
           if !SignupPasswordOk(f.password) then PASSWORD_RULE else "",
           if f.password != f.confirmPassword then PASSWORDS_DIFFER else "",
           "")
  }

  /**
   * Where a thrown sign-up message is shown: the two duplicates on their
   * field, the missing fields on the form, anything else on the form as it
   * is, or the default text when it is empty.
   */
  function RouteError(message: string): (e: Errors)
    ensures e.Any()
    ensures Contains(message, USERNAME_TAKEN) ==> e == NO_ERRORS.(username := USERNAME_TAKEN)
    ensures !Contains(message, USERNAME_TAKEN) && Contains(message, EMAIL_TAKEN) ==> e == NO_ERRORS.(email := EMAIL_TAKEN)
    ensures !Contains(message, USERNAME_TAKEN) && !Contains(message, EMAIL_TAKEN) ==> e.username == [] && e.email == []
    ensures !Contains(message, USERNAME_TAKEN) && !Contains(message, EMAIL_TAKEN) && message != [] ==>
              e.submit == (if Contains(message, FIELDS_REQUIRED) then FIELDS_REQUIRED else message)
  {
    if Contains(message, USERNAME_TAKEN) then NO_ERRORS.(username := USERNAME_TAKEN)
    else if Contains(message, EMAIL_TAKEN) then NO_ERRORS.(email := EMAIL_TAKEN)
    else if Contains(message, FIELDS_REQUIRED) then NO_ERRORS.(submit := FIELDS_REQUIRED)
    else NO_ERRORS.(submit := if message != [] then message else SIGNUP_RETRY)
  }

  /** The server's duplicate-email refusal is shown on the email field. */
  lemma EmailTakenShownOnField(me: AuthSession.Call<AuthSession.Account>)
    ensures var r := AuthSession.Outcome<AuthSession.Body>(AuthSession.Replied(409, AuthSession.Body(Some(EMAIL_TAKEN), None, None)), me, AuthSession.Body(None, None, None), AuthSession.SIGNUP_FAILED);
            r.Thrown? && RouteError(r.message) == NO_ERRORS.(email := EMAIL_TAKEN)
  {
    AuthSession.RefusalMessagePassedOn(Reply(409, EMAIL_TAKEN), me, AuthSession.SIGNUP_FAILED);
    var s := EMAIL_TAKEN;
    assert !OccursAt(s, USERNAME_TAKEN, 0) by { assert s[0] != USERNAME_TAKEN[0]; }
    assert !OccursAt(s, USERNAME_TAKEN, 1) by { assert s[1] != USERNAME_TAKEN[0]; }
    assert OccursAt(s, EMAIL_TAKEN, 0);
  }

  /** The server's duplicate-username refusal is shown on the username field. */
  lemma UsernameTakenShownOnField(me: AuthSession.Call<AuthSession.Account>)
    ensures var r := AuthSession.Outcome<AuthSession.Body>(AuthSession.Replied(409, AuthSession.Body(Some(USERNAME_TAKEN), None, None)), me, AuthSession.Body(None, None, None), AuthSession.SIGNUP_FAILED);
            r.Thrown? && RouteError(r.message) == NO_ERRORS.(username := USERNAME_TAKEN)
  {
    AuthSession.RefusalMessagePassedOn(Reply(409, USERNAME_TAKEN), me, AuthSession.SIGNUP_FAILED);
    assert OccursAt(USERNAME_TAKEN, USERNAME_TAKEN, 0);
  }

  /** A thrown sign-up always carries a message, so the page's default text is never what is shown: the message is. */
  lemma ThrownMessageShown(call: AuthSession.Call<AuthSession.Body>, me: AuthSession.Call<AuthSession.Account>,
                           onSuccess: AuthSession.Body)
    requires AuthSession.Outcome(call, me, onSuccess, AuthSession.SIGNUP_FAILED).Thrown?
    ensures var m := AuthSession.Outcome(call, me, onSuccess, AuthSession.SIGNUP_FAILED).message;
            !Contains(m, USERNAME_TAKEN) && !Contains(m, EMAIL_TAKEN) && !Contains(m, FIELDS_REQUIRED)
            ==> RouteError(m) == NO_ERRORS.(submit := m)
  {
  }

  /** The three values `signup` is called with. */
  datatype Credentials = Credentials(username: string, email: string, password: string)

  /** The page's state. */
  class SignupPage {
    var form: SignupForm
    var errors: Errors
    var loading: bool
    var successMessage: string

    constructor ()
      ensures form == EMPTY_FORM && errors == NO_ERRORS && !loading && successMessage == []
    {
      form := EMPTY_FORM;
      errors := NO_ERRORS;
      loading := false;
      successMessage := [];
    }

    /** `handleChange` for the username field: the text is stored and its error and the submit error cleared. */
    method ChangeUsername(value: string)
      modifies this
      ensures form == old(form).(username := value)
      ensures errors == old(errors).(username := [], submit := [])
      ensures loading == old(loading) && successMessage == old(successMessage)
    {
      form := form.(username := value);
      if errors.username != [] {
        errors := errors.(username := []);
      }
      if errors.submit != [] {
        errors := errors.(submit := []);
      }
    }

    /** `handleChange` for the email field. */
    method ChangeEmail(value: string)
      modifies this
      ensures form == old(form).(email := value)
      ensures errors == old(errors).(email := [], submit := [])
      ensures loading == old(loading) && successMessage == old(successMessage)
    {
      form := form.(email := value);
      if errors.email != [] {
        errors := errors.(email := []);
      }
      if errors.submit != [] {
        errors := errors.(submit := []);
      }
    }

    /** `handleChange` for the password field. */
    method ChangePassword(value: string)
      modifies this
      ensures form == old(form).(password := value)
      ensures errors == old(errors).(password := [], submit := [])
      ensures loading == old(loading) && successMessage == old(successMessage)
    {
      form := form.(password := value);
      if errors.password != [] {
        errors := errors.(password := []);
      }
      if errors.submit != [] {
        errors := errors.(submit := []);
      }
    }

    /** `handleChange` for the confirmation field. */
    method ChangeConfirmPassword(value: string)
      modifies this
      ensures form == old(form).(confirmPassword := value)
      ensures errors == old(errors).(confirmPassword := [], submit := [])
      ensures loading == old(loading) && successMessage == old(successMessage)
    {
      form := form.(confirmPassword := value);
      if errors.confirmPassword != [] {
        errors := errors.(confirmPassword := []);
      }
      if errors.submit != [] {
        errors := errors.(submit := []);
      }
    }

    /**
     * `handleSubmit`: with any validation error nothing is sent and the
     * errors are shown; otherwise the trimmed fields are sent and `outcome`,
     * what `signup` then returned or threw, decides between the success
     * message with an emptied form and the routed error.
     */
    method HandleSubmit(outcome: AuthSession.Result<AuthSession.Body>) returns (sent: Option<Credentials>)
      modifies this
      ensures sent.Some? <==> !ValidateForm(old(form)).Any()
      ensures sent.None? ==> errors == ValidateForm(old(form)) && form == old(form)
                             && successMessage == old(successMessage) && loading == old(loading)
      ensures sent.Some? ==> sent.value == Credentials(Strip(old(form).username), Strip(old(form).email),
                                                       Strip(old(form).password)) && !loading
      ensures sent.Some? && outcome.Returned? ==> successMessage == ACCOUNT_CREATED && form == EMPTY_FORM
                                                  && errors == NO_ERRORS
      ensures sent.Some? && outcome.Thrown? ==> successMessage == [] && form == old(form)
                                                && errors == RouteError(outcome.message)
    {
      var newErrors := ValidateForm(form);
      if newErrors.Any() {
        errors := newErrors;
        return None;
      }
      sent := Some(Credentials(Strip(form.username), Strip(form.email), Strip(form.password)));
      Settle(outcome);
    }

    /** What the page does once `signup` has returned or thrown. */
    method Settle(outcome: AuthSession.Result<AuthSession.Body>)
      modifies this
      ensures !loading
      ensures outcome.Returned? ==> successMessage == ACCOUNT_CREATED && form == EMPTY_FORM && errors == NO_ERRORS
      ensures outcome.Thrown? ==> successMessage == [] && form == old(form) && errors == RouteError(outcome.message)
    {
      loading := true;
      errors := NO_ERRORS;
      successMessage := [];
      match outcome {
        case Returned(_) =>
          successMessage := ACCOUNT_CREATED;
          form := EMPTY_FORM;
        case Thrown(m) =>
          errors := RouteError(m);
      }
      loading := false;
    }
  }
}
