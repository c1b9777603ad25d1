/**
 * The sign-up screen: the password rule, the e-mail domain check, the
 * verification step, the reset when the e-mail changes, and the ordered
 * checks of sign-up and log-in. The screen's component state is a class
 * whose handlers update its fields.
 */
module LoginScreen {
  import opened Wrappers
  import opened JsText

  const KAIST_DOMAIN: string := "@kaist.ac.kr"
  const SEND_CODE_TEXT: string := "Send Verification Code"
  const CODE_SENT_TEXT: string := "Code Sent!"
  const VERIFIED_TEXT: string := "Verified!"

  // ---------------------------------------------------------------------
  // The password rule: /^(?=.*[A-Za-z])(?=.*\d)[A-Za-z\d]{6,15}$/

  predicate IsAsciiLetter(c: char) {
    'A' <= c <= 'Z' || 'a' <= c <= 'z'
  }

  predicate IsAsciiDigit(c: char) {
    '0' <= c <= '9'
  }

  predicate IsPasswordChar(c: char) {
    IsAsciiLetter(c) || IsAsciiDigit(c)
  }

  /** A lookahead `(?=.*[cls])`: scanning from the left, some character is in the class. */
  predicate Occurs(s: string, cls: char -> bool) {
    s != [] && (cls(s[0]) || Occurs(s[1..], cls))
  }

  /** The anchored body `[cls]{n}`: scanning from the left, every character is in the class. */
  predicate AllIn(s: string, cls: char -> bool) {
    s == [] || (cls(s[0]) && AllIn(s[1..], cls))
  }

  lemma {:induction false} OccursMeans(s: string, cls: char -> bool)
    ensures Occurs(s, cls) <==> exists i :: 0 <= i < |s| && cls(s[i])
    decreases |s|
  {
    if s != [] {
      OccursMeans(s[1..], cls);
      if !cls(s[0]) && (exists i :: 0 <= i < |s| && cls(s[i])) {
        var i :| 0 <= i < |s| && cls(s[i]);
        assert s[1..][i - 1] == s[i];
      }
    }
  }

  lemma {:induction false} AllInMeans(s: string, cls: char -> bool)
    ensures AllIn(s, cls) <==> forall i :: 0 <= i < |s| ==> cls(s[i])
    decreases |s|
  {
    if s != [] {
      AllInMeans(s[1..], cls);
      if cls(s[0]) && AllIn(s[1..], cls) {
        forall i | 0 <= i < |s| ensures cls(s[i]) {
          if i > 0 { assert s[i] == s[1..][i - 1]; }
        }
      }
    }
  }

  /**
   * `validatePassword`, read as the regular expression's two lookaheads and
   * anchored body. In plain terms: 6 to 15 characters, all ASCII letters or
   * digits, with at least one letter and at least one digit.
   */
  predicate ValidatePassword(p: string): (ok: bool)
    ensures ok <==>
      && 6 <= |p| <= 15
      && (forall i :: 0 <= i < |p| ==> IsPasswordChar(p[i]))
      && (exists i :: 0 <= i < |p| && IsAsciiLetter(p[i]))
      && (exists j :: 0 <= j < |p| && IsAsciiDigit(p[j]))
  {
    OccursMeans(p, IsAsciiLetter);
    OccursMeans(p, IsAsciiDigit);
    AllInMeans(p, IsPasswordChar);
    Occurs(p, IsAsciiLetter) && Occurs(p, IsAsciiDigit) && AllIn(p, IsPasswordChar) && 6 <= |p| <= 15
  }

  // ---------------------------------------------------------------------
  // The screen

  datatype Alert = Alert(title: string, message: string)

  const EMAIL_REQUIRED := Alert("Error", "Email is required.")
  const NAME_REQUIRED := Alert("Error", "Full name is required.")
  const NOT_VERIFIED := Alert("Error", "Please verify your email first.")
  const INVALID_PASSWORD := Alert("Invalid Password", "Password must be 6–15 characters long and contain letters and numbers.")
  const PASSWORD_MISMATCH := Alert("Error", "Passwords do not match.")
  const INVALID_EMAIL := Alert("Invalid Email", "Only KAIST emails are allowed.")
  const CODE_MISSING := Alert("Error", "Enter the code")

  /** `handleLogin`: an error alert, or the success alert followed by navigation to `/home`. */
  datatype LoginOutcome = LoginRejected(alert: Alert) | LoggedIn

  /** `handleSignup`: an error alert, or the success alert followed by `handleLogin`. */
  datatype SignupOutcome = SignupRejected(alert: Alert) | SignedUp(login: LoginOutcome)

  class SignupForm {
    var username: string
    var email: string
    var password: string
    var confirmPassword: string
    var code: string
    var isVerifying: bool
    var isVerified: bool
    var disabled: bool
    var verificationButtonText: string

    /**
     * The verification flags never outlive the e-mail they were obtained
     * for: while verifying or verified, the e-mail is a KAIST address and
     * the send button is disabled.
     */
    ghost predicate Valid()
      reads this
    {
      && (isVerifying ==> disabled && !isVerified && verificationButtonText == CODE_SENT_TEXT && EndsWith(email, KAIST_DOMAIN))
      && (isVerified ==> disabled && !isVerifying && verificationButtonText == VERIFIED_TEXT && EndsWith(email, KAIST_DOMAIN))
      && (!disabled ==> !isVerifying && !isVerified && verificationButtonText == SEND_CODE_TEXT)
    }

    /** The flags the e-mail reset effect restores. */
    ghost predicate VerificationReset()
      reads this
    {
      !disabled && !isVerifying && !isVerified && code == "" && verificationButtonText == SEND_CODE_TEXT
    }

    constructor ()
      ensures Valid() && VerificationReset()
      ensures username == "" && email == "" && password == "" && confirmPassword == ""
    {
      username, email, password, confirmPassword, code := "", "", "", "", "";
      isVerifying, isVerified, disabled := false, false, false;
      verificationButtonText := SEND_CODE_TEXT;
    }

    method SetUsername(s: string)
      requires Valid()
      modifies this`username
      ensures Valid() && username == s
    {
      username := s;
    }

    method SetPassword(s: string)
      requires Valid()
      modifies this`password
      ensures Valid() && password == s
    {
      password := s;
    }

    method SetConfirmPassword(s: string)
      requires Valid()
      modifies this`confirmPassword
      ensures Valid() && confirmPassword == s
    {
      confirmPassword := s;
    }

    method SetCode(s: string)
      requires Valid()
      modifies this`code
      ensures Valid() && code == s
    {
      code := s;
    }

    /**
     * Typing in the e-mail field, followed by the effect keyed on `email`:
     * a changed e-mail resets the whole verification state; the same value
     * does not re-run the effect.
     */
    method SetEmail(s: string)
      requires Valid()
      modifies this
      ensures Valid() && email == s
      ensures s != old(email) ==> VerificationReset()
      ensures s == old(email) ==>
        (code == old(code) && isVerifying == old(isVerifying) && isVerified == old(isVerified)
         && disabled == old(disabled) && verificationButtonText == old(verificationButtonText))
      ensures username == old(username) && password == old(password) && confirmPassword == old(confirmPassword)
    {
      if s != email {
        email := s;
        disabled := false;
        verificationButtonText := SEND_CODE_TEXT;
        isVerifying := false;
        isVerified := false;
        code := "";
      }
    }

    /**
     * `sendVerificationCode`, reachable only through the send button, which
     * is shown while not verifying and enabled while not disabled.
     */
    method SendVerificationCode() returns (alert: Option<Alert>)
      requires Valid() && !isVerifying && !disabled
      modifies this
      ensures Valid()
      ensures !EndsWith(email, KAIST_DOMAIN) ==>
        (alert == Some(INVALID_EMAIL) && disabled == old(disabled) && isVerifying == old(isVerifying)
         && verificationButtonText == old(verificationButtonText))
      ensures EndsWith(email, KAIST_DOMAIN) ==>
        alert == None && disabled && isVerifying && verificationButtonText == CODE_SENT_TEXT
      ensures isVerified == old(isVerified) && code == old(code)
      ensures email == old(email) && username == old(username) && password == old(password)
        && confirmPassword == old(confirmPassword)
    {
      if !EndsWith(email, KAIST_DOMAIN) {
        return Some(INVALID_EMAIL);
      }
      disabled := true;
      verificationButtonText := CODE_SENT_TEXT;
      isVerifying := true;
      alert := None;
    }

    /** `verify`, reachable only through the verify button, which is shown while verifying. */
    method Verify() returns (alert: Option<Alert>)
      requires Valid() && isVerifying
      modifies this
      ensures Valid()
      ensures code == "" ==>
        (alert == Some(CODE_MISSING) && !isVerified && isVerifying && verificationButtonText == old(verificationButtonText))
      ensures code != "" ==> alert == None && isVerified && !isVerifying && verificationButtonText == VERIFIED_TEXT
      ensures disabled == old(disabled) && code == old(code)
      ensures email == old(email) && username == old(username) && password == old(password)
        && confirmPassword == old(confirmPassword)
    {
      if |code| > 0 {
        isVerified := true;
        isVerifying := false;
        verificationButtonText := VERIFIED_TEXT;
        alert := None;
      } else {
        alert := Some(CODE_MISSING);
      }
    }

    /** `handleLogin`: non-blank e-mail first, then the password rule. */
    method HandleLogin() returns (outcome: LoginOutcome)
      ensures outcome == LoginRejected(EMAIL_REQUIRED) <==> IsBlank(email)
      ensures outcome == LoginRejected(INVALID_PASSWORD) <==> !IsBlank(email) && !ValidatePassword(password)
      ensures outcome == LoggedIn <==> !IsBlank(email) && ValidatePassword(password)
    {
      if IsBlank(email) {
        return LoginRejected(EMAIL_REQUIRED);
      }
      if !ValidatePassword(password) {
        return LoginRejected(INVALID_PASSWORD);
      }
      outcome := LoggedIn;
    }

    /**
     * `handleSignup`: five checks in order, stopping at the first failure;
     * success runs the log-in checks, which then always pass.
     */
    method HandleSignup() returns (outcome: SignupOutcome)
      ensures outcome == SignupRejected(NAME_REQUIRED) <==> IsBlank(username)
      ensures outcome == SignupRejected(EMAIL_REQUIRED) <==> !IsBlank(username) && IsBlank(email)
      ensures outcome == SignupRejected(NOT_VERIFIED) <==> !IsBlank(username) && !IsBlank(email) && !isVerified
      ensures outcome == SignupRejected(INVALID_PASSWORD) <==>
        !IsBlank(username) && !IsBlank(email) && isVerified && !ValidatePassword(password)
      ensures outcome == SignupRejected(PASSWORD_MISMATCH) <==>
        !IsBlank(username) && !IsBlank(email) && isVerified && ValidatePassword(password) && password != confirmPassword
      ensures outcome.SignedUp? <==>
        !IsBlank(username) && !IsBlank(email) && isVerified && ValidatePassword(password) && password == confirmPassword
      ensures outcome.SignedUp? ==> outcome.login == LoggedIn
      ensures Valid() && outcome.SignedUp? ==> EndsWith(email, KAIST_DOMAIN)
    {
      if IsBlank(username) {
        return SignupRejected(NAME_REQUIRED);
      }
      if IsBlank(email) {
        return SignupRejected(EMAIL_REQUIRED);
      }
      if !isVerified {
        return SignupRejected(NOT_VERIFIED);
      }
      if !ValidatePassword(password) {
        return SignupRejected(INVALID_PASSWORD);
      }
      if password != confirmPassword {
        return SignupRejected(PASSWORD_MISMATCH);
      }
      var login := HandleLogin();
      outcome := SignedUp(login);
    }
  }

  /** An address ending in the KAIST domain is never blank. */
  lemma KaistEmailIsNotBlank(email: string)
    requires EndsWith(email, KAIST_DOMAIN)
    ensures !IsBlank(email)
  {
    BlankIffAllTrimmable(email);
    assert email[|email| - 1] == 'r';
  }
}
