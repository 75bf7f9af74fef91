/** Account credentials shared by buyers (controller/user.js) and shops
    (controller/shop.js): the e-mail verification state machine, the login
    gate, the one-hour password-reset token and the random codes. */
module Accounts {
  import opened Common
  import opened Entities

  /** A reset token is valid for one hour after it is issued. */
  const RESET_WINDOW_MS := 3600000

  const DIGITS := "0123456789"
  const UPPER_HEX := "0123456789ABCDEF"
  const LOWER_HEX := "0123456789abcdef"

  /** What `generateNewVerificationCode` returns: six decimal digits. */
  predicate IsDigitCode(s: string)
  {
    |s| == 6 && forall i :: 0 <= i < |s| ==> s[i] in DIGITS
  }

  /** `crypto.randomBytes(3).toString('hex').toUpperCase()`: six upper-case
      hexadecimal digits. */
  predicate IsSignupCode(s: string)
  {
    |s| == 6 && forall i :: 0 <= i < |s| ==> s[i] in UPPER_HEX
  }

  /** `crypto.randomBytes(20).toString('hex')`: forty lower-case hexadecimal
      digits. */
  predicate IsResetToken(s: string)
  {
    |s| == 40 && forall i :: 0 <= i < |s| ==> s[i] in LOWER_HEX
  }

  /** `generateNewVerificationCode`: six times a random digit, appended. */
  method GenerateNewVerificationCode() returns (result: string)
    ensures IsDigitCode(result)
  {
    var length := 6;
    var characters := DIGITS;
    result := "";
    for i := 0 to length
      invariant |result| == i
      invariant forall k :: 0 <= k < |result| ==> result[k] in DIGITS
    {
      var pick :| 0 <= pick < |characters|;
      result := result + [characters[pick]];
    }
  }

  /** A fresh sign-up code. */
  method NewSignupCode() returns (code: string)
    ensures IsSignupCode(code)
  {
    assert IsSignupCode("000000");
    code :| IsSignupCode(code);
  }

  /** A fresh reset token. */
  method NewResetToken() returns (token: string)
    ensures IsResetToken(token)
  {
    var zeros := seq(40, _ => '0');
    assert IsResetToken(zeros);
    token :| IsResetToken(token);
  }

  /** The credentials of a new account: unverified, with its code. */
  function NewCredentials(email: string, password: string, code: string): Credentials
  {
    Credentials(email, password, false, Some(code), None, None)
  }

  // ---------------------------------------------------------------------
  // E-mail verification
  // ---------------------------------------------------------------------

  /** `/verify-email/:id/:code` on an existing account: a verified account
      is left as it is, a wrong code changes nothing, the right code
      verifies the account and clears the code. */
  function Verify(c: Credentials, code: string): Credentials
  {
    if c.isEmailVerified then c
    else if c.emailVerificationCode != Some(code) then c
    else c.(isEmailVerified := true, emailVerificationCode := None)
  }

  /** The reply to a verification attempt on an existing account. */
  function VerifyStatus(c: Credentials, code: string): int
  {
    if c.isEmailVerified then OK
    else if c.emailVerificationCode != Some(code) then BAD_REQUEST
    else OK
  }

  /** An account ends verified exactly when it was, or when the code it was
      sent is presented; only verification changes anything, and the
      verified state is never left. */
  lemma VerifySpec(c: Credentials, code: string)
    ensures Verify(c, code).isEmailVerified <==> c.isEmailVerified || c.emailVerificationCode == Some(code)
    ensures Verify(c, code) != c ==> !c.isEmailVerified && Verify(c, code).emailVerificationCode.None?
    ensures Verify(c, code) == c.(isEmailVerified := Verify(c, code).isEmailVerified,
                                  emailVerificationCode := Verify(c, code).emailVerificationCode)
    ensures VerifyStatus(c, code) == BAD_REQUEST <==> !Verify(c, code).isEmailVerified
    ensures forall other :: Verify(c, code).isEmailVerified ==> Verify(Verify(c, code), other) == Verify(c, code)
  {
  }

  /** Resend on an existing account: a verified account keeps its state,
      otherwise the code is replaced. */
  function Resend(c: Credentials, newCode: string): Credentials
  {
    if c.isEmailVerified then c else c.(emailVerificationCode := Some(newCode))
  }

  /** After a resend only the newest code verifies. */
  lemma ResendSupersedes(c: Credentials, newCode: string, oldCode: string)
    requires !c.isEmailVerified && oldCode != newCode
    ensures !Verify(Resend(c, newCode), oldCode).isEmailVerified
    ensures Verify(Resend(c, newCode), newCode).isEmailVerified
  {
  }

  // ---------------------------------------------------------------------
  // Login
  // ---------------------------------------------------------------------

  datatype LoginOutcome = MissingFields | NoSuchAccount | NotVerified | BadCredentials | LoggedIn

  /** The login gate, in the handler's order: both fields present, an
      account with that e-mail, a verified account, then the password. */
  function LoginGate(email: string, password: string, account: Option<Credentials>,
                     checkPassword: (string, string) -> bool): LoginOutcome
  {
    if email == "" || password == "" then MissingFields
    else if account.None? then NoSuchAccount
    else if !account.value.isEmailVerified then NotVerified
    else if !checkPassword(password, account.value.password) then BadCredentials
    else LoggedIn
  }

  /** Login succeeds exactly for a verified account with the right password;
      an unverified account is refused whatever the password. */
  lemma LoginGateSpec(email: string, password: string, account: Option<Credentials>,
                      checkPassword: (string, string) -> bool, otherCheck: (string, string) -> bool)
    ensures LoginGate(email, password, account, checkPassword) == LoggedIn <==>
      email != "" && password != "" && account.Some? && account.value.isEmailVerified
      && checkPassword(password, account.value.password)
    ensures email != "" && password != "" && account.Some? && !account.value.isEmailVerified ==>
      LoginGate(email, password, account, checkPassword) == NotVerified
      && LoginGate(email, password, account, otherCheck) == NotVerified
  {
  }

  /** The reply to a login attempt: `success` when the gate lets the
      account in, 400 otherwise. */
  function LoginReply(outcome: LoginOutcome, success: int): int
  {
    if outcome == LoggedIn then success else BAD_REQUEST
  }

  // ---------------------------------------------------------------------
  // Password reset
  // ---------------------------------------------------------------------

  /** `/forgot-password`: store the token and its expiry. */
  function IssueReset(c: Credentials, token: string, now: int): Credentials
  {
    c.(resetPasswordToken := Some(token), resetPasswordExpiry := Some(now + RESET_WINDOW_MS))
  }

  /** The reset lookup: `resetPasswordToken: token` and
      `resetPasswordExpiry: { $gt: now }`. */
  predicate CanReset(c: Credentials, token: string, now: int)
  {
    c.resetPasswordToken == Some(token) && c.resetPasswordExpiry.Some? && c.resetPasswordExpiry.value > now
  }

  /** `/reset-password`: set the password and clear the token and expiry. */
  function ApplyReset(c: Credentials, newPassword: string): Credentials
  {
    c.(password := newPassword, resetPasswordToken := None, resetPasswordExpiry := None)
  }

  /** An issued token opens a reset exactly within the hour after issue,
      a reset uses it up, and issuing a new token retires the old one. */
  lemma ResetSpec(c: Credentials, token: string, issued: int, later: int, newPassword: string, other: string)
    ensures CanReset(IssueReset(c, token, issued), token, later) <==> later < issued + RESET_WINDOW_MS
    ensures !CanReset(ApplyReset(c, newPassword), token, later)
    ensures other != token ==> !CanReset(IssueReset(IssueReset(c, token, issued), other, later), token, later)
    ensures ApplyReset(c, newPassword).password == newPassword
    ensures ApplyReset(c, newPassword).isEmailVerified == c.isEmailVerified
  {
  }
}
