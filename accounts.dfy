/** Account handlers: the guard chains of registration and login, the
    password change, and the password-reset flow (request a code, check the
    code, set the new password).

    The account the handler looked up (by e-mail or by the id of the
    authenticated user) is a parameter, `null` when the lookup found none.
    The bcrypt comparison is the parameter `matches(plain, stored)`; the clock
    and the random draw are integer parameters. */
module Accounts {
  import opened Responses
  import opened Codes

  type AccountId = string

  /** Registration and reset both refuse passwords shorter than this. */
  const MinPasswordLength: nat := 8

  /** A reset code is valid for one hour, in milliseconds. */
  const ResetCodeLifetime: int := 3600000

  /** The stored fields of an account, as one value. */
  datatype AccountState = AccountState(
    fullname: string,
    email: string,
    password: string,
    isAdmin: bool,
    resetPasswordCode: Option<string>,
    resetPasswordCodeExpires: Option<int>)

  /** The fields of a registration request. */
  datatype Registration = Registration(fullname: string, email: string, password: string, isAdmin: bool)

  class Account {
    const id: AccountId
    var fullname: string
    var email: string
    var password: string
    var isAdmin: bool
    var resetPasswordCode: Option<string>
    var resetPasswordCodeExpires: Option<int>

    function State(): AccountState
      reads this
    {
      AccountState(fullname, email, password, isAdmin, resetPasswordCode, resetPasswordCodeExpires)
    }

    /** The account a successful registration creates. */
    constructor (id: AccountId, form: Registration)
      ensures this.id == id
      ensures State() == AccountState(form.fullname, form.email, form.password, form.isAdmin, None, None)
    {
      this.id := id;
      fullname, email, password, isAdmin := form.fullname, form.email, form.password, form.isAdmin;
      resetPasswordCode, resetPasswordCodeExpires := None, None;
    }
  }

  /** The server-side session of one client. */
  class Session {
    var resetPasswordEmail: Option<string>

    constructor ()
      ensures resetPasswordEmail == None
    {
      resetPasswordEmail := None;
    }
  }

  // -----------------------------------------------------------------------
  // registerUser

  /** What the e-mail verifier service answered: an error, or its report,
      whose checks are the strings "true" and "false". */
  datatype VerifierReply =
    | VerifierError
    | Report(formatCheck: string, disposableCheck: string, dnsCheck: string, smtpCheck: string)

  /** An address is accepted when its format and DNS checks pass, it is not a
      disposable address, and the SMTP check did not fail outright (an
      undetermined SMTP check is accepted). */
  predicate EmailAccepted(v: VerifierReply)
  {
    && v.Report?
    && v.formatCheck == "true"
    && v.disposableCheck == "false"
    && v.dnsCheck == "true"
    && v.smtpCheck != "false"
  }

  predicate Filled(form: Registration)
  {
    form.fullname != "" && form.email != "" && form.password != ""
  }

  /** registerUser as intended: the checks in order, then the verifier, then
      the welcome mail; the account is created only when all of them pass. */
  function RegisterUser(form: Registration, emailTaken: bool, verifier: VerifierReply, welcomeMailSent: bool)
    : (r: Result<Registration>)
    ensures r.Ok? <==>
      Filled(form) && |form.password| >= MinPasswordLength && !emailTaken
      && EmailAccepted(verifier) && welcomeMailSent
    ensures r.Ok? ==> r.value == form
    ensures !Filled(form) ==> r == Err(HttpError(400, ValidationError, "Please fill in all required fields"))
    ensures Filled(form) && |form.password| < MinPasswordLength ==>
      r == Err(HttpError(400, ValidationError, "Password must be up to 8 characters"))
    ensures Filled(form) && |form.password| >= MinPasswordLength && emailTaken ==>
      r == Err(HttpError(400, ValidationError, "Email has already been registered"))
    ensures (Filled(form) && |form.password| >= MinPasswordLength && !emailTaken && verifier.Report?
             && !EmailAccepted(verifier)) ==>
      r == Err(HttpError(400, ValidationError, "Please use a valid email address"))
    ensures (Filled(form) && |form.password| >= MinPasswordLength && !emailTaken && verifier.VerifierError?) ==>
      r == Err(HttpError(404, ServiceFailed, "email verifier"))
    ensures (Filled(form) && |form.password| >= MinPasswordLength && !emailTaken && EmailAccepted(verifier)
             && !welcomeMailSent) ==>
      r == Err(HttpError(400, ServiceFailed, "error sending verification email"))
  {
    if !Filled(form) then
      Err(HttpError(400, ValidationError, "Please fill in all required fields"))
    else if |form.password| < MinPasswordLength then
      Err(HttpError(400, ValidationError, "Password must be up to 8 characters"))
    else if emailTaken then
      Err(HttpError(400, ValidationError, "Email has already been registered"))
    else if verifier.VerifierError? then
      Err(HttpError(404, ServiceFailed, "email verifier"))
    else if !EmailAccepted(verifier) then
      Err(HttpError(400, ValidationError, "Please use a valid email address"))
    else if !welcomeMailSent then
      Err(HttpError(400, ServiceFailed, "error sending verification email"))
    else
      Ok(form)
  }

  /** registerUser as written: the short-password branch is `return res`
      followed by unreachable lines, so the handler returns without sending
      anything. None stands for "no response". */
  function RegisterUserAsWritten(form: Registration, emailTaken: bool, verifier: VerifierReply, welcomeMailSent: bool)
    : (r: Option<Result<Registration>>)
    ensures r.None? <==> Filled(form) && |form.password| < MinPasswordLength
  {
    if !Filled(form) then
      Some(Err(HttpError(400, ValidationError, "Please fill in all required fields")))
    else if |form.password| < MinPasswordLength then
      None
    else if emailTaken then
      Some(Err(HttpError(400, ValidationError, "Email has already been registered")))
    else if verifier.VerifierError? then
      Some(Err(HttpError(404, ServiceFailed, "email verifier")))
    else if !EmailAccepted(verifier) then
      Some(Err(HttpError(400, ValidationError, "Please use a valid email address")))
    else if !welcomeMailSent then
      Some(Err(HttpError(400, ServiceFailed, "error sending verification email")))
    else
      Some(Ok(form))
  }

  /** The two versions agree except on a short password, where the written
      one creates no account but also never answers. */
  lemma RegisterVersionsAgree(form: Registration, emailTaken: bool, verifier: VerifierReply, welcomeMailSent: bool)
    ensures !(Filled(form) && |form.password| < MinPasswordLength) ==>
      RegisterUserAsWritten(form, emailTaken, verifier, welcomeMailSent)
        == Some(RegisterUser(form, emailTaken, verifier, welcomeMailSent))
    ensures Filled(form) && |form.password| < MinPasswordLength ==>
      && RegisterUserAsWritten(form, emailTaken, verifier, welcomeMailSent).None?
      && RegisterUser(form, emailTaken, verifier, welcomeMailSent).Err?
  {
  }

  // -----------------------------------------------------------------------
  // loginUser

  /** What a login answers, and for which account (if any) the response
      carries a fresh session-token cookie. */
  datatype LoginReply = LoginReply(result: Result<AccountId>, cookieFor: Option<AccountId>)

  /** loginUser as written: the token cookie is set as soon as the account is
      found, before the password is compared. */
  function LoginUserAsWritten(email: string, password: string, user: Account?, matches: (string, string) -> bool)
    : (r: LoginReply)
    reads user
    ensures r.result.Ok? <==> email != "" && password != "" && user != null && matches(password, user.password)
    ensures r.result.Ok? ==> r.result.value == user.id
    ensures email == "" || password == "" ==>
      r == LoginReply(Err(HttpError(400, ValidationError, "Please add email and password")), None)
    ensures email != "" && password != "" && user == null ==>
      r == LoginReply(Err(HttpError(400, NotFound, "User not found, please signup")), None)
    ensures email != "" && password != "" && user != null ==> r.cookieFor == Some(user.id)
  {
    if email == "" || password == "" then
      LoginReply(Err(HttpError(400, ValidationError, "Please add email and password")), None)
    else if user == null then
      LoginReply(Err(HttpError(400, NotFound, "User not found, please signup")), None)
    else if matches(password, user.password) then
      LoginReply(Ok(user.id), Some(user.id))
    else
      LoginReply(Err(HttpError(400, BadCredentials, "Invalid email or password")), Some(user.id))
  }

  /** loginUser as intended: a session cookie only for a correct password. */
  function LoginUser(email: string, password: string, user: Account?, matches: (string, string) -> bool)
    : (r: LoginReply)
    reads user
    ensures r.result.Ok? <==> email != "" && password != "" && user != null && matches(password, user.password)
    ensures r.result.Ok? ==> r.result.value == user.id
    ensures r.cookieFor.Some? <==> r.result.Ok?
    ensures r.cookieFor.Some? ==> r.cookieFor == Some(user.id)
  {
    if email == "" || password == "" then
      LoginReply(Err(HttpError(400, ValidationError, "Please add email and password")), None)
    else if user == null then
      LoginReply(Err(HttpError(400, NotFound, "User not found, please signup")), None)
    else if matches(password, user.password) then
      LoginReply(Ok(user.id), Some(user.id))
    else
      LoginReply(Err(HttpError(400, BadCredentials, "Invalid email or password")), None)
  }

  /** With the right e-mail and a wrong password, the written handler answers
      400 yet hands out a session cookie for the account. */
  lemma WrongPasswordStillGetsCookie(email: string, password: string, user: Account, matches: (string, string) -> bool)
    requires email != "" && password != "" && !matches(password, user.password)
    ensures LoginUserAsWritten(email, password, user, matches).result.Err?
    ensures LoginUserAsWritten(email, password, user, matches).cookieFor == Some(user.id)
    ensures LoginUser(email, password, user, matches).cookieFor == None
  {
  }

  // -----------------------------------------------------------------------
  // changePassword

  /** changePassword: the user comes from the authenticated id. The new
      password is not length-checked here. */
  method ChangePassword(user: Account?, oldPassword: string, password: string, matches: (string, string) -> bool)
    returns (r: Outcome)
    modifies user
    ensures user == null ==> r == Failed(HttpError(400, NotFound, "User not found, please signup"))
    ensures user != null && (oldPassword == "" || password == "") ==>
      r == Failed(HttpError(400, ValidationError, "Please add old and new password"))
    ensures user != null && oldPassword != "" && password != "" && !matches(oldPassword, old(user.password)) ==>
      r == Failed(HttpError(400, BadCredentials, "Old password is incorrect"))
    ensures r.Done? <==>
      user != null && oldPassword != "" && password != "" && matches(oldPassword, old(user.password))
    ensures r.Done? ==> r.status == 200
    ensures user != null ==>
      user.State() == if r.Done? then old(user.State()).(password := password) else old(user.State())
  {
    if user == null {
      return Failed(HttpError(400, NotFound, "User not found, please signup"));
    }
    if oldPassword == "" || password == "" {
      return Failed(HttpError(400, ValidationError, "Please add old and new password"));
    }
    var passwordIsCorrect := matches(oldPassword, user.password);
    if passwordIsCorrect {
      user.password := password;
      r := Done(200);
    } else {
      r := Failed(HttpError(400, BadCredentials, "Old password is incorrect"));
    }
  }

  // -----------------------------------------------------------------------
  // The password-reset flow

  /** forgotPassword: store a fresh code valid for one hour, remember the
      e-mail in the session, and mail the code. Every error is rethrown from
      the catch block as a 404 whose message is the text of the first error.
      A failed mail comes after the account and session are already updated. */
  method ForgotPassword(email: string, user: Account?, session: Session, now: int, draw: int, mailError: Option<string>)
    returns (r: Outcome)
    requires 0 <= draw < 9000
    modifies user, session
    ensures email == "" ==> r == Failed(HttpError(404, ValidationError, "Error: Please add email"))
    ensures email != "" && user == null ==>
      r == Failed(HttpError(404, NotFound, "Error: No Account With that email addresss exist"))
    ensures email == "" || user == null ==>
      session.resetPasswordEmail == old(session.resetPasswordEmail)
      && (user != null ==> user.State() == old(user.State()))
    ensures email != "" && user != null ==>
      && user.State() == old(user.State()).(resetPasswordCode := Some(ResetCode(draw)),
                                            resetPasswordCodeExpires := Some(now + ResetCodeLifetime))
      && session.resetPasswordEmail == Some(email)
      && r == if mailError.None? then Done(200) else Failed(HttpError(404, ServiceFailed, "Error: " + mailError.value))
  {
    if email == "" {
      return Failed(HttpError(404, ValidationError, "Error: Please add email"));
    }
    if user == null {
      return Failed(HttpError(404, NotFound, "Error: No Account With that email addresss exist"));
    }
    var code := ResetCode(draw);
    user.resetPasswordCode := Some(code);
    user.resetPasswordCodeExpires := Some(now + ResetCodeLifetime);
    session.resetPasswordEmail := Some(email);
    if mailError.Some? {
      return Failed(HttpError(404, ServiceFailed, "Error: " + mailError.value));
    }
    r := Done(200);
  }

  /** A stored expiry is passed when it lies strictly before `now`; with no
      stored expiry the comparison `undefined < now` is false. */
  predicate Expired(expires: Option<int>, now: int)
  {
    expires.Some? && expires.value < now
  }

  /** The reset handlers look the account up by the e-mail stored in the
      client's session: when the session holds an e-mail, an account found
      has that e-mail. With no e-mail in the session the lookup's result is
      left open. */
  predicate NamedBySession(session: Session, user: Account?)
    reads session, user
  {
    user != null && session.resetPasswordEmail.Some? ==> user.email == session.resetPasswordEmail.value
  }

  /** resetemailsent: check, in order, that a code was given, that it is the
      stored code, and that it has not expired. It changes nothing. The
      account is the one named by the session's e-mail; when there is none,
      reading its code throws. */
  function ResetEmailSent(code: string, session: Session, user: Account?, now: int): (r: Outcome)
    requires NamedBySession(session, user)
    reads session, user
    ensures code == "" ==> r == Failed(HttpError(404, ValidationError, "please enter code"))
    ensures code != "" && user == null ==>
      r == Failed(HttpError(500, Unhandled, "Cannot read properties of null (reading 'resetPasswordCode')"))
    ensures code != "" && user != null && user.resetPasswordCode != Some(code) ==>
      r == Failed(HttpError(404, BadCredentials, "invalid code"))
    ensures code != "" && user != null && user.resetPasswordCode == Some(code) && Expired(user.resetPasswordCodeExpires, now) ==>
      r == Failed(HttpError(404, CodeExpired, "Password reset code expired"))
    ensures r.Done? <==>
      code != "" && user != null && user.resetPasswordCode == Some(code) && !Expired(user.resetPasswordCodeExpires, now)
    ensures r.Done? ==> r.status == 200
  {
    if code == "" then Failed(HttpError(404, ValidationError, "please enter code"))
    else if user == null then
      Failed(HttpError(500, Unhandled, "Cannot read properties of null (reading 'resetPasswordCode')"))
    else if user.resetPasswordCode != Some(code) then Failed(HttpError(404, BadCredentials, "invalid code"))
    else if Expired(user.resetPasswordCodeExpires, now) then
      Failed(HttpError(404, CodeExpired, "Password reset code expired"))
    else Done(200)
  }

  /** After forgotPassword stored the code of draw `draw` at time `issuedAt`,
      a code is accepted exactly when it is that code's text and the check
      comes no later than one hour after; the deadline itself is accepted.
      No other four-digit number's text is accepted. */
  lemma ResetCodeLifecycle(session: Session, user: Account, draw: int, issuedAt: int, code: string, now: int)
    requires NamedBySession(session, user)
    requires 0 <= draw < 9000
    requires user.resetPasswordCode == Some(ResetCode(draw))
    requires user.resetPasswordCodeExpires == Some(issuedAt + ResetCodeLifetime)
    ensures ResetEmailSent(code, session, user, now).Done? <==> code == ResetCode(draw) && now <= issuedAt + ResetCodeLifetime
    ensures forall n: nat :: 1000 <= n <= 9999 && n != 1000 + draw ==> ResetEmailSent(Decimal(n), session, user, now).Failed?
  {
    forall n: nat | 1000 <= n <= 9999 && n != 1000 + draw
      ensures ResetEmailSent(Decimal(n), session, user, now).Failed?
    {
      if Decimal(n) == ResetCode(draw) {
        DecimalInjective(n, 1000 + draw);
      }
    }
  }

  /** resetPassword as written: validate the new password, look up the
      account named by the session's e-mail, overwrite its password. It does
      not look at the reset code. Errors are rethrown as 404. */
  method ResetPassword(newPassword: string, session: Session, user: Account?) returns (r: Outcome)
    requires NamedBySession(session, user)
    modifies user
    ensures newPassword == "" ==> r == Failed(HttpError(404, ValidationError, "Error: Please enter a Password"))
    ensures newPassword != "" && |newPassword| < MinPasswordLength ==>
      r == Failed(HttpError(404, ValidationError, "Error: Password must be at least 8 characters"))
    ensures |newPassword| >= MinPasswordLength && user == null ==>
      r == Failed(HttpError(404, NotFound, "Error: Account Not Found"))
    ensures r.Done? <==> |newPassword| >= MinPasswordLength && user != null
    ensures r.Done? ==> r.status == 200
    ensures user != null ==>
      user.State() == if r.Done? then old(user.State()).(password := newPassword) else old(user.State())
  {
    if newPassword == "" {
      return Failed(HttpError(404, ValidationError, "Error: Please enter a Password"));
    }
    if |newPassword| < MinPasswordLength {
      return Failed(HttpError(404, ValidationError, "Error: Password must be at least 8 characters"));
    }
    if user == null {
      return Failed(HttpError(404, NotFound, "Error: Account Not Found"));
    }
    user.password := newPassword;
    r := Done(200);
  }

  /** resetPassword as intended: the same checks, and the password is only
      overwritten for a request that presents the valid, unexpired code. */
  method ResetPasswordWithCode(code: string, newPassword: string, session: Session, user: Account?, now: int)
    returns (r: Outcome)
    requires NamedBySession(session, user)
    modifies user
    ensures newPassword == "" ==> r == Failed(HttpError(404, ValidationError, "Error: Please enter a Password"))
    ensures newPassword != "" && |newPassword| < MinPasswordLength ==>
      r == Failed(HttpError(404, ValidationError, "Error: Password must be at least 8 characters"))
    ensures |newPassword| >= MinPasswordLength && user == null ==>
      r == Failed(HttpError(404, NotFound, "Error: Account Not Found"))
    ensures |newPassword| >= MinPasswordLength && user != null && old(ResetEmailSent(code, session, user, now)).Failed? ==>
      r == old(ResetEmailSent(code, session, user, now))
    ensures r.Done? <==>
      |newPassword| >= MinPasswordLength && user != null && old(ResetEmailSent(code, session, user, now)).Done?
    ensures r.Done? ==> r.status == 200
    ensures user != null ==>
      user.State() == if r.Done? then old(user.State()).(password := newPassword) else old(user.State())
  {
    if newPassword == "" {
      return Failed(HttpError(404, ValidationError, "Error: Please enter a Password"));
    }
    if |newPassword| < MinPasswordLength {
      return Failed(HttpError(404, ValidationError, "Error: Password must be at least 8 characters"));
    }
    if user == null {
      return Failed(HttpError(404, NotFound, "Error: Account Not Found"));
    }
    var check := ResetEmailSent(code, session, user, now);
    if check.Failed? {
      return check;
    }
    user.password := newPassword;
    r := Done(200);
  }

  /** A client that only knows a victim's e-mail asks for a reset code. The
      code is mailed to the victim and never seen by the client, but the
      client's own session now names the victim. With that session the
      written resetPassword sets the victim's password. The intended version
      refuses the same request made with a wrong code, at the code
      comparison, and leaves the password alone. */
  method ResetWithoutCode() returns (asWritten: Outcome, passwordAfter: string, intended: Outcome, intendedPasswordAfter: string)
    ensures asWritten == Done(200) && passwordAfter == "chosen-by-attacker"
    ensures intended == Failed(HttpError(404, BadCredentials, "invalid code"))
    ensures intendedPasswordAfter == "victim-secret"
  {
    var victim := new Account("victim-id", Registration("Victim", "victim@example.com", "victim-secret", false));
    var attackerSession := new Session();
    var requested := ForgotPassword("victim@example.com", victim, attackerSession, 0, 1234, None);
    asWritten := ResetPassword("chosen-by-attacker", attackerSession, victim);
    passwordAfter := victim.password;

    var victim2 := new Account("victim-id", Registration("Victim", "victim@example.com", "victim-secret", false));
    var attackerSession2 := new Session();
    requested := ForgotPassword("victim@example.com", victim2, attackerSession2, 0, 1234, None);
    // The issued code is the text of 2234; the guess is the text of 1000.
    var guess := ResetCode(0);
    if guess == ResetCode(1234) {
      ResetCodeInjective(0, 1234);
    }
    assert victim2.resetPasswordCode == Some(ResetCode(1234)) != Some(guess);
    intended := ResetPasswordWithCode(guess, "chosen-by-attacker", attackerSession2, victim2, 0);
    intendedPasswordAfter := victim2.password;
  }
}
