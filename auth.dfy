/**
 * The authentication screen: a form with a login, a register and a
 * forgot-password mode, whose submit button issues one request to the
 * authentication service.
 *
 * The service's answer arrives later as an event (success or failure, with
 * the error it reports), and so does the firing of a five-second reset timer.
 * `validateEmail` is not part of this model: the form takes it as an arbitrary
 * predicate on strings.
 */
module Auth {
  import opened Wrappers

  /** The error the guard of `authorize` shows. */
  const MandatoryMessage: string := "Email and password are mandatory."

  /** The one request `authorize` sends past its guard, with the credentials it read. */
  datatype AuthRequest =
    | PasswordReset(email: string)                     // `sendPasswordResetEmail`
    | SignIn(email: string, password: string)          // `signInWithEmailAndPassword`
    | CreateAccount(email: string, password: string)   // `createUserWithEmailAndPassword`

  /** The email-validity effect: an email of five characters or fewer is never valid. */
  function EmailValidity(email: string, validateEmail: string -> bool): (valid: bool)
    ensures |email| <= 5 ==> !valid
    ensures 5 < |email| ==> (valid <==> validateEmail(email))
  {
    if |email| > 5 then validateEmail(email) else false
  }

  /**
   * The guard of `authorize`: the email is always required, the password only
   * outside forgot mode.
   */
  function MissingCredentials(email: string, password: string, forgot: bool): (missing: bool)
    ensures forgot ==> (missing <==> email == "")
    ensures !forgot ==> (missing <==> email == "" || password == "")
  {
    email == "" || (!forgot && password == "")
  }

  /**
   * The request `authorize` dispatches past its guard: a password reset in
   * forgot mode, otherwise account creation in register mode, otherwise a
   * sign-in; each carries the credentials as they were read.
   */
  function RequestFor(email: string, password: string, forgot: bool, register: bool): (req: AuthRequest)
    ensures req.PasswordReset? <==> forgot
    ensures req.CreateAccount? <==> !forgot && register
    ensures req.SignIn? <==> !forgot && !register
    ensures req.email == email
    ensures !req.PasswordReset? ==> req.password == password
  {
    if forgot then PasswordReset(email)
    else if !register then SignIn(email, password)
    else CreateAccount(email, password)
  }

  /** The submit button is disabled unless the email validates and no request is loading. */
  function SubmitEnabled(emailValidate: bool, loading: bool): (enabled: bool)
    ensures enabled ==> emailValidate
    ensures enabled ==> !loading
    ensures emailValidate && !loading ==> enabled
  {
    !(!emailValidate || loading)
  }

  /** Whenever the submit button is enabled the email has more than five characters, so the guard's empty-email case is out of its reach. */
  lemma SubmitNeedsEmail(email: string, validateEmail: string -> bool, loading: bool)
    requires SubmitEnabled(EmailValidity(email, validateEmail), loading)
    ensures 5 < |email| && !MissingCredentials(email, "", true)
  {
  }

  /**
   * The `Login` component's state. `pending` is the request `authorize` is
   * awaiting and `timers` counts the five-second reset timers not yet fired.
   */
  class LoginForm {
    var register: bool
    var forgot: bool
    var sent: bool
    var loading: bool
    var email: string
    var password: string
    var error: Option<string>
    var emailValidate: bool
    var pending: Option<AuthRequest>
    var timers: nat
    const validateEmail: string -> bool

    /** `emailValidate` is what the email-validity effect computed for the current email; `loading` holds while a request is awaited. */
    ghost predicate Valid()
      reads this
    {
      && emailValidate == EmailValidity(email, validateEmail)
      && (loading <==> pending.Some?)
    }

    /** The form as it mounts; the effect on `sent` runs once on mount and arms a reset timer. */
    constructor (validateEmail: string -> bool)
      ensures Valid()
      ensures !register && !forgot && !sent && !loading
      ensures email == "" && password == "" && error == None && !emailValidate
      ensures pending == None && timers == 1
      ensures this.validateEmail == validateEmail
    {
      this.validateEmail := validateEmail;
      register, forgot, sent, loading := false, false, false, false;
      email, password, error := "", "", None;
      emailValidate := false;
      pending, timers := None, 1;
    }

    /** Typing in the email field: the email is replaced, the error cleared and the email revalidated. */
    method EditEmail(text: string)
      requires Valid()
      modifies this
      ensures Valid()
      ensures email == text && error == None && password == old(password)
      ensures emailValidate == EmailValidity(text, validateEmail)
      ensures register == old(register) && forgot == old(forgot) && sent == old(sent)
      ensures loading == old(loading) && pending == old(pending) && timers == old(timers)
    {
      email, error := text, None;
      emailValidate := EmailValidity(email, validateEmail);
    }

    /** Typing in the password field: the password is replaced and the error cleared. */
    method EditPassword(text: string)
      requires Valid()
      modifies this
      ensures Valid()
      ensures password == text && error == None && email == old(email)
      ensures emailValidate == old(emailValidate)
      ensures register == old(register) && forgot == old(forgot) && sent == old(sent)
      ensures loading == old(loading) && pending == old(pending) && timers == old(timers)
    {
      password, error := text, None;
    }

    /**
     * `authorize`. With credentials missing it shows the mandatory-fields
     * error and sends nothing; otherwise it sets `loading` and sends exactly
     * the one request `RequestFor` names.
     */
    method Authorize() returns (req: Option<AuthRequest>)
      requires Valid() && !loading
      modifies this
      ensures Valid()
      ensures MissingCredentials(old(email), old(password), old(forgot)) ==>
        req == None && error == Some(MandatoryMessage) && !loading && pending == None
      ensures !MissingCredentials(old(email), old(password), old(forgot)) ==>
        req == Some(RequestFor(old(email), old(password), old(forgot), old(register))) &&
        loading && pending == req && error == old(error)
      ensures email == old(email) && password == old(password) && emailValidate == old(emailValidate)
      ensures register == old(register) && forgot == old(forgot) && sent == old(sent)
      ensures timers == old(timers)
    {
      if MissingCredentials(email, password, forgot) {
        error := Some(MandatoryMessage);
        req := None;
        return;
      }
      loading := true;
      req := Some(RequestFor(email, password, forgot, register));
      pending := req;
    }

    /** The submit button: `authorize` runs only when the button is enabled. */
    method PressSubmit() returns (req: Option<AuthRequest>)
      requires Valid()
      modifies this
      ensures Valid()
      ensures !SubmitEnabled(old(emailValidate), old(loading)) ==>
        req == None && error == old(error) && loading == old(loading) && pending == old(pending)
      ensures SubmitEnabled(old(emailValidate), old(loading)) && !old(forgot) && old(password) == "" ==>
        req == None && error == Some(MandatoryMessage) && !loading && pending == None
      ensures SubmitEnabled(old(emailValidate), old(loading)) && (old(forgot) || old(password) != "") ==>
        req == Some(RequestFor(old(email), old(password), old(forgot), old(register))) &&
        loading && pending == req && error == old(error)
      ensures email == old(email) && password == old(password) && emailValidate == old(emailValidate)
      ensures register == old(register) && forgot == old(forgot) && sent == old(sent)
      ensures timers == old(timers)
    {
      req := None;
      if SubmitEnabled(emailValidate, loading) {
        SubmitNeedsEmail(email, validateEmail, loading);
        req := Authorize();
      }
    }

    /**
     * The awaited request settles and `loading` is cleared whatever the
     * outcome. A successful reset sets `sent` (arming a reset timer when
     * `sent` changes); a failed reset is only alerted. A failed sign-in or
     * account creation stores `failure` as the error, writing back the
     * credentials the request was sent with; a successful one leaves the form
     * to the navigation that follows sign-in.
     */
    method AuthSettled(ok: bool, failure: string)
      requires Valid() && loading
      modifies this
      ensures Valid()
      ensures !loading && pending == None
      ensures register == old(register) && forgot == old(forgot)
      ensures old(pending).value.PasswordReset? ==>
        sent == (ok || old(sent)) &&
        timers == old(timers) + (if ok && !old(sent) then 1 else 0) &&
        email == old(email) && password == old(password) && error == old(error)
      ensures !old(pending).value.PasswordReset? ==> sent == old(sent) && timers == old(timers)
      ensures !old(pending).value.PasswordReset? && !ok ==>
        email == old(pending).value.email && password == old(pending).value.password &&
        error == Some(failure)
      ensures !old(pending).value.PasswordReset? && ok ==>
        email == old(email) && password == old(password) && error == old(error)
    {
      var req := pending.value;
      if req.PasswordReset? {
        if ok && !sent {
          sent := true;
          timers := timers + 1;
        }
      } else if !ok {
        email, password, error := req.email, req.password, Some(failure);
        emailValidate := EmailValidity(email, validateEmail);
      }
      loading, pending := false, None;
    }

    /**
     * A reset timer fires: `sent`, `forgot` and the credentials are cleared.
     * When this changes `sent`, the effect on `sent` arms another timer.
     */
    method TimerFired()
      requires Valid() && 0 < timers
      modifies this
      ensures Valid()
      ensures !sent && !forgot && email == "" && password == "" && error == None
      ensures !emailValidate
      ensures timers == old(timers) - 1 + (if old(sent) then 1 else 0)
      ensures register == old(register) && loading == old(loading) && pending == old(pending)
    {
      var wasSent := sent;
      sent, forgot := false, false;
      email, password, error := "", "", None;
      emailValidate := EmailValidity(email, validateEmail);
      timers := timers - 1 + (if wasSent then 1 else 0);
    }

    /** The register/login toggle: `register` flips and forgot mode is always left. */
    method ToggleRegister()
      requires Valid()
      modifies this
      ensures Valid()
      ensures register == !old(register) && !forgot
      ensures email == old(email) && password == old(password) && error == old(error)
      ensures emailValidate == old(emailValidate) && sent == old(sent)
      ensures loading == old(loading) && pending == old(pending) && timers == old(timers)
    {
      forgot := false;
      register := !register;
    }

    /** The "Forgot password" link, hidden in register mode and in forgot mode, enters forgot mode. */
    method OpenForgot()
      requires Valid() && !register && !forgot
      modifies this
      ensures Valid()
      ensures forgot && !register
      ensures email == old(email) && password == old(password) && error == old(error)
      ensures emailValidate == old(emailValidate) && sent == old(sent)
      ensures loading == old(loading) && pending == old(pending) && timers == old(timers)
    {
      forgot := true;
    }

    /** The back chevron, shown only in forgot mode, leaves it. */
    method CloseForgot()
      requires Valid() && forgot
      modifies this
      ensures Valid()
      ensures !forgot && register == old(register)
      ensures email == old(email) && password == old(password) && error == old(error)
      ensures emailValidate == old(emailValidate) && sent == old(sent)
      ensures loading == old(loading) && pending == old(pending) && timers == old(timers)
    {
      forgot := false;
    }
  }
}
