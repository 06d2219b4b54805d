/**
 * The login screen (src/Login.jsx): one form toggled between signing in and
 * registering, the Google sign-in, and the messages each outcome leaves.
 * Replies of the login and registration endpoints are inputs.
 */
module Login {
  import opened Js
  import opened Http
  import opened Identity
  import Session

  /** The form's nine state cells. */
  datatype FormState = FormState(
    isLogin: bool,
    email: string,
    password: string,
    username: string,
    role: string,
    verificationToken: string,
    errors: map<string, seq<string>>,
    generalError: string,
    successMessage: string)

  const InitialForm := FormState(true, "", "", "", "", "", map[], "", "")

  // -------------------------------------------------------------- requests

  /** The body posted to the registration endpoint. `verificationToken` is sent only by recruiters. */
  datatype Registration = Registration(
    email: string,
    password: string,
    username: string,
    role: string,
    authType: string,
    status: string,
    verificationToken: Option<string>)

  /** The claims of the Google credential that the registration body uses. */
  datatype Claims = Claims(email: Option<string>, sub: Option<string>, picture: Option<string>, name: Option<string>)

  /** The body of the Google registration: every new Google user is a candidate. */
  datatype GoogleRegistration = GoogleRegistration(
    email: Option<string>,
    authType: string,
    googleId: Option<string>,
    picture: Option<string>,
    username: Option<string>,
    role: string)

  datatype Request =
    | SignInRequest(email: string, password: string)
    | RegisterRequest(registration: Registration)
    | GoogleRequest(google: GoogleRegistration)

  /** The registration body for the form's fields. */
  function RegistrationOf(s: FormState): (r: Registration)
    ensures r.email == s.email && r.password == s.password && r.username == s.username && r.role == s.role
    ensures r.authType == "local" && r.status == "active"
    ensures r.verificationToken.Some? <==> s.role == "recruiter"
    ensures r.verificationToken.Some? ==> r.verificationToken.value == s.verificationToken
  {
    Registration(s.email, s.password, s.username, s.role, "local", "active",
      if s.role == "recruiter" then Some(s.verificationToken) else None)
  }

  /** What a submission posts: the credentials in sign-in mode, the registration otherwise. */
  function SubmitRequest(s: FormState): (r: Request)
    ensures s.isLogin <==> r.SignInRequest?
    ensures r.SignInRequest? ==> r.email == s.email && r.password == s.password
    ensures r.RegisterRequest? ==> r.registration == RegistrationOf(s)
  {
    if s.isLogin then SignInRequest(s.email, s.password) else RegisterRequest(RegistrationOf(s))
  }

  function GoogleRequestOf(c: Claims): (r: Request)
    ensures r.GoogleRequest?
    ensures r.google.role == "candidate" && r.google.authType == "google"
    ensures r.google.email == c.email && r.google.googleId == c.sub
    ensures r.google.picture == c.picture && r.google.username == c.name
  {
    GoogleRequest(GoogleRegistration(c.email, "google", c.sub, c.picture, c.name, "candidate"))
  }

  // -------------------------------------------------------------- outcomes

  /** `onLogin(body, token)` followed by a navigation to `/`, or nothing. */
  datatype Effect = NoEffect | SignIn(user: UserRecord, token: Option<string>)

  const LoginFallback := "Login failed. Please try again."
  const LoginGeneric := "An error occurred during login. Please try again."
  const RegisteredText := "Registro exitoso. Por favor ingrese sus credenciales para iniciar sesion."
  const RegisterGeneric := "An error occurred during registration. Please try again."
  const GoogleFailed := "Google login failed. Please try again."

  /** The messages cleared at the start of every submission and on every mode switch. */
  function ClearMessages(s: FormState): (r: FormState)
    ensures r.errors == map[] && r.generalError == "" && r.successMessage == ""
    ensures r.(errors := s.errors, generalError := s.generalError, successMessage := s.successMessage) == s
  {
    s.(errors := map[], generalError := "", successMessage := "")
  }

  /**
   * The sign-in reply. Only `status === 'success'` signs in, and it reads
   * `data.token`, so a success without `data` throws inside the `try` and
   * ends on the generic message. A caught error shows the server's message
   * when it is truthy.
   */
  function SignInOutcome(reply: Response<UserRecord>): (o: (Effect, string))
    ensures o.0.SignIn? <==> reply.Got? && IsSuccess(reply.body.status) && reply.body.data.Some?
    ensures o.0.SignIn? ==> o.0.user == reply.body && o.0.token == reply.body.data.value.token && o.1 == ""
    ensures o.0.NoEffect? ==> o.1 != ""
    ensures reply.Got? && !IsSuccess(reply.body.status) ==> o.1 == OrElse(reply.body.message, LoginFallback)
    ensures reply.Got? && IsSuccess(reply.body.status) && reply.body.data.None? ==> o.1 == LoginGeneric
    ensures reply.Threw? ==> o.1 == OrElse(ServerMessage(reply.error), LoginGeneric)
  {
    match reply
    case Got(body) =>
      if IsSuccess(body.status) then
        (match body.data
         case Some(d) => (SignIn(body, d.token), "")
         case None => (NoEffect, LoginGeneric))
      else (NoEffect, OrElse(body.message, LoginFallback))
    case Threw(error) => (NoEffect, OrElse(ServerMessage(error), LoginGeneric))
  }

  /**
   * The registration reply: any 2xx is a success, whatever its body; a
   * caught error with an `errors` object (even an empty one) shows field
   * errors, else a truthy server message, else the generic message.
   */
  function RegisterOutcome(s: FormState, reply: Response<UserRecord>): (r: FormState)
    requires s.errors == map[] && s.generalError == "" && s.successMessage == ""
    ensures reply.Got? ==> r == FormState(true, "", "", "", "", "", map[], "", RegisteredText)
    ensures reply.Threw? ==>
              r.isLogin == s.isLogin && r.email == s.email && r.password == s.password &&
              r.username == s.username && r.role == s.role &&
              r.verificationToken == s.verificationToken && r.successMessage == ""
    ensures reply.Threw? && reply.error.Some? && reply.error.value.errors.Some? ==>
              r.errors == reply.error.value.errors.value && r.generalError == ""
    ensures reply.Threw? && !(reply.error.Some? && reply.error.value.errors.Some?) ==>
              r.errors == map[] && r.generalError == OrElse(ServerMessage(reply.error), RegisterGeneric)
  {
    match reply
    case Got(_) =>
      s.(successMessage := RegisteredText, isLogin := true, email := "", password := "",
         username := "", role := "", verificationToken := "")
    case Threw(error) =>
      if error.Some? && error.value.errors.Some? then s.(errors := error.value.errors.value)
      else s.(generalError := OrElse(ServerMessage(error), RegisterGeneric))
  }

  /** `handleSubmit`: clear the messages, post, and apply the outcome of the mode that posted. */
  function Submit(s: FormState, reply: Response<UserRecord>): (o: (FormState, Effect))
    ensures s.isLogin ==> o.0 == ClearMessages(s).(generalError := SignInOutcome(reply).1) && o.1 == SignInOutcome(reply).0
    ensures !s.isLogin ==> o.0 == RegisterOutcome(ClearMessages(s), reply) && o.1.NoEffect?
  {
    var cleared := ClearMessages(s);
    if s.isLogin then
      var (effect, message) := SignInOutcome(reply);
      (cleared.(generalError := message), effect)
    else (RegisterOutcome(cleared, reply), NoEffect)
  }

  /**
   * After any submission the form shows at most one kind of feedback: field
   * errors, a general error, or the success notice.
   */
  lemma OneKindOfFeedback(s: FormState, reply: Response<UserRecord>)
    ensures var r := Submit(s, reply).0;
            (r.successMessage != "" ==> r.generalError == "" && r.errors == map[])
            && (r.generalError != "" ==> r.errors == map[])
  {
  }

  /**
   * A registration that throws with an `errors` object none of whose keys
   * has an input on screen: the object replaces the field errors, and no
   * alert shows. An empty object is one.
   */
  predicate UnrenderedErrors(s: FormState, reply: Response<UserRecord>) {
    !s.isLogin && reply.Threw? && reply.error.Some? && reply.error.value.errors.Some?
    && forall f :: f in reply.error.value.errors.value ==> !FieldRendered(s, f)
  }

  /**
   * A submission either signs in or leaves something on screen: a general
   * error, the success notice or an alert under an input. The one exception
   * is a registration whose thrown `errors` object has no rendered key.
   */
  lemma EverySubmissionAnswers(s: FormState, reply: Response<UserRecord>)
    ensures var (r, effect) := Submit(s, reply);
            effect.SignIn? || r.generalError != "" || r.successMessage != "" || ShowsFieldError(r)
            || UnrenderedErrors(s, reply)
  {
    var (r, effect) := Submit(s, reply);
    if !s.isLogin && reply.Threw? && reply.error.Some? && reply.error.value.errors.Some? && !UnrenderedErrors(s, reply) {
      var f :| f in reply.error.value.errors.value && FieldRendered(s, f);
      assert FieldError(r.errors, f).Some?;
    }
  }

  /** That exception does leave the form silent: no sign-in, no message, no alert. */
  lemma UnrenderedErrorsAreSilent(s: FormState, reply: Response<UserRecord>)
    requires UnrenderedErrors(s, reply)
    ensures var (r, effect) := Submit(s, reply);
            !effect.SignIn? && r.generalError == "" && r.successMessage == "" && !ShowsFieldError(r)
  {
    var (r, effect) := Submit(s, reply);
    assert r.errors == reply.error.value.errors.value;
  }

  /** Only the strict test signs in: a truthy status that is not 'success' shows the server's message. */
  lemma TruthyStatusDoesNotSignIn(body: UserRecord)
    requires IsTruthy(body.status) && !IsSuccess(body.status)
    ensures SignInOutcome(Got(body)) == (NoEffect, OrElse(body.message, LoginFallback))
  {
  }

  /** A successful registration switches to sign-in with every field empty. */
  lemma RegistrationThenSignIn(s: FormState, body: UserRecord)
    requires !s.isLogin
    ensures var r := Submit(s, Got(body)).0;
            SubmitRequest(r) == SignInRequest("", "") && r.successMessage == RegisteredText
  {
  }

  /** A signed-in reply with a non-empty token opens the shell's root route. */
  lemma SignInOpensRoot(s: FormState, reply: Response<UserRecord>, session: Session.SessionState, location: string)
    requires s.isLogin && !session.loading
    requires Submit(s, reply).1.SignIn? && Truthy(Submit(s, reply).1.token)
    ensures var e := Submit(s, reply).1;
            Session.GateIn(Session.Login(session, e.user, e.token), Session.AllowedRolesFor(None), location)
              == Session.Decision(Session.Children, Session.Stay)
  {
  }

  /** The mode switch: flip the mode and clear the messages, keeping the typed fields. */
  function Toggle(s: FormState): (r: FormState)
    ensures r.isLogin == !s.isLogin
    ensures r.errors == map[] && r.generalError == "" && r.successMessage == ""
    ensures r.(isLogin := s.isLogin) == ClearMessages(s)
  {
    ClearMessages(s).(isLogin := !s.isLogin)
  }

  /** Switching twice returns to the same mode and fields, with the messages gone. */
  lemma ToggleTwice(s: FormState)
    ensures Toggle(Toggle(s)) == ClearMessages(s)
  {
  }

  /**
   * The Google reply: no status test, and nothing is cleared. A body with
   * `data` signs in even when its status reports an error; a body without
   * `data` or a thrown request shows the Google message.
   */
  function GoogleOutcome(s: FormState, reply: Response<UserRecord>): (o: (FormState, Effect))
    ensures o.1.SignIn? <==> reply.Got? && reply.body.data.Some?
    ensures o.1.SignIn? ==> o.0 == s && o.1.user == reply.body && o.1.token == reply.body.data.value.token
    ensures o.1.NoEffect? ==> o.0 == s.(generalError := GoogleFailed)
  {
    match reply
    case Got(body) =>
      (match body.data
       case Some(d) => (s, SignIn(body, d.token))
       case None => (s.(generalError := GoogleFailed), NoEffect))
    case Threw(_) => (s.(generalError := GoogleFailed), NoEffect)
  }

  /** The Google path signs in on a reply the sign-in form would refuse. */
  lemma GoogleIgnoresStatus(s: FormState, t: FormState, token: Option<string>)
    requires t.isLogin
    ensures var body := UserRecord(Text("error"), None, Some(AuthData(token, None)), NoProfile);
            GoogleOutcome(s, Got(body)).1.SignIn? && Submit(t, Got(body)).1.NoEffect?
  {
  }

  /**
   * The alert under a field's input: shown whenever the field has an entry,
   * since an array is truthy even when empty, and holding its first message,
   * or no text for an empty array.
   */
  function FieldError(errors: map<string, seq<string>>, field: string): (m: Option<Option<string>>)
    ensures m.Some? <==> field in errors
    ensures m.Some? ==> (m.value.Some? <==> |errors[field]| > 0)
    ensures m.Some? && m.value.Some? ==> m.value.value == errors[field][0]
  {
    if field !in errors then None
    else if |errors[field]| > 0 then Some(Some(errors[field][0]))
    else Some(None)
  }

  /**
   * Whether the field's input, and so its alert, is on screen: email and
   * password always, name and role when registering, the verification token
   * when registering as a recruiter.
   */
  predicate FieldRendered(s: FormState, field: string) {
    field == "email" || field == "password"
    || (!s.isLogin && (field == "username" || field == "role"))
    || (!s.isLogin && s.role == "recruiter" && field == "verificationToken")
  }

  /** Some rendered input shows its alert. */
  predicate ShowsFieldError(s: FormState) {
    (FieldError(s.errors, "email").Some? && FieldRendered(s, "email"))
    || (FieldError(s.errors, "password").Some? && FieldRendered(s, "password"))
    || (FieldError(s.errors, "username").Some? && FieldRendered(s, "username"))
    || (FieldError(s.errors, "role").Some? && FieldRendered(s, "role"))
    || (FieldError(s.errors, "verificationToken").Some? && FieldRendered(s, "verificationToken"))
  }

  /** The four inputs and the role select. */
  datatype Field = EmailField | PasswordField | UsernameField | RoleField | VerificationTokenField

  function Edit(s: FormState, f: Field, value: string): (r: FormState)
    ensures r.isLogin == s.isLogin && r.errors == s.errors
    ensures r.generalError == s.generalError && r.successMessage == s.successMessage
    ensures f == EmailField ==> r == s.(email := value)
    ensures f == PasswordField ==> r == s.(password := value)
    ensures f == UsernameField ==> r == s.(username := value)
    ensures f == RoleField ==> r == s.(role := value)
    ensures f == VerificationTokenField ==> r == s.(verificationToken := value)
  {
    match f
    case EmailField => s.(email := value)
    case PasswordField => s.(password := value)
    case UsernameField => s.(username := value)
    case RoleField => s.(role := value)
    case VerificationTokenField => s.(verificationToken := value)
  }

  /** The component's state cells; each handler is one method. */
  class LoginForm {
    var isLogin: bool
    var email: string
    var password: string
    var username: string
    var role: string
    var verificationToken: string
    var errors: map<string, seq<string>>
    var generalError: string
    var successMessage: string

    function State(): FormState
      reads this
    {
      FormState(isLogin, email, password, username, role, verificationToken, errors, generalError, successMessage)
    }

    method SetState(s: FormState)
      modifies this
      ensures State() == s
    {
      isLogin, email, password := s.isLogin, s.email, s.password;
      username, role, verificationToken := s.username, s.role, s.verificationToken;
      errors, generalError, successMessage := s.errors, s.generalError, s.successMessage;
    }

    constructor ()
      ensures State() == InitialForm
    {
      isLogin, email, password := true, "", "";
      username, role, verificationToken := "", "", "";
      errors, generalError, successMessage := map[], "", "";
    }

    method Change(f: Field, value: string)
      modifies this
      ensures State() == Edit(old(State()), f, value)
    {
      match f {
        case EmailField => email := value;
        case PasswordField => password := value;
        case UsernameField => username := value;
        case RoleField => role := value;
        case VerificationTokenField => verificationToken := value;
      }
    }

    /** `handleSubmit`, given the endpoint's reply: returns what was posted and whether to sign in. */
    method HandleSubmit(reply: Response<UserRecord>) returns (request: Request, effect: Effect)
      modifies this
      ensures request == SubmitRequest(old(State()))
      ensures (State(), effect) == Submit(old(State()), reply)
    {
      request := SubmitRequest(State());
      errors, generalError, successMessage := map[], "", "";
      if isLogin {
        var outcome := SignInOutcome(reply);
        effect := outcome.0;
        generalError := outcome.1;
      } else {
        var next := RegisterOutcome(State(), reply);
        SetState(next);
        effect := NoEffect;
      }
    }

    method HandleToggle()
      modifies this
      ensures State() == Toggle(old(State()))
    {
      isLogin := !isLogin;
      errors, generalError, successMessage := map[], "", "";
    }

    method HandleGoogleSuccess(claims: Claims, reply: Response<UserRecord>) returns (request: Request, effect: Effect)
      modifies this
      ensures request == GoogleRequestOf(claims)
      ensures (State(), effect) == GoogleOutcome(old(State()), reply)
    {
      request := GoogleRequestOf(claims);
      effect := NoEffect;
      match reply {
        case Got(body) =>
          if body.data.Some? {
            effect := SignIn(body, body.data.value.token);
          } else {
            generalError := GoogleFailed;
          }
        case Threw(_) =>
          generalError := GoogleFailed;
      }
    }

    method HandleGoogleError()
      modifies this
      ensures State() == old(State()).(generalError := GoogleFailed)
    {
      generalError := GoogleFailed;
    }
  }
}
