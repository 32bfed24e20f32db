/**
 * The screen flow of the app as a state machine over the navigation
 * stack's current route.  Every user action on a screen is one event; the
 * screen's handler decides the request, the alert and the navigation, and
 * the machine moves to the navigation's target (a delayed navigation is
 * taken at once).  Actions a screen does not offer change nothing.
 */
module Flow {
  import opened Remote
  import opened Credentials
  import Otp
  import LoginForm = Login
  import RegisterForm = Register
  import Confirmation = ConfirmIdentity
  import TwoFactor = Verification

  /** The stack's initial route: the login screen, without route parameters. */
  const Initial: Route := Login(false)

  /** A user action, with the outcome of the request it may send. */
  datatype Event =
    | OpenRegister                                            // "Crea una cuenta" on the login screen
    | BackToLogin                                             // "Inicia sesión" on the registration screen
    | SubmitLogin(email: string, password: string, response: Outcome)
    | SubmitRegistration(form: RegisterForm.Registration, response: Outcome)
    | SubmitCode(code: seq<string>, response: Outcome)
    | Resend(response: Outcome)
    | Logout                                                  // the home screen's logout

  /** One transition: the new route and what the action sent and showed. */
  datatype Step = Step(screen: Route, request: Option<Request>, alert: Option<string>)

  /** Take what a handler left behind: follow its navigation, if any. */
  function Apply(s: Route, h: Handled): Step {
    Step(if h.navigation.Some? then h.navigation.value.to else s, h.request, h.alert)
  }

  /**
   * The stack's navigation graph: the `navigate` calls each screen makes.
   * Login opens registration or, after a login, verification; registration
   * goes back to login or on to confirmation; confirmation returns to login;
   * verification goes home; home logs out to a reset login.
   */
  predicate Edge(s: Route, t: Route) {
    match s
    case Login(_) => t == Register || t.Verification?
    case Register => t == Login(false) || t.ConfirmIdentity?
    case ConfirmIdentity(_) => t == Login(false)
    case Verification(_) => t == Home
    case Home => t == Login(true)
  }

  /** The transition function of the flow: every step stays or follows one edge of the graph. */
  function Next(s: Route, e: Event): (r: Step)
    ensures r.screen == s || Edge(s, r.screen)
  {
    match s
    case Login(_) =>
      (match e
       case OpenRegister => Step(Register, None, None)
       case SubmitLogin(email, password, response) => Apply(s, LoginForm.LoginResult(email, password, response))
       case _ => Step(s, None, None))
    case Register =>
      (match e
       case BackToLogin => Step(Login(false), None, None)
       case SubmitRegistration(f, response) => Apply(s, RegisterForm.RegisterResult(f, response))
       case _ => Step(s, None, None))
    case ConfirmIdentity(email) =>
      (match e
       case SubmitCode(code, response) => Apply(s, Confirmation.SubmitResult(email, code, response))
       case Resend(response) => Apply(s, Confirmation.ResendResult(email, response))
       case _ => Step(s, None, None))
    case Verification(email) =>
      (match e
       case SubmitCode(code, response) => Apply(s, TwoFactor.SubmitResult(email, code, response))
       case Resend(response) => Apply(s, TwoFactor.ResendResult(email, response))
       case _ => Step(s, None, None))
    case Home =>
      (match e
       case Logout => Step(Login(true), None, None)
       case _ => Step(s, None, None))
  }

  // ---------------------------------------------------------------------
  // Single transitions
  // ---------------------------------------------------------------------

  /** Login moves to verification, carrying exactly the submitted e-mail, on status 200 and only then. */
  lemma LoginTransition(reset: bool, email: string, password: string, response: Outcome)
    ensures var r := Next(Login(reset), SubmitLogin(email, password, response));
      && (r.screen == Login(reset) || r.screen == Verification(email))
      && (r.screen == Verification(email) <==> LoginForm.CheckLogin(email, password).None? && response == Status(200))
  {
  }

  /** Registration moves to identity confirmation with the same e-mail on status 200 or 201 and only then. */
  lemma RegisterTransition(f: RegisterForm.Registration, response: Outcome)
    ensures var r := Next(Register, SubmitRegistration(f, response));
      && (r.screen == Register || r.screen == ConfirmIdentity(f.email))
      && (r.screen == ConfirmIdentity(f.email) <==>
            RegisterForm.CheckRegistration(f).None? && (response == Status(200) || response == Status(201)))
  {
  }

  /** Confirmation returns to login on status 200; otherwise it stays, always with an alert. */
  lemma ConfirmTransition(email: string, code: seq<string>, response: Outcome)
    ensures var r := Next(ConfirmIdentity(email), SubmitCode(code, response));
      && r.request == Some(ConfirmRequest(email, Otp.Join(code)))
      && r.alert.Some?
      && r.screen == (if response == Status(200) then Login(false) else ConfirmIdentity(email))
  {
  }

  /** Verification goes home on status 200; otherwise it stays, always with an alert. */
  lemma VerificationTransition(email: string, code: seq<string>, response: Outcome)
    ensures var r := Next(Verification(email), SubmitCode(code, response));
      && r.request == Some(VerifyRequest(email, Otp.Join(code)))
      && r.alert.Some?
      && r.screen == (if response == Status(200) then Home else Verification(email))
  {
  }

  /** Resending never changes the screen. */
  lemma ResendKeepsScreen(s: Route, response: Outcome)
    ensures Next(s, Resend(response)).screen == s
  {
  }

  /** A local validation failure sends nothing, keeps the screen and shows the rule's message. */
  lemma ValidationFailureKeepsScreen(s: Route, e: Event, v: Violation)
    requires
      || (s.Login? && e.SubmitLogin? && LoginForm.CheckLogin(e.email, e.password) == Some(v))
      || (s.Register? && e.SubmitRegistration? && RegisterForm.CheckRegistration(e.form) == Some(v))
    ensures Next(s, e) == Step(s, None, Some(Message(v)))
  {
  }

  /** Home is entered only from verification, on status 200. */
  lemma HomeOnlyFromVerification(s: Route, e: Event)
    requires s != Home && Next(s, e).screen == Home
    ensures s.Verification? && e.SubmitCode? && e.response == Status(200)
  {
  }

  /** Verification of an e-mail is entered only from login, by sending that e-mail. */
  lemma VerificationOnlyFromLogin(s: Route, e: Event, email: string)
    requires s != Verification(email) && Next(s, e).screen == Verification(email)
    ensures s.Login? && Next(s, e).request == Some(LoginRequest(email, e.password))
  {
  }

  /** The two plain links: login opens registration, and registration goes back to an unreset login. */
  lemma PlainNavigation(reset: bool)
    ensures Next(Login(reset), OpenRegister) == Step(Register, None, None)
    ensures Next(Register, BackToLogin) == Step(Login(false), None, None)
  {
  }

  /** Confirmation of an e-mail is entered only from registration, by creating a user with that e-mail. */
  lemma ConfirmIdentityOnlyFromRegister(s: Route, e: Event, email: string)
    requires s != ConfirmIdentity(email) && Next(s, e).screen == ConfirmIdentity(email)
    ensures s.Register? && e.SubmitRegistration? && e.form.email == email
    ensures Next(s, e).request == Some(CreateUserRequest(e.form.nombre, e.form.apellido, email, e.form.password))
  {
  }

  /** Logging out lands on login with `resetFields`, so the login form is emptied. */
  lemma LogoutResetsLogin()
    ensures Next(Home, Logout).screen == Login(true)
  {
  }

  // ---------------------------------------------------------------------
  // Invariants of every run
  // ---------------------------------------------------------------------

  /** The e-mail a code screen carries is always a well-formed one. */
  predicate ScreenInvariant(s: Route) {
    match s
    case ConfirmIdentity(email) => IsValidEmail(email)
    case Verification(email) => IsValidEmail(email)
    case _ => true
  }

  /** What every request sent satisfies: the local rules held for the data it carries. */
  predicate RequestInvariant(r: Request) {
    match r
    case LoginRequest(email, password) => IsValidEmail(email) && password != ""
    case CreateUserRequest(nombre, apellido, email, password) =>
      nombre != "" && apellido != "" && IsValidEmail(email) && IsValidPassword(password)
    case ConfirmRequest(email, pin) => IsValidEmail(email) && Otp.IsDigits(pin) && |pin| <= Otp.Size
    case ResendPinRequest(email) => IsValidEmail(email)
    case VerifyRequest(email, pin) => IsValidEmail(email) && Otp.IsDigits(pin) && |pin| <= Otp.Size
    case ResendTwoFactorRequest(email) => IsValidEmail(email)
  }

  /**
   * An event a screen can produce: a submitted code is a buffer the code
   * screens can hold, which `CodeBuffer.Valid` guarantees for theirs.
   */
  predicate EventOk(e: Event) {
    e.SubmitCode? ==> Otp.WellFormed(e.code)
  }

  /** One transition keeps the screen invariant and sends only requests that satisfy the request invariant. */
  lemma NextPreservesInvariants(s: Route, e: Event)
    requires ScreenInvariant(s) && EventOk(e)
    ensures ScreenInvariant(Next(s, e).screen)
    ensures Next(s, e).request.Some? ==> RequestInvariant(Next(s, e).request.value)
  {
    match s
    case Login(_) =>
      if e.SubmitLogin? {
        LoginTransition(s.resetFields, e.email, e.password, e.response);
      }
    case Register =>
      if e.SubmitRegistration? && RegisterForm.CheckRegistration(e.form).None? {
        RegisterForm.AcceptedFormIsValid(e.form);
      }
    case _ =>
  }

  /** What a run of events leaves: the final route, and every request and alert in order. */
  datatype Trace = Trace(screen: Route, requests: seq<Request>, alerts: seq<string>)

  /** An optional request or alert as the zero or one entries it adds to a trace. */
  function AsSeq<T>(o: Option<T>): seq<T> {
    if o.Some? then [o.value] else []
  }

  /** The run of `events` from route `s`. */
  function Run(s: Route, events: seq<Event>): (t: Trace)
    ensures |t.requests| <= |events| && |t.alerts| <= |events|
    decreases |events|
  {
    if events == [] then Trace(s, [], [])
    else
      var step := Next(s, events[0]);
      var rest := Run(step.screen, events[1..]);
      Trace(rest.screen, AsSeq(step.request) + rest.requests, AsSeq(step.alert) + rest.alerts)
  }

  /**
   * In every run of events the screens can produce, from a route that
   * satisfies the screen invariant, the invariant still holds at the end
   * and every request sent satisfies the request invariant: nothing
   * reaches the back end with a malformed e-mail, an empty login
   * password, a registration password shorter than 8 or a pin that is not
   * at most four digits.
   */
  lemma {:induction false} RunPreservesInvariants(s: Route, events: seq<Event>)
    requires ScreenInvariant(s)
    requires forall k :: 0 <= k < |events| ==> EventOk(events[k])
    ensures ScreenInvariant(Run(s, events).screen)
    ensures forall k :: 0 <= k < |Run(s, events).requests| ==> RequestInvariant(Run(s, events).requests[k])
    decreases |events|
  {
    if events != [] {
      var step := Next(s, events[0]);
      NextPreservesInvariants(s, events[0]);
      RunPreservesInvariants(step.screen, events[1..]);
      var rest := Run(step.screen, events[1..]);
      var all := AsSeq(step.request) + rest.requests;
      forall k | 0 <= k < |all| ensures RequestInvariant(all[k]) {
        if k >= |AsSeq(step.request)| {
          assert all[k] == rest.requests[k - |AsSeq(step.request)|];
        }
      }
    }
  }

  /** Every run of the app, from its initial route, keeps both invariants. */
  lemma AppRunsAreSafe(events: seq<Event>)
    requires forall k :: 0 <= k < |events| ==> EventOk(events[k])
    ensures ScreenInvariant(Run(Initial, events).screen)
    ensures forall k :: 0 <= k < |Run(Initial, events).requests| ==> RequestInvariant(Run(Initial, events).requests[k])
  {
    RunPreservesInvariants(Initial, events);
  }

  // ---------------------------------------------------------------------
  // Scenarios
  // ---------------------------------------------------------------------

  /** A form that passes every local rule, answered with 201, moves on to confirming its e-mail. */
  lemma AcceptedRegistration(f: RegisterForm.Registration)
    requires RegisterForm.CheckRegistration(f).None?
    ensures Next(Register, SubmitRegistration(f, Status(201)))
            == Step(ConfirmIdentity(f.email), Some(CreateUserRequest(f.nombre, f.apellido, f.email, f.password)), None)
  {
  }

  /** Registering Ana Diaz with a confirmed 8-character password and a 201 leads to confirming her e-mail. */
  lemma RegistrationScenario(f: RegisterForm.Registration)
    requires f == RegisterForm.Registration("Ana", "Diaz", "ana@x.com", "abcdefgh", "abcdefgh")
    ensures Next(Register, SubmitRegistration(f, Status(201)))
            == Step(ConfirmIdentity(f.email), Some(CreateUserRequest(f.nombre, f.apellido, f.email, f.password)), None)
  {
    SampleFormAccepted(f);
    AcceptedRegistration(f);
  }

  /** The sample registration passes every local rule. */
  lemma SampleFormAccepted(f: RegisterForm.Registration)
    requires f == RegisterForm.Registration("Ana", "Diaz", "ana@x.com", "abcdefgh", "abcdefgh")
    ensures RegisterForm.CheckRegistration(f).None?
  {
    SampleEmail(f.email, 3, 5);
    CodeUnitsOfBmp(f.password);
  }

  /** A concrete address with its `@` at `i` and an inner dot at `j` is accepted. */
  lemma SampleEmail(email: string, i: nat, j: nat)
    requires i < j < |email| - 1 && email[i] == '@' && email[j] == '.' && 0 < i && i + 1 < j
    requires forall k :: 0 <= k < |email| && k != i ==> email[k] != '@' && email[k] as int > 0x20 && email[k] as int < 0x7F
    ensures IsValidEmail(email)
  {
    FirstAt(email, i);
  }

  /** Logging in with an empty password sends nothing, stays on login and raises exactly one alert. */
  lemma EmptyPasswordScenario(email: string, response: Outcome)
    ensures Run(Initial, [SubmitLogin(email, "", response)])
            == Trace(Initial, [], [Message(MissingField)])
  {
  }

  /** A full login: credentials accepted, pin 1234 verified, and the app is home. */
  lemma LoginScenario()
    ensures Run(Initial, [SubmitLogin("a@b.com", "x", Status(200)), SubmitCode(["1", "2", "3", "4"], Status(200))])
            == Trace(Home, [LoginRequest("a@b.com", "x"), VerifyRequest("a@b.com", "1234")],
                     [TwoFactor.VerifiedMessage])
  {
    SampleEmail("a@b.com", 1, 3);
    var afterLogin := Next(Initial, SubmitLogin("a@b.com", "x", Status(200)));
    assert afterLogin == Step(Verification("a@b.com"), Some(LoginRequest("a@b.com", "x")), None);
    Otp.JoinExample();
    var afterCode := Next(afterLogin.screen, SubmitCode(["1", "2", "3", "4"], Status(200)));
    assert afterCode == Step(Home, Some(VerifyRequest("a@b.com", "1234")), Some(TwoFactor.VerifiedMessage));
  }
}
