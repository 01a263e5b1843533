/**
 * The sign-in page of src/pages/Login.tsx: where it returns the visitor
 * after login, its redirect of an already signed-in user, and the
 * password-confirmation check before registering.
 */
module LoginPage {
  import opened Wrappers
  import opened Records
  import opened Session
  import opened Api
  import opened Guard
  import opened Routes

  /** `location.state?.from?.pathname || "/"`: the page the guard bounced the visitor from. */
  function ReturnTarget(from: Option<string>): (to: string)
    ensures from.Some? && from.value != "" ==> to == from.value
    ensures from.None? || from.value == "" ==> to == "/"
    ensures to != ""
  {
    if from.Some? && from.value != "" then from.value else "/"
  }

  /** The effect on `user`: a signed-in visitor is sent on, an admin to `/admin`, anyone else to `/`. */
  function SignedInRedirect(user: Option<User>): (calls: seq<Call>)
    ensures user.None? <==> calls == []
    ensures IsAdmin(user) <==> calls == [Navigate("/admin", true)]
    ensures user.Some? && !IsAdmin(user) <==> calls == [Navigate("/", true)]
  {
    if user.None? then []
    else if user.value.role == AdminRole then [Navigate("/admin", true)]
    else [Navigate("/", true)]
  }

  /** What a submit does: the session step, the calls into the router, and the page's own busy flag afterwards. */
  datatype LoginOutcome = LoginOutcome(session: Step, calls: seq<Call>, busy: bool)

  /**
   * `handleLogin`: log in, then read the token back from storage, decode it
   * again and route by its role: `ADMIN` to `/admin`, anyone else to the
   * return target. A failed login navigates nowhere.
   */
  function HandleLogin(auth: AuthState, storage: Storage, reply: SigninReply, decode: Decoder,
                       from: Option<string>): (r: LoginOutcome)
    ensures r.session == Login(auth, storage, reply, decode)
    ensures !r.busy
    ensures r.session.raised ==> r.calls == []
    ensures !r.session.raised && reply.accessToken == "" ==> r.calls == []
    ensures !r.session.raised && reply.accessToken != "" ==>
      r.calls == [Navigate(if IsAdmin(r.session.auth.user) then "/admin" else ReturnTarget(from), true)]
  {
    var step := Login(auth, storage, reply, decode);
    if step.raised then LoginOutcome(step, [], false)
    else
      match StoredToken(step.storage)
      case None => LoginOutcome(step, [], false)
      case Some(token) =>
        match decode(token)
        case None => LoginOutcome(step, [], false)
        case Some(c) =>
          var role := DeriveRole(c.roles);
          var to := if role == AdminRole then "/admin" else ReturnTarget(from);
          LoginOutcome(step, [Navigate(to, true)], false)
  }

  /**
   * The guard and the login page together: a non-admin bounced from a
   * protected page returns to exactly that page after signing in.
   */
  lemma BouncedVisitorReturns(flags: Flags, location: string, storage: Storage, reply: SigninReply,
                              decode: Decoder)
    requires location != ""
    requires reply.SigninAccepted? && reply.accessToken != ""
    requires decode(reply.accessToken).Some? && DeriveRole(decode(reply.accessToken).value.roles) != AdminRole
    ensures var bounce := Decide(AuthState(None, false), flags, location);
      bounce == Redirect("/login", Some(location)) &&
      HandleLogin(AuthState(None, false), storage, reply, decode, bounce.from).calls == [Navigate(location, true)]
  {
  }

  /**
   * A sign-in answered 401 makes no call into the router: the HTTP client
   * has already cleared the stored credential and sent the window to
   * `/login`.
   */
  lemma UnauthorizedLoginReloadsLoginPage(auth: AuthState, storage: Storage, e: HttpError, decode: Decoder,
                                          from: Option<string>)
    requires e.status == Some(401)
    ensures var r := HandleLogin(auth, storage, SigninRejected(e), decode, from);
      r.calls == [] && r.session.reload == Some(LoginPath) && TokenKey !in r.session.storage
  {
  }

  datatype RegisterForm = RegisterForm(name: string, email: string, password: string, confirmPassword: string)

  /** `registerCalled` is false when the form was refused before any request. */
  datatype RegisterOutcome = RegisterOutcome(registerCalled: bool, session: Step, calls: seq<Call>)

  /**
   * `handleRegister`: mismatched passwords stop before `register`;
   * otherwise register, and on success go to `/` whatever the role.
   */
  function HandleRegister(form: RegisterForm, auth: AuthState, storage: Storage, signup: SignupReply,
                          reply: SigninReply, decode: Decoder): (r: RegisterOutcome)
    ensures r.registerCalled <==> form.password == form.confirmPassword
    ensures !r.registerCalled ==> r.session == Step(auth, storage, false, None) && r.calls == []
    ensures r.registerCalled ==> r.session == Register(auth, storage, signup, reply, decode)
    ensures r.calls == [] || r.calls == [Navigate("/", true)]
    ensures r.calls == [Navigate("/", true)] <==> r.registerCalled && !r.session.raised
  {
    if form.password != form.confirmPassword then RegisterOutcome(false, Step(auth, storage, false, None), [])
    else
      var step := Register(auth, storage, signup, reply, decode);
      RegisterOutcome(true, step, if step.raised then [] else [Navigate("/", true)])
  }

  /** The `/` a new admin is sent to is user-only, so the guard forwards the admin to `/admin`. */
  lemma NewAdminLandsOnAdmin(form: RegisterForm, storage: Storage, reply: SigninReply, decode: Decoder)
    requires form.password == form.confirmPassword
    requires reply.SigninAccepted? && decode(reply.accessToken).Some?
    requires DeriveRole(decode(reply.accessToken).value.roles) == AdminRole
    ensures var r := HandleRegister(form, AuthState(None, false), storage, SignupAccepted, reply, decode);
      r.calls == [Navigate("/", true)] && Resolve(r.session.auth, "/") == Redirected("/admin", None)
  {
    DeclaredPathSelectsItsRoute(1);
    assert SplitPath("/") == SplitPath(JoinPath(Table[1].pattern.segs));
  }
}
