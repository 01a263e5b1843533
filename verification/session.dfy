/**
 * The session store of src/context/AuthContext.tsx: the current user and
 * the `isLoading` flag, derived from the stored bearer credential at boot
 * and changed by login, register and logout.
 *
 * The credential is a JSON Web Token (RFC 7519) that the store only decodes,
 * never verifies. Decoding is a parameter: `decode(token)` is the decoded
 * claims, or `None` when decoding throws. The sign-in and sign-up requests
 * are parameters too: their replies are inputs.
 */
module Session {
  import opened Wrappers
  import opened Text
  import opened Records
  import opened Api

  /** The claims of a decoded token that the store reads; each may be missing. */
  datatype Claims = Claims(
    id: Option<int>,
    sub: Option<string>,      // the subject claim, section 4.1.2 of RFC 7519
    email: Option<string>,
    name: Option<string>,
    roles: Option<seq<string>> // None when the claim is absent or not an array
  )

  type Decoder = string -> Option<Claims>

  /** The store's state: `user` and `isLoading`. */
  datatype AuthState = AuthState(user: Option<User>, loading: bool)

  /** Before boot: no user, still loading. */
  const Initial := AuthState(None, true)

  /** The session as the route guard sees it. */
  datatype Phase = Loading | Anonymous | Authenticated(user: User)

  function PhaseOf(a: AuthState): Phase {
    if a.loading then Loading
    else if a.user.None? then Anonymous
    else Authenticated(a.user.value)
  }

  /**
   * After an operation: the new state, the new storage, whether the
   * operation threw, and the page the HTTP client's 401 handling sent the
   * window to, if it did.
   */
  datatype Step = Step(auth: AuthState, storage: Storage, raised: bool, reload: Option<string>)

  // ---------------------------------------------------------------------------
  // Role and identity from claims
  // ---------------------------------------------------------------------------

  const RolePrefix: string := "ROLE_"
  const DefaultRole: string := "USER"

  /**
   * The role rule: the first `roles` entry with its first `ROLE_` removed,
   * upper-cased; `USER` when `roles` is missing or empty.
   */
  function DeriveRole(roles: Option<seq<string>>): (role: string)
    ensures roles.None? || |roles.value| == 0 ==> role == DefaultRole
    ensures roles.Some? && |roles.value| > 0 && IsPrefix(RolePrefix, roles.value[0]) ==>
      role == Upper(roles.value[0][|RolePrefix|..])
    ensures roles.Some? && |roles.value| > 0 && !Contains(roles.value[0], RolePrefix) ==>
      role == Upper(roles.value[0])
    ensures roles.Some? && |roles.value| > 0 ==>
      forall k: nat {:trigger FirstOccurrence(roles.value[0], RolePrefix, k)} :: FirstOccurrence(roles.value[0], RolePrefix, k) ==>
        role == Upper(roles.value[0][..k] + roles.value[0][k + |RolePrefix|..])
    ensures forall i :: 0 <= i < |role| ==> !IsLowerAscii(role[i])
  {
    if roles.Some? && |roles.value| > 0 then
      var first := roles.value[0];
      ReplaceFirstCases(first, RolePrefix, "");
      PrefixRemovedAtFirst(first);
      Upper(ReplaceFirst(first, RolePrefix, ""))
    else
      DefaultRole
  }

  /** Removing `ROLE_` cuts it out at its first occurrence, wherever that is. */
  lemma PrefixRemovedAtFirst(first: string)
    ensures forall k: nat {:trigger FirstOccurrence(first, RolePrefix, k)} :: FirstOccurrence(first, RolePrefix, k) ==>
      ReplaceFirst(first, RolePrefix, "") == first[..k] + first[k + |RolePrefix|..]
  {
    forall k: nat | FirstOccurrence(first, RolePrefix, k)
      ensures ReplaceFirst(first, RolePrefix, "") == first[..k] + first[k + |RolePrefix|..]
    {
      ReplaceFirstAtFirst(first, RolePrefix, "", k);
      assert first[..k] + "" + first[k + |RolePrefix|..] == first[..k] + first[k + |RolePrefix|..];
    }
  }

  /** Only the first `roles` entry matters. */
  lemma RoleIgnoresLaterEntries(first: string, rest: seq<string>)
    ensures DeriveRole(Some([first] + rest)) == DeriveRole(Some([first]))
  {
  }

  /**
   * The role is not clamped to ADMIN or USER: `ROLE_MANAGER` becomes
   * `MANAGER`, and a lower-case `ROLE_admin` becomes the privileged `ADMIN`.
   */
  lemma RoleExamples()
    ensures DeriveRole(Some(["ROLE_ADMIN"])) == AdminRole
    ensures DeriveRole(Some(["ROLE_admin", "ROLE_USER"])) == AdminRole
    ensures DeriveRole(Some(["ROLE_MANAGER"])) == "MANAGER"
    ensures DeriveRole(Some([])) == DefaultRole
  {
    assert IsPrefix(RolePrefix, "ROLE_ADMIN");
    assert "ROLE_ADMIN"[5..] == "ADMIN";
    assert IsPrefix(RolePrefix, "ROLE_admin");
    assert "ROLE_admin"[5..] == "admin";
    assert Upper("admin") == "ADMIN";
    assert IsPrefix(RolePrefix, "ROLE_MANAGER");
    assert "ROLE_MANAGER"[5..] == "MANAGER";
  }

  /** `decoded.name || ""` and the like: a missing or empty string becomes "". */
  function StringOr(s: Option<string>): string {
    if s.Some? then s.value else ""
  }

  /**
   * The user a stored token stands for at boot:
   * id = `id`, else `sub`, else 0; email = `sub`, else `email`; name = `name`, else "".
   * JavaScript's `||` skips 0 and "" as well as missing values.
   */
  function UserFromClaims(c: Claims): (u: User)
    ensures c.id.Some? && c.id.value != 0 ==> u.id == NumericId(c.id.value)
    ensures (c.id.None? || c.id.value == 0) && c.sub.Some? && c.sub.value != "" ==> u.id == SubjectId(c.sub.value)
    ensures (c.id.None? || c.id.value == 0) && (c.sub.None? || c.sub.value == "") ==> u.id == NumericId(0)
    ensures c.sub.Some? && c.sub.value != "" ==> u.email == c.sub
    ensures (c.sub.None? || c.sub.value == "") ==> u.email == c.email
    ensures u.name == StringOr(c.name)
    ensures u.role == DeriveRole(c.roles)
  {
    var id :=
      if c.id.Some? && c.id.value != 0 then NumericId(c.id.value)
      else if c.sub.Some? && c.sub.value != "" then SubjectId(c.sub.value)
      else NumericId(0);
    var email := if c.sub.Some? && c.sub.value != "" then c.sub else c.email;
    User(id, email, StringOr(c.name), DeriveRole(c.roles))
  }

  // ---------------------------------------------------------------------------
  // Boot
  // ---------------------------------------------------------------------------

  /**
   * The mount effect: restore the user from a stored token. A token that does
   * not decode is removed; loading ends in every case.
   */
  function Boot(storage: Storage, decode: Decoder): (r: Step)
    ensures !r.auth.loading && !r.raised && r.reload.None?
    ensures r.auth.user.Some? <==> StoredToken(storage).Some? && decode(StoredToken(storage).value).Some?
    ensures r.auth.user.Some? ==> r.auth.user == Some(UserFromClaims(decode(StoredToken(storage).value).value))
    ensures r.storage == storage || (r.storage == storage - {TokenKey} && r.auth.user.None? && TokenKey in storage)
    ensures TokenKey in r.storage <==> TokenKey in storage && (storage[TokenKey] == "" || r.auth.user.Some?)
  {
    match StoredToken(storage)
    case None => Step(AuthState(None, false), storage, false, None)
    case Some(token) =>
      match decode(token)
      case None => Step(AuthState(None, false), storage - {TokenKey}, false, None)
      case Some(c) => Step(AuthState(Some(UserFromClaims(c)), false), storage, false, None)
  }

  /** Boot leaves the loading phase, whatever the storage holds. */
  lemma BootLeavesLoading(storage: Storage, decode: Decoder)
    ensures PhaseOf(Boot(storage, decode).auth) != Loading
  {
  }

  /** A malformed stored token ends anonymous, with the token key gone. */
  lemma BootPurgesMalformedToken(storage: Storage, decode: Decoder)
    requires TokenKey in storage && storage[TokenKey] != ""
    requires decode(storage[TokenKey]).None?
    ensures PhaseOf(Boot(storage, decode).auth) == Anonymous
    ensures TokenKey !in Boot(storage, decode).storage
  {
  }

  // ---------------------------------------------------------------------------
  // Login and register
  // ---------------------------------------------------------------------------

  /**
   * The reply of `POST /auth/signin` through the shared HTTP client: the
   * error the request was rejected with, or the token and the account's fields.
   */
  datatype SigninReply =
    | SigninRejected(error: HttpError)
    | SigninAccepted(accessToken: string, id: int, email: string, name: Option<string>)

  /**
   * `login`: store the token BEFORE decoding it, then set the user from the
   * reply body with only the role taken from the token. Any failure rethrows
   * and leaves the user as it was. A rejected request has first passed the
   * HTTP client's response interceptor, which on a 401 clears the stored
   * credential and the stored user and sends the window to `/login`.
   * Loading ends in every case.
   */
  function Login(auth: AuthState, storage: Storage, reply: SigninReply, decode: Decoder): (r: Step)
    ensures !r.auth.loading
    ensures r.raised ==> r.auth.user == auth.user
    ensures reply.SigninRejected? ==> r.raised
    ensures reply.SigninRejected? && reply.error.status == Some(401) ==>
      && r.storage == storage - {TokenKey, UserKey}
      && r.reload == Some(LoginPath)
    ensures reply.SigninRejected? && reply.error.status != Some(401) ==> r.storage == storage && r.reload.None?
    ensures reply.SigninAccepted? ==> r.storage == storage[TokenKey := reply.accessToken] && r.reload.None?
    ensures reply.SigninAccepted? ==> (r.raised <==> decode(reply.accessToken).None?)
    ensures !r.raised ==>
      && reply.SigninAccepted?
      && r.auth.user == Some(User(NumericId(reply.id), Some(reply.email), StringOr(reply.name),
                                  DeriveRole(decode(reply.accessToken).value.roles)))
  {
    match reply
    case SigninRejected(e) =>
      var after := OnResponse<SigninReply>(Rejected(e), storage);
      Step(auth.(loading := false), after.storage, true, after.reload)
    case SigninAccepted(token, id, email, name) =>
      var stored := storage[TokenKey := token];
      match decode(token)
      case None => Step(auth.(loading := false), stored, true, None)
      case Some(c) =>
        Step(AuthState(Some(User(NumericId(id), Some(email), StringOr(name), DeriveRole(c.roles))), false),
             stored, false, None)
  }

  /** A token that fails to decode at login is nevertheless left in storage. */
  lemma LoginKeepsUndecodableToken(auth: AuthState, storage: Storage, token: string, id: int, email: string,
                                   name: Option<string>, decode: Decoder)
    requires decode(token).None?
    ensures var r := Login(auth, storage, SigninAccepted(token, id, email, name), decode);
      r.raised && TokenKey in r.storage && r.storage[TokenKey] == token && r.auth.user == auth.user
  {
  }

  /**
   * A sign-in answered 401 ends whatever session storage held: the token is
   * gone, the window is sent to `/login`, and that page boots anonymous,
   * even after a previous login left an undecodable token behind.
   */
  lemma UnauthorizedSigninEndsSession(auth: AuthState, storage: Storage, e: HttpError, decode: Decoder)
    requires e.status == Some(401)
    ensures var r := Login(auth, storage, SigninRejected(e), decode);
      && r.raised && TokenKey !in r.storage && r.reload == Some(LoginPath)
      && Boot(r.storage, decode).auth == AuthState(None, false)
  {
  }

  /** The reply of `POST /auth/signup` through the shared HTTP client. */
  datatype SignupReply = SignupAccepted | SignupRejected(error: HttpError)

  /**
   * `register`: a rejected sign-up rethrows with the user unchanged, after
   * the response interceptor's 401 handling; otherwise it is a login with the
   * same credentials.
   */
  function Register(auth: AuthState, storage: Storage, signup: SignupReply, reply: SigninReply,
                    decode: Decoder): (r: Step)
    ensures !r.auth.loading
    ensures r.raised ==> r.auth.user == auth.user
    ensures signup.SignupRejected? ==> r.raised
    ensures signup.SignupRejected? && signup.error.status == Some(401) ==>
      r.storage == storage - {TokenKey, UserKey} && r.reload == Some(LoginPath)
    ensures signup.SignupRejected? && signup.error.status != Some(401) ==> r.storage == storage && r.reload.None?
    ensures signup.SignupAccepted? ==> r == Login(auth, storage, reply, decode)
  {
    match signup
    case SignupRejected(e) =>
      var after := OnResponse<()>(Rejected(e), storage);
      Step(auth.(loading := false), after.storage, true, after.reload)
    case SignupAccepted => Login(auth, storage, reply, decode)
  }

  /** A rejected sign-up and a rejected sign-in with the same error leave the same storage and reload. */
  lemma RejectedSignupActsLikeRejectedSignin(auth: AuthState, storage: Storage, e: HttpError,
                                             reply: SigninReply, decode: Decoder)
    ensures var up := Register(auth, storage, SignupRejected(e), reply, decode);
      up == Login(auth, storage, SigninRejected(e), decode)
  {
  }

  /**
   * Reloading after a login restores the same user when the token's claims
   * agree with the sign-in reply: its `id` (non-zero), its subject (the
   * e-mail, non-empty) and its name.
   */
  lemma ReloadAfterLoginRestoresUser(auth: AuthState, storage: Storage, token: string, id: int,
                                     email: string, name: Option<string>, decode: Decoder)
    requires token != "" && id != 0 && email != ""
    requires decode(token).Some?
    requires decode(token).value.id == Some(id) && decode(token).value.sub == Some(email)
    requires StringOr(decode(token).value.name) == StringOr(name)
    ensures var r := Login(auth, storage, SigninAccepted(token, id, email, name), decode);
      !r.raised && Boot(r.storage, decode).auth == r.auth
  {
  }

  // ---------------------------------------------------------------------------
  // Logout
  // ---------------------------------------------------------------------------

  /** After logout: the new state, the new storage, and the calls the callback made. */
  datatype LogoutResult = LogoutResult(auth: AuthState, storage: Storage, calls: seq<Call>)

  /**
   * `logout(onLogout?)`: remove the token, clear the user, then run the
   * callback, if one is supplied, once. `onLogout` is the sequence of calls
   * the callback makes.
   */
  function Logout(auth: AuthState, storage: Storage, onLogout: Option<seq<Call>>): (r: LogoutResult)
    ensures r.auth.user.None? && r.auth.loading == auth.loading
    ensures TokenKey !in r.storage
    ensures forall k :: k in storage && k != TokenKey ==> k in r.storage && r.storage[k] == storage[k]
    ensures forall k :: k in r.storage ==> k in storage
    ensures onLogout.None? ==> r.calls == []
    ensures onLogout.Some? ==> r.calls == onLogout.value
  {
    var cleared := LogoutResult(AuthState(None, auth.loading), storage - {TokenKey}, []);
    if onLogout.Some? then cleared.(calls := onLogout.value) else cleared
  }

  /** Logging out of a booted session always ends anonymous. */
  lemma LogoutEndsAnonymous(auth: AuthState, storage: Storage, onLogout: Option<seq<Call>>)
    requires !auth.loading
    ensures PhaseOf(Logout(auth, storage, onLogout).auth) == Anonymous
  {
  }

  /** After logout a reload stays anonymous, whatever the decoder. */
  lemma ReloadAfterLogoutStaysAnonymous(auth: AuthState, storage: Storage, onLogout: Option<seq<Call>>,
                                        decode: Decoder)
    ensures Boot(Logout(auth, storage, onLogout).storage, decode).auth == AuthState(None, false)
  {
  }

  /** After a 401 on any request the full-page load of `/login` boots anonymous, and later requests carry no bearer. */
  lemma UnauthorizedEndsSession<T>(e: HttpError, storage: Storage, decode: Decoder, req: Request)
    requires e.status == Some(401)
    ensures var after := OnResponse<T>(Rejected(e), storage);
      && after.reload == Some(LoginPath)
      && Boot(after.storage, decode).auth == AuthState(None, false)
      && OnRequest(req, after.storage) == StripMultipartContentType(req)
  {
  }
}
