/**
 * The route guard of src/components/ProtectedRoute.tsx: a decision, made on
 * every render, between a spinner, a redirect and rendering the page.
 */
module Guard {
  import opened Wrappers
  import opened Records
  import opened Session

  /** The guard's two props; both default to false. */
  datatype Flags = Flags(adminOnly: bool, userOnly: bool)

  const NoFlags := Flags(false, false)

  /** `Redirect` carries the `from` state: the location the visitor asked for. */
  datatype Decision = Spinner | Redirect(to: string, from: Option<string>) | Render

  /**
   * Who may see a guarded page, stated on its own: an admin may see it
   * unless it is user-only, anyone else unless it is admin-only.
   */
  predicate Permits(flags: Flags, role: string) {
    if role == AdminRole then !flags.userOnly else !flags.adminOnly
  }

  /** The checks in source order: loading, no user, user-only vs admin, admin-only vs non-admin. */
  function Decide(auth: AuthState, flags: Flags, location: string): (d: Decision)
    ensures d == Spinner <==> auth.loading
    ensures d == Redirect("/login", Some(location)) <==> PhaseOf(auth) == Anonymous
    ensures d == Redirect("/admin", None) <==>
      PhaseOf(auth).Authenticated? && flags.userOnly && auth.user.value.role == AdminRole
    ensures d == Redirect("/", None) <==>
      PhaseOf(auth).Authenticated? && flags.adminOnly && auth.user.value.role != AdminRole
    ensures d == Render <==> PhaseOf(auth).Authenticated? && Permits(flags, auth.user.value.role)
    ensures d.Redirect? ==> d.to in {"/login", "/admin", "/"}
  {
    if auth.loading then Spinner
    else if auth.user.None? then Redirect("/login", Some(location))
    else if flags.userOnly && auth.user.value.role == AdminRole then Redirect("/admin", None)
    else if flags.adminOnly && auth.user.value.role != AdminRole then Redirect("/", None)
    else Render
  }

  /** While loading nothing is decided, whoever the user and whatever the flags. */
  lemma LoadingNeverRedirects(user: Option<User>, flags: Flags, location: string)
    ensures Decide(AuthState(user, true), flags, location) == Spinner
  {
  }

  /** With the defaults, any signed-in user sees the page, whatever the role string. */
  lemma DefaultsRenderAnyUser(user: User, location: string)
    ensures Decide(AuthState(Some(user), false), NoFlags, location) == Render
  {
  }

  /** Only the exact string `ADMIN` is privileged: `admin` or `Admin` is turned away from the admin page. */
  lemma OnlyExactAdminIsPrivileged(user: User, location: string)
    requires user.role != AdminRole
    ensures Decide(AuthState(Some(user), false), Flags(true, false), location) == Redirect("/", None)
  {
  }
}
