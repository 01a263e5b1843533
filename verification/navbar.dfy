/**
 * The top bar of src/components/Navbar.tsx: which links and controls it
 * shows for the current user, and its logout handler.
 */
module Navbar {
  import opened Wrappers
  import opened Records
  import opened Session
  import opened Routes

  datatype NavLink = NavLink(caption: string, to: string)

  /** The links every non-admin sees, in display order. */
  const ShopperLinks: seq<NavLink> :=
    [NavLink("Home", "/"), NavLink("Products", "/products"), NavLink("Categories", "/categories")]

  /** The account control: a sign-in button, or a menu whose dashboard entry leads to `dashboard`. */
  datatype AccountControl = SignIn | AccountMenu(dashboard: string)

  /**
   * What the bar shows. `links` feed both the desktop row and the mobile
   * sheet; `badge` is the number on the cart icon.
   */
  datatype View = View(
    links: seq<NavLink>,
    logo: string,
    cartIcon: bool,
    badge: Option<int>,
    mobileMenu: bool,
    account: AccountControl)

  /** The bar for `user` with `itemCount` items in the cart. */
  function Render(user: Option<User>, itemCount: int): (v: View)
    ensures IsAdmin(user) <==> v.links == []
    ensures !IsAdmin(user) ==> v.links == ShopperLinks
    ensures v.logo == (if IsAdmin(user) then "/admin" else "/")
    ensures v.cartIcon <==> !IsAdmin(user)
    ensures v.mobileMenu <==> !IsAdmin(user)
    ensures v.badge.Some? <==> !IsAdmin(user) && itemCount > 0
    ensures v.badge.Some? ==> v.badge.value == itemCount
    ensures v.account == SignIn <==> user.None?
    ensures v.account.AccountMenu? ==> v.account.dashboard == v.logo || v.account.dashboard == "/dashboard"
    ensures IsAdmin(user) <==> v.account == AccountMenu("/admin")
  {
    var admin := user.Some? && user.value.role == AdminRole;
    View(
      links := if admin then [] else ShopperLinks,
      logo := if admin then "/admin" else "/",
      cartIcon := !admin,
      badge := if !admin && itemCount > 0 then Some(itemCount) else None,
      mobileMenu := !admin,
      account := if user.None? then SignIn else AccountMenu(if admin then "/admin" else "/dashboard"))
  }

  /** Logout: clear the session with a callback that empties the cart, then go to `/login`. */
  function HandleLogout(auth: AuthState, storage: Storage): (r: LogoutResult)
    ensures r.auth.user.None?
    ensures TokenKey !in r.storage
    ensures forall k :: k in storage && k != TokenKey ==> k in r.storage && r.storage[k] == storage[k]
    ensures forall k :: k in r.storage ==> k in storage
    ensures r.calls == [ClearCart, Navigate("/login", false)]
  {
    var out := Logout(auth, storage, Some([ClearCart]));
    out.(calls := out.calls + [Navigate("/login", false)])
  }

  /** Each link the bar offers a signed-in shopper opens its page rather than a redirect or the not-found page. */
  lemma ShopperLinksOpenPages(auth: AuthState, itemCount: int)
    requires PhaseOf(auth).Authenticated? && auth.user.value.role != AdminRole
    ensures Render(auth.user, itemCount).links == ShopperLinks
    ensures forall i :: 0 <= i < |ShopperLinks| ==>
      Resolve(auth, ShopperLinks[i].to).Shows? && Resolve(auth, ShopperLinks[i].to).page != NotFoundPage
  {
    forall i | 0 <= i < |ShopperLinks|
      ensures Resolve(auth, ShopperLinks[i].to).Shows? && Resolve(auth, ShopperLinks[i].to).page != NotFoundPage
    {
      if i == 0 {
        HomeOpensForShopper(auth);
      } else if i == 1 {
        DeclaredPathIs(2, "products");
        DeclaredPathShows(auth, 2);
      } else {
        DeclaredPathIs(4, "categories");
        DeclaredPathShows(auth, 4);
      }
    }
  }

  /** A route declared with the one segment `seg` is declared at `/seg`. */
  lemma DeclaredPathIs(i: nat, seg: string)
    requires i < |Table| && Table[i].pattern == Segments([seg])
    ensures JoinPath(Table[i].pattern.segs) == "/" + seg
  {
    assert JoinPath([seg]) == "/" + seg + JoinPath([]);
  }

  /** A signed-in shopper sees the home page at `/`. */
  lemma HomeOpensForShopper(auth: AuthState)
    requires PhaseOf(auth).Authenticated? && auth.user.value.role != AdminRole
    ensures Resolve(auth, "/") == Shows(HomePage)
  {
    DeclaredPathShows(auth, 1);
    assert SplitPath("/") == SplitPath(JoinPath(Table[1].pattern.segs));
  }

  /** A signed-in shopper sees the shopper dashboard at `/dashboard`. */
  lemma DashboardOpensForShopper(auth: AuthState)
    requires PhaseOf(auth).Authenticated? && auth.user.value.role != AdminRole
    ensures Resolve(auth, "/dashboard") == Shows(DashboardPage)
  {
    DeclaredPathIs(9, "dashboard");
    DeclaredPathShows(auth, 9);
  }

  /** A signed-in shopper's logo leads home and the account menu to the shopper's dashboard. */
  lemma ShopperControlsOpenPages(auth: AuthState, itemCount: int)
    requires PhaseOf(auth).Authenticated? && auth.user.value.role != AdminRole
    ensures var v := Render(auth.user, itemCount);
      v.account == AccountMenu("/dashboard") && v.cartIcon &&
      Resolve(auth, v.logo) == Shows(HomePage) && Resolve(auth, v.account.dashboard) == Shows(DashboardPage)
  {
    var v := Render(auth.user, itemCount);
    assert v.logo == "/" && v.account == AccountMenu("/dashboard");
    HomeOpensForShopper(auth);
    DashboardOpensForShopper(auth);
  }

  /** Every destination the bar offers an admin is the admin page itself. */
  lemma AdminControlsOpenAdminPage(auth: AuthState, itemCount: int)
    requires PhaseOf(auth).Authenticated? && auth.user.value.role == AdminRole
    ensures var v := Render(auth.user, itemCount);
      v.links == [] && !v.cartIcon &&
      Resolve(auth, v.logo) == Shows(AdminPage) && v.account == AccountMenu(v.logo)
  {
    DeclaredPathIs(10, "admin");
    DeclaredPathShows(auth, 10);
  }

  /** After the bar's logout the login page shows, and a reload stays signed out. */
  lemma LogoutLandsOnLogin(auth: AuthState, storage: Storage, decode: Decoder)
    requires !auth.loading
    ensures var r := HandleLogout(auth, storage);
      Resolve(r.auth, r.calls[1].to) == Shows(LoginPage) &&
      Boot(r.storage, decode).auth == AuthState(None, false)
  {
    DeclaredPathIs(0, "login");
    DeclaredPathSelectsItsRoute(0);
  }
}
