/**
 * The route table of src/App.tsx as data, the path matching that selects a
 * route, and what a visitor ends up seeing: the route's page, the guard's
 * spinner, or a redirect.
 */
module Routes {
  import opened Wrappers
  import opened Text
  import opened Records
  import opened Session
  import opened Guard

  datatype Page =
    | LoginPage | HomePage | ProductsPage | ProductDetailPage | CategoriesPage | CartPage
    | WishlistPage | OrderSummaryPage | CheckoutPage | DashboardPage | AdminPage | NotFoundPage

  /** A route path: its `/`-separated segments (`:name` matches any segment), or the catch-all `*`. */
  datatype Pattern = Segments(segs: seq<string>) | CatchAll

  /** A page is mounted bare, or inside the guard with the given flags. */
  datatype Access = Public | Guarded(flags: Flags)

  datatype Route = Route(pattern: Pattern, page: Page, access: Access)

  const UserOnly := Guarded(Flags(false, true))
  const AdminOnly := Guarded(Flags(true, false))

  /** The routes in declaration order. */
  const Table: seq<Route> := [
    Route(Segments(["login"]), LoginPage, Public),                                 // /login
    Route(Segments([]), HomePage, UserOnly),                                       // /
    Route(Segments(["products"]), ProductsPage, UserOnly),                         // /products
    Route(Segments(["products", ":id"]), ProductDetailPage, UserOnly),             // /products/:id
    Route(Segments(["categories"]), CategoriesPage, UserOnly),                     // /categories
    Route(Segments(["cart"]), CartPage, UserOnly),                                 // /cart
    Route(Segments(["wishlist"]), WishlistPage, UserOnly),                         // /wishlist
    Route(Segments(["order-summary", ":orderId"]), OrderSummaryPage, UserOnly),    // /order-summary/:orderId
    Route(Segments(["checkout"]), CheckoutPage, UserOnly),                         // /checkout
    Route(Segments(["dashboard"]), DashboardPage, UserOnly),                       // /dashboard
    Route(Segments(["admin"]), AdminPage, AdminOnly),                              // /admin
    Route(CatchAll, NotFoundPage, Public)                                          // *
  ]

  // ---------------------------------------------------------------------------
  // Paths
  // ---------------------------------------------------------------------------

  /** The length of the leading segment: up to the first `/` or the end. */
  function SegmentLength(s: string): (n: nat)
    requires |s| > 0 && s[0] != '/'
    ensures 0 < n <= |s|
    ensures forall j :: 0 <= j < n ==> s[j] != '/'
    ensures n < |s| ==> s[n] == '/'
    decreases |s|
  {
    if |s| == 1 || s[1] == '/' then 1 else 1 + SegmentLength(s[1..])
  }

  /** A pathname's non-empty segments; repeated and trailing slashes are ignored. */
  function SplitPath(path: string): (segs: seq<string>)
    ensures forall i :: 0 <= i < |segs| ==> IsSegment(segs[i])
    decreases |path|
  {
    if |path| == 0 then []
    else if path[0] == '/' then SplitPath(path[1..])
    else
      var n := SegmentLength(path);
      [path[..n]] + SplitPath(path[n..])
  }

  predicate IsSegment(seg: string) {
    |seg| > 0 && forall j :: 0 <= j < |seg| ==> seg[j] != '/'
  }

  /** `/a/b/c` from `["a", "b", "c"]`. */
  function JoinPath(segs: seq<string>): string
    decreases |segs|
  {
    if |segs| == 0 then "" else "/" + segs[0] + JoinPath(segs[1..])
  }

  /** A joined path, if not empty, starts with a slash. */
  lemma JoinPathStartsWithSlash(segs: seq<string>)
    ensures |JoinPath(segs)| == 0 || JoinPath(segs)[0] == '/'
  {
  }

  /** Splitting undoes joining. */
  lemma {:induction false} SplitJoin(segs: seq<string>)
    requires forall i :: 0 <= i < |segs| ==> IsSegment(segs[i])
    ensures SplitPath(JoinPath(segs)) == segs
    decreases |segs|
  {
    if |segs| > 0 {
      var seg, rest := segs[0], JoinPath(segs[1..]);
      var x := seg + rest;
      assert JoinPath(segs) == "/" + x;
      assert ("/" + x)[1..] == x;
      JoinPathStartsWithSlash(segs[1..]);
      var n := SegmentLength(x);
      assert forall j :: 0 <= j < |seg| ==> x[j] == seg[j];
      assert |seg| < |x| ==> x[|seg|] == '/';
      assert n == |seg|;
      assert x[..n] == seg;
      assert x[n..] == rest;
      SplitJoin(segs[1..]);
    }
  }

  // ---------------------------------------------------------------------------
  // Matching
  // ---------------------------------------------------------------------------

  /** A `:param` segment matches any segment; a literal matches ignoring ASCII case. */
  predicate SegmentMatches(pat: string, seg: string) {
    (|pat| > 0 && pat[0] == ':') || Lower(pat) == Lower(seg)
  }

  predicate Matches(p: Pattern, segs: seq<string>) {
    p.CatchAll? || (|p.segs| == |segs| && forall i :: 0 <= i < |segs| ==> SegmentMatches(p.segs[i], segs[i]))
  }

  /** The first route, from index `k` on, whose pattern matches; the catch-all guarantees one. */
  function FirstMatchFrom(segs: seq<string>, k: nat): (i: nat)
    requires k < |Table|
    ensures k <= i < |Table| && Matches(Table[i].pattern, segs)
    ensures forall j :: k <= j < i ==> !Matches(Table[j].pattern, segs)
    decreases |Table| - k
  {
    if Matches(Table[k].pattern, segs) then k
    else
      assert k != |Table| - 1;
      FirstMatchFrom(segs, k + 1)
  }

  /** The index of the route a pathname selects. */
  function RouteIndex(path: string): (i: nat)
    ensures i < |Table| && Matches(Table[i].pattern, SplitPath(path))
    ensures forall j :: 0 <= j < i ==> !Matches(Table[j].pattern, SplitPath(path))
  {
    FirstMatchFrom(SplitPath(path), 0)
  }

  function RouteFor(path: string): Route {
    Table[RouteIndex(path)]
  }

  // ---------------------------------------------------------------------------
  // What the visitor sees
  // ---------------------------------------------------------------------------

  datatype Screen = Waiting | Redirected(to: string, from: Option<string>) | Shows(page: Page)

  /** The route's page for a public route; the guard's decision for a guarded one. */
  function Resolve(auth: AuthState, path: string): (s: Screen)
    ensures s.Shows? ==> s.page == RouteFor(path).page
    ensures RouteFor(path).access.Public? ==> s == Shows(RouteFor(path).page)
    ensures RouteFor(path).access.Guarded? ==>
      match Decide(auth, RouteFor(path).access.flags, path)
      case Spinner => s == Waiting
      case Redirect(to, from) => s == Redirected(to, from)
      case Render => s == Shows(RouteFor(path).page)
  {
    var route := RouteFor(path);
    match route.access
    case Public => Shows(route.page)
    case Guarded(flags) =>
      match Decide(auth, flags, path)
      case Spinner => Waiting
      case Redirect(to, from) => Redirected(to, from)
      case Render => Shows(route.page)
  }

  // ---------------------------------------------------------------------------
  // Facts about the table
  // ---------------------------------------------------------------------------

  /** `/login` and the catch-all are the only unguarded routes, and the catch-all comes last. */
  lemma PublicRoutes()
    ensures forall i :: 0 <= i < |Table| && Table[i].access.Public? ==>
      Table[i].page == LoginPage || Table[i].page == NotFoundPage
    ensures Table[0] == Route(Segments(["login"]), LoginPage, Public)
    ensures Table[|Table| - 1] == Route(CatchAll, NotFoundPage, Public)
  {
  }

  /** `/admin` is the only admin-only route, and the only guarded route that is not user-only. */
  lemma AdminOnlyRoutes()
    ensures forall i :: 0 <= i < |Table| && Table[i].access.Guarded? && Table[i].access.flags.adminOnly ==>
      Table[i].page == AdminPage
    ensures forall i :: 0 <= i < |Table| && Table[i].access.Guarded? && Table[i].page != AdminPage ==>
      Table[i].access == UserOnly
    ensures forall i :: 0 <= i < |Table| && Table[i].page == AdminPage ==> Table[i].access == AdminOnly
  {
  }

  /** No route carries both `adminOnly` and `userOnly`. */
  lemma NoRouteHasBothFlags()
    ensures forall i :: 0 <= i < |Table| && Table[i].access.Guarded? ==>
      !(Table[i].access.flags.adminOnly && Table[i].access.flags.userOnly)
  {
  }

  /**
   * The literal routes are told apart by their length and first segment,
   * a lower-case literal; the home route is the only one without segments.
   */
  lemma PatternsDistinct()
    ensures forall i, j :: 0 <= i < j < |Table| - 1 && |Table[i].pattern.segs| == |Table[j].pattern.segs| ==>
      |Table[i].pattern.segs| > 0 && Table[i].pattern.segs[0] != Table[j].pattern.segs[0]
    ensures forall i :: 0 <= i < |Table| - 1 && |Table[i].pattern.segs| > 0 ==>
      |Table[i].pattern.segs[0]| > 0 && Table[i].pattern.segs[0][0] != ':' &&
      forall k :: 0 <= k < |Table[i].pattern.segs[0]| ==> !IsUpperAscii(Table[i].pattern.segs[0][k])
    ensures forall i, k :: 0 <= i < |Table| - 1 && 0 <= k < |Table[i].pattern.segs| ==>
      IsSegment(Table[i].pattern.segs[k])
  {
  }

  /**
   * No pathname matches two routes other than the catch-all, so taking the
   * first match in declaration order agrees with React Router's choice of
   * the best-ranked match.
   */
  lemma Unambiguous(segs: seq<string>)
    ensures forall i, j :: 0 <= i < j < |Table| - 1 && Matches(Table[i].pattern, segs) ==>
      !Matches(Table[j].pattern, segs)
  {
    PatternsDistinct();
    forall i, j | 0 <= i < j < |Table| - 1 && Matches(Table[i].pattern, segs)
      ensures !Matches(Table[j].pattern, segs)
    {
      var a, b := Table[i].pattern.segs, Table[j].pattern.segs;
      if |a| > 0 && |b| == |a| {
        LowerOfLowerCase(a[0]);
        LowerOfLowerCase(b[0]);
        assert SegmentMatches(a[0], segs[0]);
        assert !SegmentMatches(b[0], segs[0]);
      }
    }
  }

  /** Each declared path selects its own route (`/products/:id` written out literally selects the detail route). */
  lemma {:induction false} DeclaredPathSelectsItsRoute(i: nat)
    requires i < |Table| - 1
    ensures RouteIndex(JoinPath(Table[i].pattern.segs)) == i
  {
    PatternsDistinct();
    var segs := Table[i].pattern.segs;
    SplitJoin(segs);
    assert Matches(Table[i].pattern, segs);
    Unambiguous(segs);
  }

  /** A pathname that matches a declared route is routed there. */
  lemma MatchingRouteIsSelected(path: string, i: nat)
    requires i < |Table| - 1 && Matches(Table[i].pattern, SplitPath(path))
    ensures RouteIndex(path) == i
  {
    Unambiguous(SplitPath(path));
  }

  /** A signed-in user whom a declared route's guard permits sees that route's page at its declared path. */
  lemma DeclaredPathShows(auth: AuthState, i: nat)
    requires i < |Table| - 1
    requires PhaseOf(auth).Authenticated?
    requires Table[i].access.Guarded? ==> Permits(Table[i].access.flags, auth.user.value.role)
    ensures Resolve(auth, JoinPath(Table[i].pattern.segs)) == Shows(Table[i].page)
  {
    DeclaredPathSelectsItsRoute(i);
  }

  /** A signed-in ADMIN can see only the admin page, the login page and the not-found page. */
  lemma AdminSeesOnlyAdminLoginNotFound(auth: AuthState, path: string)
    requires PhaseOf(auth).Authenticated? && auth.user.value.role == AdminRole
    ensures Resolve(auth, path).Shows? ==> Resolve(auth, path).page in {AdminPage, LoginPage, NotFoundPage}
    ensures Resolve(auth, path).Redirected? ==> Resolve(auth, path) == Redirected("/admin", None)
  {
    PublicRoutes();
    AdminOnlyRoutes();
  }

  /** Any other signed-in role sees every page but the admin page, which sends it home. */
  lemma UserSeesAllButAdmin(auth: AuthState, path: string)
    requires PhaseOf(auth).Authenticated? && auth.user.value.role != AdminRole
    ensures Resolve(auth, path).Shows? <==> RouteFor(path).page != AdminPage
    ensures Resolve(auth, path).Redirected? ==> Resolve(auth, path) == Redirected("/", None)
  {
    PublicRoutes();
    AdminOnlyRoutes();
  }

  /** Without a user only the login and not-found pages show; everything else sends to `/login`, remembering the path. */
  lemma AnonymousSeesOnlyLoginNotFound(auth: AuthState, path: string)
    requires PhaseOf(auth) == Anonymous
    ensures Resolve(auth, path).Shows? ==> Resolve(auth, path).page in {LoginPage, NotFoundPage}
    ensures !Resolve(auth, path).Shows? ==> Resolve(auth, path) == Redirected("/login", Some(path))
  {
    PublicRoutes();
    AdminOnlyRoutes();
  }

  /** Before boot finishes, only the unguarded pages show; nothing redirects. */
  lemma LoadingShowsOnlyPublicPages(auth: AuthState, path: string)
    requires auth.loading
    ensures !Resolve(auth, path).Redirected?
    ensures Resolve(auth, path).Shows? ==> Resolve(auth, path).page in {LoginPage, NotFoundPage}
  {
    PublicRoutes();
    AdminOnlyRoutes();
  }
}
