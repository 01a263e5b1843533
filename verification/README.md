# FurniHub storefront: a Dafny model of its client-side logic

FurniHub is a React storefront for furniture that talks to a REST backend.
This project models the client-side decisions the storefront makes, as pure
Dafny functions over immutable data, and proves properties of them. It covers:

- **Session store** (`Session`): the signed-in user and the loading flag. The
  user is restored from the stored bearer token at boot. Login, register and
  logout change it. The role comes from the token's first `roles` entry.
- **Route guard** (`Guard`): for a session and a route's flags, the spinner, a
  redirect or the page.
- **Route table** (`Routes`): the routes as data. A path selects the first
  route that matches it, and `Resolve` says what the visitor then sees.
- **HTTP client** (`Api`): the two request interceptors and the response
  interceptor. One attaches the bearer token. One strips Content-Type for
  multipart bodies. The response interceptor ends the session on a 401.
- **Pages**:
  - the login and register page (`LoginPage`);
  - the navigation bar (`Navbar`);
  - the catalogue with search, category filter and price sort (`Catalog`);
  - the product page with its quantity stepper, add-to-cart and "buy now" (`ProductDetail`);
  - the wishlist as both pages keep it (`Wishlist`);
  - the landing page with its per-category counts (`Home`);
  - the customer's order dashboard (`Dashboard`);
  - checkout (`Checkout`);
  - the administrator's dashboard (`Admin`).
- **Library modules**: `Text`, `Seqs`, `Sorting` and `Records` hold the
  JavaScript semantics the pages rely on:
  - ASCII `toLowerCase`/`toUpperCase`;
  - `trim` with the ECMAScript white-space set;
  - `replace` of the first occurrence;
  - `Number#toString` with a parse round trip;
  - `filter`, `find` and `slice`;
  - the stable `Array#sort` with a numeric comparator, as a stable sort on an integer key;
  - the `Array.isArray(data) ? … : …` reply normalisations.

## How the model is built

- **Collaborators.** Pages do not mutate the cart store or the router. Each
  handler returns the `Call`s it makes (`AddToCart`, `ClearCart`,
  `Navigate`), in order.
- **Inputs.** Replies of the backend, the outcome of a request (accepted or
  failed) and the browser's `localStorage` (a string map) are inputs.
- **Decoding.** JWT decoding is a parameter `decode: string -> Option<Claims>`,
  where `None` means the decoder throws.
- **JavaScript values.** JavaScript truthiness is written out:
  - `x || d` skips `""`, `0` and missing values;
  - `if (token)` treats the empty string as absent.
- **Numbers and dates.** Prices, totals, ids and timestamps are integers.
  Date strings are taken as already-parsed timestamps.

## Model

| member | source | states |
|---|---|---|
| Session.DeriveRole | src/context/AuthContext.tsx:32-35 | missing or empty `roles` gives `USER`; otherwise the first entry upper-cased with the first occurrence of `ROLE_` removed, wherever it stands (a leading one in particular), and unchanged apart from case when `ROLE_` does not occur; the role never holds a lower-case ASCII letter |
| Session.RoleIgnoresLaterEntries | src/context/AuthContext.tsx:33-34 | only the first `roles` entry decides the role |
| Session.RoleExamples | src/context/AuthContext.tsx:32-35 | `ROLE_ADMIN` and lower-case `ROLE_admin` both give the privileged `ADMIN`; `ROLE_MANAGER` gives `MANAGER` (roles are not clamped); `[]` gives `USER` |
| Session.UserFromClaims | src/context/AuthContext.tsx:37-42 | the id is `id`, else the subject string, else 0; the email is the subject, else `email`; the name is `name` or ""; each `||` skips 0 and "" |
| Session.Boot | src/context/AuthContext.tsx:27-49 | loading ends; a user exists iff a non-empty token is stored and decodes, and is then the decoded user; storage is unchanged except that a token that fails to decode is removed |
| Session.BootLeavesLoading | src/context/AuthContext.tsx:48 | after boot the session is never in the loading phase, whatever is stored |
| Session.BootPurgesMalformedToken | src/context/AuthContext.tsx:43-46 | a stored token that does not decode leaves the session anonymous and the token key removed |
| Session.Login | src/context/AuthContext.tsx:52-81 | a rejected sign-in rethrows with the user unchanged, and its storage is the HTTP client's: on a 401 `token` and `user` are removed and the window is sent to `/login`, on any other error storage is unchanged and nothing reloads; an accepted one stores the token, rethrows iff it does not decode, and otherwise takes id, email and name from the reply and only the role from the token; loading ends in every case |
| Session.LoginKeepsUndecodableToken | src/context/AuthContext.tsx:58-61 | a token that fails to decode at login is still left in storage while the call rethrows |
| Session.Register | src/context/AuthContext.tsx:84-100 | a rejected sign-up rethrows with the user unchanged, with a 401 clearing `token` and `user` and sending the window to `/login` and any other error changing no storage; otherwise it is exactly a login with the same credentials |
| Session.UnauthorizedSigninEndsSession | src/context/AuthContext.tsx:55 | a sign-in answered 401 leaves no token, sends the window to `/login`, and that page boots anonymous, whatever storage held before |
| Session.RejectedSignupActsLikeRejectedSignin | src/context/AuthContext.tsx:87-97 | a sign-up rejected with an error leaves the same user, storage and reload as a sign-in rejected with that error |
| Session.ReloadAfterLoginRestoresUser | src/context/AuthContext.tsx:58-74 | when the token's claims agree with the reply, a reload after login restores the same session |
| Session.Logout | src/context/AuthContext.tsx:103-107 | the user is gone and only the token key is removed from storage; the callback's calls are made once if supplied |
| Session.LogoutEndsAnonymous | src/context/AuthContext.tsx:103-107 | logging out of a booted session always ends anonymous |
| Session.ReloadAfterLogoutStaysAnonymous | src/context/AuthContext.tsx:104 | after logout a reload boots anonymous, whatever the decoder |
| Guard.Decide | src/components/ProtectedRoute.tsx:18-41 | spinner iff loading; redirect to `/login` carrying the location iff anonymous; to `/admin` iff an admin on a user-only route; to `/` iff a non-admin on an admin-only route; the page iff the flags permit the role |
| Guard.LoadingNeverRedirects | src/components/ProtectedRoute.tsx:18-24 | while loading the guard shows the spinner for any user and flags |
| Guard.DefaultsRenderAnyUser | src/components/ProtectedRoute.tsx:12-41 | with neither flag set any signed-in user sees the page |
| Guard.OnlyExactAdminIsPrivileged | src/components/ProtectedRoute.tsx:37-39 | any role other than the exact string `ADMIN` is sent from an admin-only page to `/` |
| Routes.SplitPath | src/App.tsx:43-133 | a path's segments are non-empty and contain no `/` |
| Routes.SplitJoin | src/App.tsx:43-133 | splitting a joined path gives back its segments, so each declared pattern is read back exactly |
| Routes.RouteIndex | src/App.tsx:43-133 | the selected route matches the path and no earlier route does |
| Routes.Resolve | src/App.tsx:43-133 | a public route shows its page; a guarded route shows what the guard decides with the route's flags |
| Routes.PublicRoutes | src/App.tsx:44-132 | the only unguarded routes are `/login` (first) and the catch-all (last) |
| Routes.AdminOnlyRoutes | src/App.tsx:47-129 | the admin page is the one admin-only route; every other guarded route is user-only |
| Routes.NoRouteHasBothFlags | src/App.tsx:47-129 | no route is both user-only and admin-only |
| Routes.PatternsDistinct | src/App.tsx:45-123 | declared patterns of the same length differ in their first segment, which is a lower-case literal |
| Routes.Unambiguous | src/App.tsx:43-133 | no path matches two declared (non-catch-all) routes |
| Routes.DeclaredPathSelectsItsRoute | src/App.tsx:43-133 | each declared path selects its own route |
| Routes.MatchingRouteIsSelected | src/App.tsx:43-133 | any path a declared route matches selects that route |
| Routes.DeclaredPathShows | src/App.tsx:43-133 | a signed-in user the route's flags permit sees the route's page at its declared path |
| Routes.AdminSeesOnlyAdminLoginNotFound | src/App.tsx:43-133 | an admin sees only the admin, login and not-found pages; every other path redirects to `/admin` |
| Routes.UserSeesAllButAdmin | src/App.tsx:43-133 | a non-admin sees every page except the admin page, which redirects to `/` |
| Routes.AnonymousSeesOnlyLoginNotFound | src/App.tsx:43-133 | an anonymous visitor sees only the login and not-found pages; every other path redirects to `/login` carrying the path |
| Routes.LoadingShowsOnlyPublicPages | src/App.tsx:43-133 | while the session loads nothing redirects and only public pages show |
| LoginPage.ReturnTarget | src/pages/Login.tsx:17 | the page the guard bounced from, or `/` when there is none or it is empty |
| LoginPage.SignedInRedirect | src/pages/Login.tsx:30-35 | no call without a user; an admin goes to `/admin`, anyone else to `/`, both replacing history |
| LoginPage.HandleLogin | src/pages/Login.tsx:37-71 | its session step is the session store's login, 401 handling included; a failed login makes no router call; a successful one navigates to `/admin` for an admin and to the return target otherwise; the busy flag ends false |
| LoginPage.UnauthorizedLoginReloadsLoginPage | src/pages/Login.tsx:37-71 | a sign-in answered 401 makes no router call, while the token is gone and the window is sent to `/login` |
| LoginPage.BouncedVisitorReturns | src/pages/Login.tsx:42-60 | a non-admin the guard sent to `/login` from a page returns to exactly that page after signing in |
| LoginPage.HandleRegister | src/pages/Login.tsx:73-99 | mismatched passwords send nothing; otherwise a register, and a navigation to `/` iff it did not throw |
| LoginPage.NewAdminLandsOnAdmin | src/pages/Login.tsx:86-89 | a newly registered admin sent to `/` is forwarded by the guard to the admin page |
| Navbar.Render | src/components/Navbar.tsx:31-126 | admins get no links, no cart icon and no mobile menu, and logo and menu lead to `/admin`; others get the three shopper links; the badge shows iff a non-admin has a positive count; a sign-in button iff nobody is signed in |
| Navbar.HandleLogout | src/components/Navbar.tsx:23-28 | the user and the token go, other storage stays, then the cart is cleared and the router goes to `/login` |
| Navbar.ShopperLinksOpenPages | src/components/Navbar.tsx:31-38 | each link shown to a signed-in shopper opens a real page, neither a redirect nor not-found |
| Navbar.ShopperControlsOpenPages | src/components/Navbar.tsx:45-110 | a shopper's logo opens the home page, the account menu's entry opens the shopper dashboard, and the cart icon is shown |
| Navbar.AdminControlsOpenAdminPage | src/components/Navbar.tsx:45-110 | every destination the bar offers an admin shows the admin page |
| Navbar.LogoutLandsOnLogin | src/components/Navbar.tsx:23-28 | after logout the login page shows and a reload stays signed out |
| Api.DeleteIfSet | src/lib/api.ts:28 | the key is removed unless its value is falsy (empty); every other key is untouched |
| Api.StripContentTypes | src/lib/api.ts:28-31 | no non-empty Content-Type value survives under either spelling; other keys are untouched |
| Api.AttachBearer | src/lib/api.ts:12-18 | with a non-empty stored token the Authorization header becomes `Bearer <token>`; without one the request is unchanged |
| Api.StripMultipartContentType | src/lib/api.ts:25-34 | only multipart bodies are touched, and for them no non-empty Content-Type remains in the own or common headers; all other headers are kept |
| Api.OnRequest | src/lib/api.ts:11-34 | both interceptors in axios order: the bearer is attached when a token is stored, multipart Content-Types are gone, other headers and the body are kept |
| Api.InterceptorsCommute | src/lib/api.ts:11-34 | the two request interceptors touch disjoint headers, so their order does not matter |
| Api.BearerIffToken | src/lib/api.ts:13-16 | a request without its own Authorization header carries one iff a non-empty token is stored, and then it is exactly `Bearer <token>` |
| Api.OnResponse | src/lib/api.ts:37-47 | the outcome passes through unchanged; a 401 removes `token` and `user` and keeps every other key, and sends the window to `/login`; any other outcome leaves storage as it was and sends the window nowhere |
| Records.StoredToken | src/lib/api.ts:13-14 | a token is seen iff the `token` key holds a non-empty string, and it is then that string |
| Session.UnauthorizedEndsSession | src/lib/api.ts:40-44 | after a 401 on any request the window goes to `/login`, that page boots anonymous, and later requests carry no bearer |
| Catalog.ApplySort | src/pages/Products.tsx:94-98 | `price-low` ascending and `price-high` descending, both a permutation; any other choice keeps the order |
| Catalog.FilteredProducts | src/pages/Products.tsx:80-98 | a product is shown iff it matches the search and category; multiplicities are kept; sorted by the chosen price order, else a subsequence of the backend order |
| Catalog.PriceSortIsStable | src/pages/Products.tsx:94-96 | under either price sort, products of equal price keep their backend order |
| Catalog.FeaturedKeepsOrder | src/pages/Products.tsx:97 | the comparator that answers 0 leaves the filtered list in backend order |
| Catalog.InitialStateShowsAll | src/pages/Products.tsx:31-33 | with the initial query, category and sort, every product is shown in order |
| Catalog.SelectingCategoryId | src/pages/Products.tsx:88-90 | selecting a category id's decimal text keeps exactly the products of that category |
| Catalog.MatchesSearch | src/pages/Products.tsx:83-85 | an empty query matches every product; a matching query is no longer than the name |
| Catalog.MatchesSearchIffSubstring | src/pages/Products.tsx:83-85 | a product matches exactly when some stretch of its name equals the query up to ASCII case, in both directions |
| Catalog.MatchesCategory | src/pages/Products.tsx:88-90 | `all` matches every product; a product without a category matches only `all`; any other match means the selection is exactly the decimal text of the product's category id, which parses back to that id |
| Catalog.SearchIgnoresCase | src/pages/Products.tsx:83-85 | search ignores ASCII case in both the query and the name |
| Catalog.Load | src/pages/Products.tsx:43-68 | a failed request changes only the loading flag; a non-array product reply empties the products; a null category payload keeps the old categories; once both succeed, a non-empty URL category read at mount replaces the selection, whatever it has become, because the fetch's closure always sees the selection as `all` |
| Catalog.StaleMountCategoryWins | src/pages/Products.tsx:43-75 | when the URL category changes before the mount fetch settles, the page ends on the mount-time category |
| Catalog.SyncFromUrl | src/pages/Products.tsx:71-75 | a non-empty URL category replaces the selection; nothing else changes |
| Catalog.UrlSelectionOrderIndependent | src/pages/Products.tsx:56-75 | from the initial state, the URL sync and the load agree on the selection whichever finishes first |
| Wishlist.WithoutId | src/pages/Wishlist.tsx:29 | no entry with the id remains; every other entry is kept as often as it occurred, in its original order |
| Wishlist.Toggle | src/pages/ProductDetail.tsx:94-103 | the product's id is present afterwards iff it was absent; an absent product is appended; a present one is removed everywhere while every other entry keeps its multiplicity and order |
| Wishlist.ToggleTwiceRestores | src/pages/ProductDetail.tsx:94-103 | saving a new product and unsaving it restores the list exactly |
| Wishlist.RemoveIdempotent | src/pages/Wishlist.tsx:29 | removing an id twice is removing it once |
| Wishlist.HandleWishlist | src/pages/ProductDetail.tsx:91-107 | nothing happens before the product loads; otherwise the list is toggled and the new list is persisted |
| Wishlist.IsInWishlist | src/pages/ProductDetail.tsx:109 | the heart is filled iff a product is shown and its id is in the list |
| Wishlist.HeartFlips | src/pages/ProductDetail.tsx:91-109 | pressing the heart flips it |
| Wishlist.Restore | src/pages/Wishlist.tsx:21-26 | a stored list replaces the state; without one the state is kept |
| Wishlist.ReloadSeesUpdate | src/pages/ProductDetail.tsx:54-57 | what a handler persisted is what the next visit starts from |
| Wishlist.HandleRemove | src/pages/Wishlist.tsx:28-33 | the id is gone, every other entry stays as often as it occurred and in its order, and the result is persisted |
| Wishlist.RemoveAgreesWithToggle | src/pages/Wishlist.tsx:28-31 | for a saved product, removing on the wishlist page equals toggling on the product page |
| Wishlist.HandleAddToCart | src/pages/Wishlist.tsx:35-43 | one add-to-cart call whose id parses back to the product id, under the fixed image prefix |
| ProductDetail.Decrement | src/pages/ProductDetail.tsx:174 | never below 1; one less when at least 2 |
| ProductDetail.Increment | src/pages/ProductDetail.tsx:182 | one more, unbounded |
| ProductDetail.StepperStaysPositive | src/pages/ProductDetail.tsx:174-182 | from a quantity of at least 1 no presses go below 1, and each press adds at most 1 |
| ProductDetail.ItemOf | src/pages/ProductDetail.tsx:64-69 | the cart entry's id parses back to the product id; name and price are kept; the image sits under the configured base |
| ProductDetail.HandleAddToCart | src/pages/ProductDetail.tsx:60-76 | no product, no call; otherwise exactly `quantity` identical add-to-cart calls (none for a quantity of 0 or less) |
| ProductDetail.HandleBuyNow | src/pages/ProductDetail.tsx:78-81 | `quantity` add-to-cart calls and then a navigation to `/cart`; with no product loaded, or a quantity of zero or less, the navigation alone |
| Home.NameKey | src/pages/Home.tsx:39 | the comparison key is the trim of the lower-cased name (only white space around it there, its own ends not white space), so it has no upper-case ASCII letter and is no longer than the name |
| Home.FindCount | src/pages/Home.tsx:37-40 | the first count entry whose trimmed lower-case name equals the key; `None` iff there is none |
| Home.Merge | src/pages/Home.tsx:36-42 | each category in order, kept whole, with the first matching entry's count or 0 |
| Home.CountMatchesDespiteCaseAndPadding | src/pages/Home.tsx:39 | a count whose name differs only in ASCII case and surrounding blanks still matches |
| Home.NoCountsMeansZero | src/pages/Home.tsx:34-41 | with no count entries every card counts 0 |
| Home.Load | src/pages/Home.tsx:21-59 | an error iff a request fails or the category payload is null, and then both lists are empty; otherwise the merged cards and the first four products; loading ends |
| Dashboard.FetchFor | src/pages/Dashboard.tsx:34-38 | orders are fetched iff the user has a non-empty email, and then for that email |
| Dashboard.NewestFirst | src/pages/Dashboard.tsx:43-46 | a permutation with dates non-increasing; orders of equal date keep their order |
| Dashboard.Mount | src/pages/Dashboard.tsx:34-53 | without an email the spinner stays; otherwise loading ends with the sorted orders, or none when the reply is not an array or fails |
| Dashboard.LatestOrder | src/pages/Dashboard.tsx:93 | none iff there are no orders, else the first |
| Dashboard.LatestIsNewest | src/pages/Dashboard.tsx:43-93 | the latest order shown is a fetched order and none is newer |
| Dashboard.StatusColor | src/pages/Dashboard.tsx:70-83 | each known status, compared lower-cased, has its own colour; the gray colour iff the status is unknown |
| Dashboard.StatusIcon | src/pages/Dashboard.tsx:55-68 | clock, truck and check for pending, shipped and delivered; the package icon iff processing or unknown |
| Dashboard.BadgeIgnoresCase | src/pages/Dashboard.tsx:55-83 | colour and icon do not depend on the status's ASCII case |
| Dashboard.UnknownStatusIsGrayPackage | src/pages/Dashboard.tsx:55-83 | an unknown status gets the gray badge with the package icon |
| Checkout.Autofill | src/pages/Checkout.tsx:31-39 | with a user, name and email come from the user (a missing email as ""); every other field is kept |
| Checkout.PayDisabled | src/pages/Checkout.tsx:265-269 | disabled iff processing or a required field is empty |
| Checkout.ShippingAddress | src/pages/Checkout.tsx:87 | `address, city, state - pincode`, with each part recoverable at its position |
| Checkout.BuildOrder | src/pages/Checkout.tsx:76-89 | one order line per cart line in order, the store's total, `Success`/`Processing`, the composed address and the phone |
| Checkout.HandlePayment | src/pages/Checkout.tsx:45-109 | no user: only a navigation to `/login`; an incomplete form: nothing; otherwise the order is sent, and the cart is cleared iff the order was created, then the summary page opens |
| Checkout.ButtonAgreesWithHandler | src/pages/Checkout.tsx:56-128 | for a signed-in user the button is enabled exactly when the handler sends the order |
| Checkout.EmailNotRequired | src/pages/Checkout.tsx:56-63 | an empty email never blocks payment |
| Checkout.SuccessShowsSummary | src/pages/Checkout.tsx:99 | after a successful order a shopper sees the order-summary page |
| Checkout.EmptyCartRedirect | src/pages/Checkout.tsx:112-116 | once loading ends, an empty cart sends the visitor to `/cart`; otherwise nothing |
| Admin.NewestProductsFirst | src/pages/AdminDashboard.tsx:125-126 | a permutation with ids non-increasing; equal ids keep their order |
| Admin.NewestOrdersFirst | src/pages/AdminDashboard.tsx:128-133 | a permutation with dates non-increasing, a missing date counting as 0; equal dates keep their order |
| Admin.LoadAll | src/pages/AdminDashboard.tsx:113-141 | a failed request keeps the lists; otherwise the lists come from the replies, products and orders newest first; loading ends and the busy row is untouched |
| Admin.NonArrayRepliesEmptyLists | src/pages/AdminDashboard.tsx:123-128 | each reply that is not an array empties its list |
| Admin.LoadKeepsEveryRecord | src/pages/AdminDashboard.tsx:123-134 | the loaded tables hold exactly the products and orders the backend sent |
| Admin.UndatedOrdersSortAsEpoch | src/pages/AdminDashboard.tsx:129-133 | an undated order sorts as if dated at the epoch: only orders dated at or before it follow, only later-or-equal ones precede |
| Admin.Revenue | src/pages/AdminDashboard.tsx:342 | the revenue card's sum over the orders, a missing amount counting 0; the four lemmas that follow state what it promises |
| Admin.RevenueSkipsMissingAmounts | src/pages/AdminDashboard.tsx:342 | orders without an amount add nothing to the revenue |
| Admin.MissingAmountsSumToZero | src/pages/AdminDashboard.tsx:342 | orders that all lack an amount give revenue 0 |
| Admin.RevenueBoundsEachOrder | src/pages/AdminDashboard.tsx:342 | with no negative amount the revenue is at least any one order's amount |
| Admin.RevenueNonNegative | src/pages/AdminDashboard.tsx:342 | with no negative amount the revenue is not negative |
| Admin.RevenueIgnoresSorting | src/pages/AdminDashboard.tsx:128-134 | the revenue after a load is the sum over the orders as sent; sorting does not change it |
| Admin.Recent | src/pages/AdminDashboard.tsx:367 | the first min(8, n) orders, in order |
| Admin.RecentAreNewest | src/pages/AdminDashboard.tsx:362-367 | after a load no order left out of the recent table is newer than one in it |
| Admin.EditCategory | src/pages/AdminDashboard.tsx:155-160 | the form starts from the category, a missing description as "" |
| Admin.SubmitCategory | src/pages/AdminDashboard.tsx:162-193 | nothing is sent iff the trimmed name is blank; a PUT for an edited category with a non-zero id, else a POST; the name goes out untrimmed |
| Admin.BlankCategoryRefused | src/pages/AdminDashboard.tsx:164-167 | a category is refused iff every character of its name is white space |
| Admin.EditCategoryRoundTrip | src/pages/AdminDashboard.tsx:155-193 | editing a category and saving it unchanged sends its own fields back to it |
| Admin.EditProduct | src/pages/AdminDashboard.tsx:225-232 | the price field is empty iff the price is 0, else its decimal text; the category field is empty iff there is no category or its id is 0; no image preset |
| Admin.SubmitProduct | src/pages/AdminDashboard.tsx:234-268 | nothing is sent iff name is blank or price or category id is empty; a PUT for an edited product with a non-zero id, else a POST, with the fields as typed and the stored token as bearer |
| Admin.EditProductRoundTrip | src/pages/AdminDashboard.tsx:225-268 | a complete product edited and saved unchanged is sent back to its id with price and category that parse back |
| Admin.FalsyFieldsBlockEdit | src/pages/AdminDashboard.tsx:225-239 | a product priced 0 or without a category cannot be saved from its edit form as opened |
| Admin.DeleteCategoryRequest | src/pages/AdminDashboard.tsx:203-206 | the delete is sent iff the confirmation is accepted |
| Admin.DeleteProductRequest | src/pages/AdminDashboard.tsx:278-281 | the delete is sent iff the confirmation is accepted |
| Admin.RowDisabled | src/pages/AdminDashboard.tsx:631 | a row's status selector is disabled iff its order is being updated |
| Admin.UpdateOrderStatus | src/pages/AdminDashboard.tsx:291-304 | the order is busy during the request; afterwards no order is busy, with the lists reloaded on success and unchanged on failure |
| Admin.BusyRowClearsAfterUpdate | src/pages/AdminDashboard.tsx:291-304 | during an update only that order's row is disabled; afterwards no row is, whatever the outcome |
| Sorting.SortBy | src/pages/Products.tsx:94-98 | the stable sort: sorted by key, a permutation, and elements of equal key keep their order |
| Sorting.SortByEqualKeys | src/pages/Products.tsx:97 | a comparator that always answers 0 leaves the sequence as it was |
| Sorting.SumBySort | src/pages/AdminDashboard.tsx:342 | sorting does not change a sum |
| Seqs.FindFirst | src/pages/Home.tsx:37-40 | `find`: the first index that satisfies the predicate, `None` iff none does |
| Seqs.Filter | src/pages/Products.tsx:80-93 | `filter`: every passing element is kept exactly as often as it occurs, no failing one is kept, and the result is a subsequence of the input |
| Seqs.FilterCharacterised | src/pages/Wishlist.tsx:29 | a subsequence with exactly the passing elements' multiplicities is the filtered sequence, so those two facts pin the result down |
| Seqs.SubsequenceMultiset | src/pages/Wishlist.tsx:29 | a subsequence holds each element at most as often as its source |
| Records.ArrayOrEmpty | src/pages/AdminDashboard.tsx:123 | an array reply as is, anything else as empty |
| Records.ArrayOrContent | src/pages/Home.tsx:30-32 | an array as is; an object's `content` or empty; `None` (a throw) iff the payload is null |
| Text.Trim | src/pages/AdminDashboard.tsx:164 | the ECMAScript trim: the result sits inside the input with only white space before and after it, and when non-empty it neither starts nor ends with white space |
| Text.TrimUnique | src/pages/AdminDashboard.tsx:164 | any string that sits in the input that way is the trim, so the characterisation fixes the result |
| Text.TrimmedAtUnique | src/pages/Home.tsx:39 | two strings that each sit in the same input with only white space around them and no white space at their ends are equal |
| Text.BlankIffAllSpace | src/pages/AdminDashboard.tsx:164 | a string trims to empty iff every character is white space |
| Text.ReplaceFirst | src/context/AuthContext.tsx:34 | a leading occurrence is replaced by the replacement; otherwise the string is either unchanged or one pattern's length shorter and one replacement's length longer |
| Text.ReplaceFirstAtFirst | src/context/AuthContext.tsx:34 | with the first occurrence at offset `k`, the result is the text before `k`, the replacement, then the text after that occurrence |
| Text.ReplaceFirstCases | src/context/AuthContext.tsx:34 | `replace` with a string pattern: a leading occurrence is replaced by the replacement, and a string without the pattern is unchanged |
| Text.IntToString | src/pages/Products.tsx:90 | `toString` of an integer is decimal text, starting with a minus sign iff the integer is negative |
| Text.ParseIntToString | src/pages/ProductDetail.tsx:65 | `toString` of an integer is decimal text that parses back to the integer |

## Left out

- The cart store is not part of this model. Its merging of repeated `addToCart` calls, its totals and item count are not visible. Pages emit `AddToCart`/`ClearCart` calls instead.
- JWT decoding is a parameter: the token format and its signature are not modelled.
- Network, `localStorage`, `window.location` and environment configuration are inputs or outputs of the functions, not effects. Base URLs are opaque strings.
- Concurrency is not modelled. This covers overlapping logins, the race between the login page's user effect and its handler, `Promise.all` fan-out and stale replies after navigation. A handler sees its replies as already settled. The one ordering effect that is kept is the mount fetch's stale category in Catalog.Load.
- Dates are integers: `new Date(…).getTime()` parsing, invalid dates (NaN comparators) and `toLocaleString` are left out. Revenue's `Math.round` is the identity on integers. Prices and totals are integers, not floats.
- `toLowerCase`/`toUpperCase` are modelled on ASCII letters only. Other Unicode case mappings are left out.
- A `roles` entry that is not a string (which would make `replace` throw) is not modelled; entries are strings.
- Header names are compared exactly, as the interceptor's four separate checks do. The case-insensitive lookup of axios' own header object is left out.
- Routes.RouteIndex: path matching splits on `/`, drops empty segments and compares literal segments ignoring ASCII case. Percent-decoding and ranking by specificity are left out; with this table the first match is the only match of a declared route, as Routes.Unambiguous states.
- The admin page's PUT-then-delete-and-recreate fallback for categories and products (src/pages/AdminDashboard.tsx:175-188, 252-263) is left out. Admin.SubmitCategory and Admin.SubmitProduct give only the first request sent.
- Admin.UpdateOrderStatus: `encodeURIComponent` of the status in the query string is not modelled; the request carries the status as a value.
- Checkout.HandlePayment: a created order whose reply has no `id` (which would navigate to `/order-summary/undefined`) is not modelled; the created id is an integer.
- Presentation-only parts are left out: JSX layout, animations, toasts, icons other than the status badge, the theme toggle and the share button. Also left out are Footer, Categories, Cart, OrderSummary and ProductCard, which only render or forward props.
- Checkout.Autofill: `user.name || ''` is the name as is, since the modelled user's name is already a string (the session store makes it "" when missing).
