/**
 * The checkout page of src/pages/Checkout.tsx: the shipping form, its
 * completeness check, the order request built from the cart, and what
 * happens to the cart after the request.
 */
module Checkout {
  import opened Wrappers
  import opened Text
  import opened Records
  import opened Session
  import opened Routes

  datatype ShippingInfo = ShippingInfo(
    fullName: string,
    email: string,
    phone: string,
    address: string,
    city: string,
    state: string,
    pincode: string)

  const EmptyForm := ShippingInfo("", "", "", "", "", "", "")

  /** The user effect: name and email are filled from the signed-in user; the other fields are kept. */
  function Autofill(info: ShippingInfo, user: Option<User>): (r: ShippingInfo)
    ensures user.None? ==> r == info
    ensures user.Some? ==> r.fullName == user.value.name && r.email == user.value.email.GetOr("")
    ensures r.phone == info.phone && r.address == info.address && r.city == info.city
    ensures r.state == info.state && r.pincode == info.pincode
  {
    match user
    case None => info
    case Some(u) => info.(fullName := u.name, email := u.email.GetOr(""))
  }

  /** A required field is empty. The email field is not among them. */
  predicate IsIncomplete(info: ShippingInfo) {
    info.fullName == "" || info.phone == "" || info.address == "" ||
    info.city == "" || info.state == "" || info.pincode == ""
  }

  /** The pay button. */
  function PayDisabled(processing: bool, info: ShippingInfo): (disabled: bool)
    ensures disabled <==> processing || IsIncomplete(info)
  {
    processing || IsIncomplete(info)
  }

  /** `address, city, state - pincode`. */
  function ShippingAddress(info: ShippingInfo): (r: string)
    ensures IsPrefix(info.address + ", " + info.city + ", ", r)
    ensures |r| == |info.address| + |info.city| + |info.state| + |info.pincode| + 7
    ensures r[|r| - |info.pincode| - 3..] == " - " + info.pincode
    ensures r[|info.address| + |info.city| + 4..|r| - |info.pincode| - 3] == info.state
  {
    var head := info.address + ", " + info.city + ", ";
    var r := head + info.state + " - " + info.pincode;
    assert r == head + (info.state + (" - " + info.pincode));
    r
  }

  /** An order line as the create-order request carries it. */
  datatype OrderLine = OrderLine(productId: string, productName: string, quantity: int, price: int)

  datatype OrderRequest = OrderRequest(
    userEmail: Option<string>,
    items: seq<OrderLine>,
    totalAmount: int,
    paymentStatus: string,
    orderStatus: string,
    shippingAddress: string,
    phoneNumber: string)

  /** The create-order request: one line per cart line, in order, and the cart store's total. */
  function BuildOrder(user: User, lines: seq<CartLine>, total: int, info: ShippingInfo): (req: OrderRequest)
    ensures req.userEmail == user.email
    ensures |req.items| == |lines|
    ensures forall i :: 0 <= i < |lines| ==>
      req.items[i] == OrderLine(lines[i].id, lines[i].name, lines[i].quantity, lines[i].price)
    ensures req.totalAmount == total
    ensures req.paymentStatus == "Success" && req.orderStatus == "Processing"
    ensures req.shippingAddress == ShippingAddress(info) && req.phoneNumber == info.phone
  {
    var items := seq(|lines|, i requires 0 <= i < |lines| =>
      OrderLine(lines[i].id, lines[i].name, lines[i].quantity, lines[i].price));
    OrderRequest(user.email, items, total, "Success", "Processing", ShippingAddress(info), info.phone)
  }

  /** The request sent, if any; the calls made; the processing flag afterwards. */
  datatype PaymentOutcome = PaymentOutcome(request: Option<OrderRequest>, calls: seq<Call>, processing: bool)

  function SummaryPath(orderId: int): string {
    "/order-summary/" + IntToString(orderId)
  }

  /**
   * `handlePayment`. `created` is the new order's id when the request
   * succeeds, `None` when it fails.
   */
  function HandlePayment(user: Option<User>, lines: seq<CartLine>, total: int, info: ShippingInfo,
                         created: Option<int>): (r: PaymentOutcome)
    ensures user.None? ==> r.request.None? && r.calls == [Navigate("/login", false)]
    ensures user.Some? && IsIncomplete(info) ==> r.request.None? && r.calls == []
    ensures r.request.Some? <==> user.Some? && !IsIncomplete(info)
    ensures r.request.Some? ==> r.request.value == BuildOrder(user.value, lines, total, info)
    ensures r.request.Some? && created.Some? ==>
      r.calls == [ClearCart, Navigate(SummaryPath(created.value), false)]
    ensures r.request.Some? && created.None? ==> r.calls == []
    ensures ClearCart in r.calls <==> r.request.Some? && created.Some?
    ensures !r.processing
  {
    if user.None? then PaymentOutcome(None, [Navigate("/login", false)], false)
    else if IsIncomplete(info) then PaymentOutcome(None, [], false)
    else
      var req := BuildOrder(user.value, lines, total, info);
      match created
      case None => PaymentOutcome(Some(req), [], false)
      case Some(id) => PaymentOutcome(Some(req), [ClearCart, Navigate(SummaryPath(id), false)], false)
  }

  /** For a signed-in user the enabled button and the handler's own check agree: an enabled click sends the order. */
  lemma ButtonAgreesWithHandler(user: User, lines: seq<CartLine>, total: int, info: ShippingInfo, created: Option<int>)
    ensures !PayDisabled(false, info) <==> HandlePayment(Some(user), lines, total, info, created).request.Some?
  {
  }

  /** The email field never blocks payment: only the six required fields are checked. */
  lemma EmailNotRequired(user: User, lines: seq<CartLine>, total: int, info: ShippingInfo, created: Option<int>)
    requires !IsIncomplete(info)
    ensures HandlePayment(Some(user), lines, total, info.(email := ""), created).request.Some?
  {
  }

  /** After a successful order a shopper lands on the order summary page. */
  lemma SuccessShowsSummary(auth: AuthState, orderId: int)
    requires PhaseOf(auth).Authenticated? && auth.user.value.role != AdminRole
    ensures Resolve(auth, SummaryPath(orderId)) == Shows(OrderSummaryPage)
  {
    var n := IntToString(orderId);
    var segs := ["order-summary", n];
    assert segs[1..] == [n];
    assert JoinPath([n]) == "/" + n + JoinPath([]);
    assert JoinPath(segs) == "/order-summary" + ("/" + n);
    assert "/order-summary" + ("/" + n) == SummaryPath(orderId);
    SplitJoin(segs);
    MatchingRouteIsSelected(SummaryPath(orderId), 7);
  }

  /** The cart effect: once the session has loaded, an empty cart sends the visitor to `/cart`. */
  function EmptyCartRedirect(loading: bool, lines: seq<CartLine>): (calls: seq<Call>)
    ensures calls == [Navigate("/cart", false)] <==> !loading && lines == []
    ensures calls == [] <==> loading || lines != []
  {
    if !loading && |lines| == 0 then [Navigate("/cart", false)] else []
  }
}
