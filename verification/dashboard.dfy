/**
 * The customer dashboard of src/pages/Dashboard.tsx: the user's orders,
 * newest first, with a colour and an icon per status.
 */
module Dashboard {
  import opened Wrappers
  import opened Text
  import opened Seqs
  import opened Sorting
  import opened Records

  datatype OrderItem = OrderItem(productName: string, quantity: int, price: int)

  /** An order as the user's order list returns it; `orderDate` as a timestamp. */
  datatype Order = Order(
    id: int,
    userEmail: string,
    orderStatus: string,
    totalAmount: int,
    orderDate: int,
    items: seq<OrderItem>)

  /** `user?.email`: the address to fetch for, when there is a non-empty one. */
  function FetchFor(user: Option<User>): (email: Option<string>)
    ensures email.Some? <==> user.Some? && user.value.email.Some? && user.value.email.value != ""
    ensures email.Some? ==> email.value == user.value.email.value
  {
    if user.Some? && user.value.email.Some? && user.value.email.value != "" then user.value.email else None
  }

  /** The comparator `b.date - a.date` sorts by the negated date. */
  function NegatedDate(o: Order): int { -o.orderDate }

  /** Newest first; orders of the same date (the same negated date `k`) keep the backend's order. */
  function NewestFirst(orders: seq<Order>): (r: seq<Order>)
    ensures |r| == |orders| && multiset(r) == multiset(orders)
    ensures forall i, j :: 0 <= i < j < |r| ==> r[i].orderDate >= r[j].orderDate
    ensures forall k :: WithKey(r, NegatedDate, k) == WithKey(orders, NegatedDate, k)
  {
    var r := SortBy(orders, NegatedDate);
    assert forall i, j :: 0 <= i < j < |r| ==> NegatedDate(r[i]) <= NegatedDate(r[j]);
    r
  }

  datatype State = State(orders: seq<Order>, loading: bool)

  const Initial := State([], true)

  /**
   * The page after mount. Without an email nothing is fetched and the
   * spinner stays. A failed request, or a reply that is not an array (its
   * `sort` throws), leaves the list empty; either way loading ends.
   */
  function Mount(user: Option<User>, reply: Option<Payload<Order>>): (r: State)
    ensures FetchFor(user).None? ==> r == Initial
    ensures FetchFor(user).Some? ==> !r.loading
    ensures FetchFor(user).Some? && reply.Some? && reply.value.JsonArray? ==> r.orders == NewestFirst(reply.value.items)
    ensures FetchFor(user).Some? && !(reply.Some? && reply.value.JsonArray?) ==> r.orders == []
  {
    if FetchFor(user).None? then Initial
    else if reply.Some? && reply.value.JsonArray? then State(NewestFirst(reply.value.items), false)
    else State([], false)
  }

  /** `orders.length > 0 ? orders[0] : null`. */
  function LatestOrder(orders: seq<Order>): (r: Option<Order>)
    ensures r.None? <==> orders == []
    ensures r.Some? ==> r.value == orders[0]
  {
    if |orders| > 0 then Some(orders[0]) else None
  }

  /** After sorting, the latest order is one of the fetched orders and none is newer. */
  lemma LatestIsNewest(fetched: seq<Order>)
    requires fetched != []
    ensures var latest := LatestOrder(NewestFirst(fetched));
      latest.Some? && latest.value in fetched &&
      forall i :: 0 <= i < |fetched| ==> fetched[i].orderDate <= latest.value.orderDate
  {
    var r := NewestFirst(fetched);
    SameMultisetSameMembers(r, fetched);
    forall i | 0 <= i < |fetched| ensures fetched[i].orderDate <= r[0].orderDate {
      var k :| 0 <= k < |r| && r[k] == fetched[i];
    }
  }

  // ---------------------------------------------------------------------------
  // Status badges
  // ---------------------------------------------------------------------------

  const Pending: string := "pending"
  const Processing: string := "processing"
  const Shipped: string := "shipped"
  const Delivered: string := "delivered"

  /** The statuses the page knows, in lower case. */
  predicate IsKnownStatus(status: string) {
    Lower(status) in {Pending, Processing, Shipped, Delivered}
  }

  datatype Icon = Clock | PackageIcon | Truck | CheckCircle

  const GrayClasses: string := "bg-gray-500/10 text-gray-500"

  /** The badge classes for a status, matched after lower-casing. */
  function StatusColor(status: string): (c: string)
    ensures Lower(status) == Pending <==> c == "bg-yellow-500/10 text-yellow-500"
    ensures Lower(status) == Processing <==> c == "bg-blue-500/10 text-blue-500"
    ensures Lower(status) == Shipped <==> c == "bg-purple-500/10 text-purple-500"
    ensures Lower(status) == Delivered <==> c == "bg-green-500/10 text-green-500"
    ensures !IsKnownStatus(status) <==> c == GrayClasses
  {
    var s := Lower(status);
    if s == Pending then "bg-yellow-500/10 text-yellow-500"
    else if s == Processing then "bg-blue-500/10 text-blue-500"
    else if s == Shipped then "bg-purple-500/10 text-purple-500"
    else if s == Delivered then "bg-green-500/10 text-green-500"
    else GrayClasses
  }

  /** The badge icon; `processing` shares the package icon with unknown statuses. */
  function StatusIcon(status: string): (icon: Icon)
    ensures icon == Clock <==> Lower(status) == Pending
    ensures icon == Truck <==> Lower(status) == Shipped
    ensures icon == CheckCircle <==> Lower(status) == Delivered
    ensures icon == PackageIcon <==> Lower(status) == Processing || !IsKnownStatus(status)
  {
    var s := Lower(status);
    if s == Pending then Clock
    else if s == Shipped then Truck
    else if s == Delivered then CheckCircle
    else PackageIcon
  }

  /** The badge does not depend on the case the backend uses. */
  lemma BadgeIgnoresCase(status: string)
    ensures StatusColor(Upper(status)) == StatusColor(status)
    ensures StatusIcon(Upper(status)) == StatusIcon(status)
  {
    assert Lower(Upper(status)) == Lower(status);
  }

  /** A status the page does not know gets the gray badge with the package icon. */
  lemma UnknownStatusIsGrayPackage(status: string)
    requires !IsKnownStatus(status)
    ensures StatusColor(status) == GrayClasses && StatusIcon(status) == PackageIcon
  {
  }
}
