/**
 * The administrator's page of src/pages/AdminDashboard.tsx: loading the
 * three lists, the category and product forms with their checks, the
 * summary cards, and the order-status update with its busy row.
 */
module Admin {
  import opened Wrappers
  import opened Text
  import opened Seqs
  import opened Sorting
  import opened Records
  import opened Session

  /** A category as this page reads it; the description may be missing. */
  datatype AdminCategory = AdminCategory(id: int, name: string, description: Option<string>)

  /**
   * An order as this page reads it. `orderDate` is a timestamp, `None` when
   * the field is missing or empty; `totalAmount` is `None` when missing.
   */
  datatype AdminOrder = AdminOrder(
    id: int,
    userEmail: Option<string>,
    orderStatus: Option<string>,
    totalAmount: Option<int>,
    orderDate: Option<int>)

  /** The statuses offered in the order table's selector, in display order. */
  const StatusOptions: seq<string> := ["Processing", "Shipped", "Out for Delivery", "Delivered"]

  datatype State = State(
    categories: seq<AdminCategory>,
    products: seq<Product>,
    orders: seq<AdminOrder>,
    loading: bool,
    updatingOrderId: Option<int>)

  const Initial := State([], [], [], false, None)

  // ---------------------------------------------------------------------------
  // Loading
  // ---------------------------------------------------------------------------

  /** The comparator `b.id - a.id` sorts by the negated id. */
  function NegatedId(p: Product): int { -p.id }

  /** `orderDate ? time : 0`. */
  function DateOrZero(o: AdminOrder): int { o.orderDate.GetOr(0) }

  /** The comparator `tb - ta` sorts by the negated date-or-zero. */
  function NegatedDate(o: AdminOrder): int { -DateOrZero(o) }

  /** Highest id first; the same products, and products of equal id keep their order. */
  function NewestProductsFirst(products: seq<Product>): (r: seq<Product>)
    ensures |r| == |products| && multiset(r) == multiset(products)
    ensures forall i, j :: 0 <= i < j < |r| ==> r[i].id >= r[j].id
    ensures forall k :: WithKey(r, NegatedId, k) == WithKey(products, NegatedId, k)
  {
    var r := SortBy(products, NegatedId);
    assert forall i, j :: 0 <= i < j < |r| ==> NegatedId(r[i]) <= NegatedId(r[j]);
    r
  }

  /** Latest date first, a missing date counting as 0; orders of equal date keep their order. */
  function NewestOrdersFirst(orders: seq<AdminOrder>): (r: seq<AdminOrder>)
    ensures |r| == |orders| && multiset(r) == multiset(orders)
    ensures forall i, j :: 0 <= i < j < |r| ==> DateOrZero(r[i]) >= DateOrZero(r[j])
    ensures forall k :: WithKey(r, NegatedDate, k) == WithKey(orders, NegatedDate, k)
  {
    var r := SortBy(orders, NegatedDate);
    assert forall i, j :: 0 <= i < j < |r| ==> NegatedDate(r[i]) <= NegatedDate(r[j]);
    r
  }

  /** The three replies `Promise.all` delivers when every request succeeds. */
  datatype Replies = Replies(categories: Payload<AdminCategory>, products: Payload<Product>, orders: Payload<AdminOrder>)

  /**
   * `loadAll`. When any request fails (`None`) the lists stay as they were;
   * otherwise each reply that is not an array counts as an empty list, and
   * products and orders are sorted newest first. Loading ends either way.
   */
  function LoadAll(s: State, replies: Option<Replies>): (r: State)
    ensures !r.loading && r.updatingOrderId == s.updatingOrderId
    ensures replies.None? ==> r.categories == s.categories && r.products == s.products && r.orders == s.orders
    ensures replies.Some? ==> r.categories == ArrayOrEmpty(replies.value.categories)
    ensures replies.Some? ==> r.products == NewestProductsFirst(ArrayOrEmpty(replies.value.products))
    ensures replies.Some? ==> r.orders == NewestOrdersFirst(ArrayOrEmpty(replies.value.orders))
  {
    match replies
    case None => s.(loading := false)
    case Some(rs) =>
      State(ArrayOrEmpty(rs.categories), NewestProductsFirst(ArrayOrEmpty(rs.products)),
            NewestOrdersFirst(ArrayOrEmpty(rs.orders)), false, s.updatingOrderId)
  }

  /** A reply that is not an array empties its list, whatever the page showed before. */
  lemma NonArrayRepliesEmptyLists(s: State, rs: Replies)
    ensures var r := LoadAll(s, Some(rs));
      && (!rs.categories.JsonArray? ==> r.categories == [])
      && (!rs.products.JsonArray? ==> r.products == [])
      && (!rs.orders.JsonArray? ==> r.orders == [])
  {
  }

  /** The loaded tables hold exactly the products and orders the backend sent. */
  lemma LoadKeepsEveryRecord(s: State, rs: Replies)
    requires rs.products.JsonArray? && rs.orders.JsonArray?
    ensures var r := LoadAll(s, Some(rs));
      && (forall p :: p in r.products <==> p in rs.products.items)
      && (forall o :: o in r.orders <==> o in rs.orders.items)
  {
    var r := LoadAll(s, Some(rs));
    SameMultisetSameMembers(r.products, rs.products.items);
    SameMultisetSameMembers(r.orders, rs.orders.items);
  }

  /**
   * An order without a date sorts as if dated at the epoch: it comes after
   * every order dated later, and is followed only by orders dated at or
   * before the epoch.
   */
  lemma UndatedOrdersSortAsEpoch(orders: seq<AdminOrder>)
    ensures var r := NewestOrdersFirst(orders);
      forall i, j :: 0 <= i < j < |r| && r[i].orderDate.None? && r[j].orderDate.Some? ==> r[j].orderDate.value <= 0
    ensures var r := NewestOrdersFirst(orders);
      forall i, j :: 0 <= i < j < |r| && r[i].orderDate.Some? && r[j].orderDate.None? ==> r[i].orderDate.value >= 0
  {
    var r := NewestOrdersFirst(orders);
    forall i, j | 0 <= i < j < |r| && r[i].orderDate.None? && r[j].orderDate.Some?
      ensures r[j].orderDate.value <= 0
    {
      assert DateOrZero(r[i]) >= DateOrZero(r[j]);
    }
    forall i, j | 0 <= i < j < |r| && r[i].orderDate.Some? && r[j].orderDate.None?
      ensures r[i].orderDate.value >= 0
    {
      assert DateOrZero(r[i]) >= DateOrZero(r[j]);
    }
  }

  // ---------------------------------------------------------------------------
  // Summary cards and recent orders
  // ---------------------------------------------------------------------------

  /** `o.totalAmount || 0`. */
  function AmountOrZero(o: AdminOrder): int { o.totalAmount.GetOr(0) }

  /** The revenue card: every order's amount, a missing one counting as 0. */
  function Revenue(orders: seq<AdminOrder>): int {
    SumBy(orders, AmountOrZero)
  }

  /** Orders without an amount add nothing to the revenue. */
  lemma RevenueSkipsMissingAmounts(orders: seq<AdminOrder>, missing: seq<AdminOrder>)
    requires forall i :: 0 <= i < |missing| ==> missing[i].totalAmount.None?
    ensures Revenue(orders + missing) == Revenue(orders)
  {
    SumByAppend(orders, missing, AmountOrZero);
    MissingAmountsSumToZero(missing);
  }

  lemma {:induction false} MissingAmountsSumToZero(orders: seq<AdminOrder>)
    requires forall i :: 0 <= i < |orders| ==> orders[i].totalAmount.None?
    ensures Revenue(orders) == 0
    decreases |orders|
  {
    if |orders| > 0 {
      MissingAmountsSumToZero(orders[1..]);
    }
  }

  /** With no negative amount the revenue is at least any single order's amount. */
  lemma {:induction false} RevenueBoundsEachOrder(orders: seq<AdminOrder>, i: nat)
    requires forall j :: 0 <= j < |orders| ==> AmountOrZero(orders[j]) >= 0
    requires i < |orders|
    ensures Revenue(orders) >= AmountOrZero(orders[i])
    decreases |orders|
  {
    RevenueNonNegative(orders[1..]);
    if i > 0 {
      RevenueBoundsEachOrder(orders[1..], i - 1);
    }
  }

  lemma {:induction false} RevenueNonNegative(orders: seq<AdminOrder>)
    requires forall j :: 0 <= j < |orders| ==> AmountOrZero(orders[j]) >= 0
    ensures Revenue(orders) >= 0
    decreases |orders|
  {
    if |orders| > 0 {
      RevenueNonNegative(orders[1..]);
    }
  }

  /** The revenue shown after a load is the sum over the orders as sent: sorting does not change it. */
  lemma RevenueIgnoresSorting(s: State, rs: Replies)
    ensures Revenue(LoadAll(s, Some(rs)).orders) == Revenue(ArrayOrEmpty(rs.orders))
  {
    SumBySort(ArrayOrEmpty(rs.orders), NegatedDate, AmountOrZero);
  }

  /** The number of rows in the recent-orders table. */
  const RecentCount: nat := 8

  /** `orders.slice(0, 8)`: the first rows of the sorted list. */
  function Recent(orders: seq<AdminOrder>): (r: seq<AdminOrder>)
    ensures |r| == Min(RecentCount, |orders|)
    ensures forall i :: 0 <= i < |r| ==> r[i] == orders[i]
  {
    Take(orders, RecentCount)
  }

  /** After a load no order left out of the recent table is newer than one in it. */
  lemma RecentAreNewest(s: State, rs: Replies)
    ensures var orders := LoadAll(s, Some(rs)).orders;
      forall i, j :: 0 <= i < |Recent(orders)| <= j < |orders| ==> DateOrZero(orders[i]) >= DateOrZero(orders[j])
  {
  }

  // ---------------------------------------------------------------------------
  // Requests the forms and buttons send
  // ---------------------------------------------------------------------------

  /**
   * A request to the backend. `bearer` is the Authorization value the
   * product form attaches itself, besides the one the client adds.
   */
  datatype AdminRequest =
    | PostCategory(name: string, description: string)
    | PutCategory(id: int, name: string, description: string)
    | DeleteCategory(id: int)
    | PostProduct(name: string, price: string, categoryId: string, image: Option<string>, bearer: Option<string>)
    | PutProduct(id: int, name: string, price: string, categoryId: string, image: Option<string>, bearer: Option<string>)
    | DeleteProduct(id: int)
    | PutOrderStatus(orderId: int, status: string)

  /** The category dialog's fields and the category being edited, if any. */
  datatype CategoryForm = CategoryForm(editing: Option<AdminCategory>, name: string, description: string)

  const NewCategoryForm := CategoryForm(None, "", "")

  /** "Edit" on a category row: the fields start from the category, a missing description as empty. */
  function EditCategory(c: AdminCategory): (f: CategoryForm)
    ensures f.editing == Some(c) && f.name == c.name
    ensures f.description == (if c.description.Some? then c.description.value else "")
  {
    CategoryForm(Some(c), c.name, c.description.GetOr(""))
  }

  /**
   * `submitCategory`: a name that is blank after trimming sends nothing.
   * Editing a category with a non-zero id tries a PUT; otherwise a POST.
   * The name goes out as typed, untrimmed.
   */
  function SubmitCategory(f: CategoryForm): (r: Option<AdminRequest>)
    ensures r.None? <==> Trim(f.name) == ""
    ensures r.Some? && f.editing.Some? && f.editing.value.id != 0 ==> r.value == PutCategory(f.editing.value.id, f.name, f.description)
    ensures r.Some? && !(f.editing.Some? && f.editing.value.id != 0) ==> r.value == PostCategory(f.name, f.description)
  {
    if Trim(f.name) == "" then None
    else if f.editing.Some? && f.editing.value.id != 0 then Some(PutCategory(f.editing.value.id, f.name, f.description))
    else Some(PostCategory(f.name, f.description))
  }

  /** A name of blanks only, however long, is refused: only a non-space character makes it valid. */
  lemma BlankCategoryRefused(f: CategoryForm)
    ensures SubmitCategory(f).None? <==> forall i :: 0 <= i < |f.name| ==> IsSpace(f.name[i])
  {
    BlankIffAllSpace(f.name);
  }

  /** Editing a category and saving it unchanged sends its own fields back to it. */
  lemma EditCategoryRoundTrip(c: AdminCategory)
    requires Trim(c.name) != "" && c.id != 0
    ensures SubmitCategory(EditCategory(c)) == Some(PutCategory(c.id, c.name, c.description.GetOr("")))
  {
  }

  /** The product dialog's fields: price and category id are the text the inputs hold. */
  datatype ProductForm = ProductForm(editing: Option<Product>, name: string, price: string, categoryId: string, image: Option<string>)

  const NewProductForm := ProductForm(None, "", "", "", None)

  /**
   * "Edit" on a product row. A zero price and a missing or zero category id
   * are falsy and leave their fields empty; the image is never preset.
   */
  function EditProduct(p: Product): (f: ProductForm)
    ensures f.editing == Some(p) && f.name == p.name && f.image.None?
    ensures f.price == "" <==> p.price == 0
    ensures f.price != "" ==> IsDecimal(f.price) && ParseInt(f.price) == p.price
    ensures f.categoryId == "" <==> p.category.None? || p.category.value.id == 0
    ensures f.categoryId != "" ==> IsDecimal(f.categoryId) && ParseInt(f.categoryId) == p.category.value.id
  {
    ParseIntToString(p.price);
    var price := if p.price != 0 then IntToString(p.price) else "";
    var categoryId := if p.category.Some? && p.category.value.id != 0 then
      ParseIntToString(p.category.value.id); IntToString(p.category.value.id)
    else "";
    ProductForm(Some(p), p.name, price, categoryId, None)
  }

  /** The form is incomplete: blank name, empty price or empty category id. */
  predicate ProductIncomplete(f: ProductForm) {
    Trim(f.name) == "" || f.price == "" || f.categoryId == ""
  }

  /**
   * `submitProduct`: an incomplete form sends nothing. The stored token, when
   * non-empty, is attached as a bearer. Editing a product with a non-zero id
   * tries a PUT; otherwise a POST.
   */
  function SubmitProduct(f: ProductForm, storage: Storage): (r: Option<AdminRequest>)
    ensures r.None? <==> ProductIncomplete(f)
    ensures r.Some? ==> r.value.PutProduct? || r.value.PostProduct?
    ensures r.Some? && (r.value.PutProduct? || r.value.PostProduct?) ==>
      r.value.name == f.name && r.value.price == f.price && r.value.categoryId == f.categoryId &&
      r.value.image == f.image && r.value.bearer == StoredToken(storage)
    ensures r.Some? ==> (r.value.PutProduct? <==> f.editing.Some? && f.editing.value.id != 0)
    ensures r.Some? && r.value.PutProduct? ==> r.value.id == f.editing.value.id
  {
    if ProductIncomplete(f) then None
    else
      var bearer := StoredToken(storage);
      if f.editing.Some? && f.editing.value.id != 0 then
        Some(PutProduct(f.editing.value.id, f.name, f.price, f.categoryId, f.image, bearer))
      else Some(PostProduct(f.name, f.price, f.categoryId, f.image, bearer))
  }

  /** Editing a complete product and saving it unchanged sends its own name, price and category back to it. */
  lemma EditProductRoundTrip(p: Product, storage: Storage)
    requires Trim(p.name) != "" && p.price != 0 && p.id != 0
    requires p.category.Some? && p.category.value.id != 0
    ensures var r := SubmitProduct(EditProduct(p), storage);
      && r.Some? && r.value.PutProduct? && r.value.id == p.id && r.value.name == p.name
      && ParseInt(r.value.price) == p.price && ParseInt(r.value.categoryId) == p.category.value.id
  {
  }

  /** A product priced 0, or without a category, cannot be saved from its edit form until the empty field is filled in. */
  lemma FalsyFieldsBlockEdit(p: Product, storage: Storage)
    requires p.price == 0 || p.category.None? || p.category.value.id == 0
    ensures SubmitProduct(EditProduct(p), storage).None?
  {
  }

  /** The delete buttons: nothing is sent unless the confirmation is accepted. */
  function DeleteCategoryRequest(id: int, confirmed: bool): (r: Option<AdminRequest>)
    ensures r.Some? <==> confirmed
    ensures r.Some? ==> r.value.DeleteCategory? && r.value.id == id
  {
    if confirmed then Some(DeleteCategory(id)) else None
  }

  function DeleteProductRequest(id: int, confirmed: bool): (r: Option<AdminRequest>)
    ensures r.Some? <==> confirmed
    ensures r.Some? ==> r.value.DeleteProduct? && r.value.id == id
  {
    if confirmed then Some(DeleteProduct(id)) else None
  }

  // ---------------------------------------------------------------------------
  // Order status update
  // ---------------------------------------------------------------------------

  /** The status selector of an order row is disabled while that order is being updated. */
  function RowDisabled(s: State, orderId: int): (disabled: bool)
    ensures disabled <==> s.updatingOrderId == Some(orderId)
  {
    s.updatingOrderId == Some(orderId)
  }

  /** The request, the page while it is in flight, and the page once it has settled. */
  datatype StatusRun = StatusRun(request: AdminRequest, during: State, after: State)

  /**
   * `updateOrderStatus`. The order is marked busy, the PUT is sent; when it
   * succeeds (`accepted`) the lists reload from `reload`; either way the
   * busy mark is cleared at the end.
   */
  function UpdateOrderStatus(s: State, orderId: int, status: string, accepted: bool, reload: Option<Replies>): (r: StatusRun)
    ensures r.request == PutOrderStatus(orderId, status)
    ensures r.during.updatingOrderId == Some(orderId)
    ensures r.after.updatingOrderId.None?
    ensures accepted ==> r.after == LoadAll(s, reload).(updatingOrderId := None)
    ensures !accepted ==> r.after == s.(updatingOrderId := None)
  {
    var during := s.(updatingOrderId := Some(orderId));
    var settled := if accepted then LoadAll(during, reload) else during;
    StatusRun(PutOrderStatus(orderId, status), during, settled.(updatingOrderId := None))
  }

  /** While a status update runs only that order's row is disabled; once it settles no row is, whatever the outcome. */
  lemma BusyRowClearsAfterUpdate(s: State, orderId: int, status: string, accepted: bool, reload: Option<Replies>, other: int)
    ensures var r := UpdateOrderStatus(s, orderId, status, accepted, reload);
      && RowDisabled(r.during, orderId)
      && (other != orderId ==> !RowDisabled(r.during, other))
      && !RowDisabled(r.after, other)
  {
  }
}
