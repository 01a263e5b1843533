/**
 * The wishlist as two pages keep it: the heart button of
 * src/pages/ProductDetail.tsx toggles a product in or out, and
 * src/pages/Wishlist.tsx removes entries and adds them to the cart. Both
 * keep the list in storage under `wishlist`, read once on mount.
 */
module Wishlist {
  import opened Wrappers
  import opened Text
  import opened Seqs
  import opened Records

  /** `wishlist.some(item => item.id === id)`. */
  predicate HasId(list: seq<Product>, id: int) {
    exists i :: 0 <= i < |list| && list[i].id == id
  }

  function OtherThan(id: int): Product -> bool {
    (p: Product) => p.id != id
  }

  /** `list.filter(item => item.id !== id)`: every entry with that id goes, the rest keep their order. */
  function WithoutId(list: seq<Product>, id: int): (r: seq<Product>)
    ensures !HasId(r, id)
    ensures forall i :: 0 <= i < |list| && list[i].id != id ==> list[i] in r
    ensures forall i :: 0 <= i < |r| ==> r[i] in list
    ensures IsSubsequence(r, list)
    ensures forall q :: multiset(r)[q] == if q.id != id then multiset(list)[q] else 0
  {
    Filter(list, OtherThan(id))
  }

  /** The heart button: remove every entry with the product's id if there is one, else append the product. */
  function Toggle(list: seq<Product>, product: Product): (r: seq<Product>)
    ensures HasId(r, product.id) <==> !HasId(list, product.id)
    ensures HasId(r, product.id) ==> r == list + [product]
    ensures forall i :: 0 <= i < |list| && list[i].id != product.id ==> list[i] in r
    ensures forall i :: 0 <= i < |r| && r[i].id != product.id ==> r[i] in list
    ensures HasId(list, product.id) ==>
      && IsSubsequence(r, list)
      && forall q :: multiset(r)[q] == if q.id != product.id then multiset(list)[q] else 0
  {
    if HasId(list, product.id) then WithoutId(list, product.id)
    else
      assert (list + [product])[|list|].id == product.id;
      list + [product]
  }

  /** Saving a product that was not there and then unsaving it restores the list exactly. */
  lemma ToggleTwiceRestores(list: seq<Product>, product: Product)
    requires !HasId(list, product.id)
    ensures Toggle(Toggle(list, product), product) == list
  {
    FilterAppend(list, [product], OtherThan(product.id));
    FilterAllPass(list, OtherThan(product.id));
  }

  /** Removing twice is removing once. */
  lemma RemoveIdempotent(list: seq<Product>, id: int)
    ensures WithoutId(WithoutId(list, id), id) == WithoutId(list, id)
  {
    FilterIdempotent(list, OtherThan(id));
  }

  /** A new list, and what the handler wrote under `wishlist` (`None`: nothing written). */
  datatype Update = Update(list: seq<Product>, persisted: Option<seq<Product>>)

  /** The detail page's handler; before the product has loaded it does nothing. */
  function HandleWishlist(product: Option<Product>, list: seq<Product>): (r: Update)
    ensures product.None? ==> r == Update(list, None)
    ensures product.Some? ==> r.persisted == Some(r.list) && r.list == Toggle(list, product.value)
  {
    match product
    case None => Update(list, None)
    case Some(p) =>
      var next := Toggle(list, p);
      Update(next, Some(next))
  }

  /** The heart is filled when some entry has the shown product's id; with no product it is not. */
  function IsInWishlist(list: seq<Product>, product: Option<Product>): (filled: bool)
    ensures filled <==> product.Some? && HasId(list, product.value.id)
  {
    product.Some? && HasId(list, product.value.id)
  }

  /** Pressing the heart flips it. */
  lemma HeartFlips(list: seq<Product>, product: Product)
    ensures IsInWishlist(HandleWishlist(Some(product), list).list, Some(product)) == !IsInWishlist(list, Some(product))
  {
  }

  /** The mount effect: a stored list, when there is one, replaces the state. */
  function Restore(stored: Option<seq<Product>>, current: seq<Product>): (r: seq<Product>)
    ensures stored.Some? ==> r == stored.value
    ensures stored.None? ==> r == current
  {
    stored.GetOr(current)
  }

  /** What a handler persisted is what the next visit to either page starts from. */
  lemma ReloadSeesUpdate(u: Update, current: seq<Product>)
    requires u.persisted == Some(u.list)
    ensures Restore(u.persisted, current) == u.list
  {
  }

  /** The wishlist page's remove button: drop the id and persist. */
  function HandleRemove(list: seq<Product>, id: int): (r: Update)
    ensures r.persisted == Some(r.list)
    ensures !HasId(r.list, id)
    ensures forall i :: 0 <= i < |list| && list[i].id != id ==> list[i] in r.list
    ensures forall i :: 0 <= i < |r.list| ==> r.list[i] in list
    ensures IsSubsequence(r.list, list)
    ensures forall q :: multiset(r.list)[q] == if q.id != id then multiset(list)[q] else 0
  {
    var next := WithoutId(list, id);
    Update(next, Some(next))
  }

  /** On a saved product the two pages agree: removing on the wishlist page is toggling on the detail page. */
  lemma RemoveAgreesWithToggle(list: seq<Product>, product: Product)
    requires HasId(list, product.id)
    ensures HandleRemove(list, product.id) == HandleWishlist(Some(product), list)
  {
  }

  /** The wishlist page builds image URLs from this fixed prefix, not from the configured image base. */
  const WishlistImagePrefix: string := "http://localhost:8080/uploads/images/"

  /** The wishlist page's add-to-cart: one call with the id as decimal text. */
  function HandleAddToCart(product: Product): (calls: seq<Call>)
    ensures |calls| == 1 && calls[0].AddToCart?
    ensures var item := calls[0].item;
      IsDecimal(item.id) && ParseInt(item.id) == product.id && item.name == product.name && item.price == product.price &&
      item.image == WishlistImagePrefix + product.image
  {
    ParseIntToString(product.id);
    [AddToCart(CartItem(IntToString(product.id), product.name, product.price, WishlistImagePrefix + product.image))]
  }
}
