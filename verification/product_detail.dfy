/**
 * The product page of src/pages/ProductDetail.tsx: the quantity stepper,
 * adding the chosen quantity to the cart, and "buy now". The wishlist
 * button is in the Wishlist module.
 */
module ProductDetail {
  import opened Wrappers
  import opened Text
  import opened Records

  /** The stepper's minus button: `Math.max(1, quantity - 1)`. */
  function Decrement(quantity: int): (r: int)
    ensures r >= 1
    ensures quantity >= 2 ==> r == quantity - 1
    ensures quantity <= 2 ==> r == 1
  {
    if quantity - 1 > 1 then quantity - 1 else 1
  }

  /** The stepper's plus button: no upper bound. */
  function Increment(quantity: int): (r: int)
    ensures r == quantity + 1
  {
    quantity + 1
  }

  /** A press of the stepper: `true` is plus, `false` is minus. */
  function Press(quantity: int, presses: seq<bool>): int
    decreases |presses|
  {
    if |presses| == 0 then quantity
    else Press(if presses[0] then Increment(quantity) else Decrement(quantity), presses[1..])
  }

  /** From any quantity of at least 1 (the page starts at 1) no sequence of presses goes below 1, and each press adds at most 1. */
  lemma {:induction false} StepperStaysPositive(quantity: int, presses: seq<bool>)
    requires quantity >= 1
    ensures Press(quantity, presses) >= 1
    ensures Press(quantity, presses) <= quantity + |presses|
    decreases |presses|
  {
    if |presses| > 0 {
      var next := if presses[0] then Increment(quantity) else Decrement(quantity);
      StepperStaysPositive(next, presses[1..]);
    }
  }

  /** The cart entry the page builds: the id as decimal text and the image under the configured base. */
  function ItemOf(product: Product, imageBase: string): (item: CartItem)
    ensures IsDecimal(item.id) && ParseInt(item.id) == product.id
    ensures item.name == product.name && item.price == product.price
    ensures item.image == imageBase + "/" + product.image
  {
    ParseIntToString(product.id);
    CartItem(IntToString(product.id), product.name, product.price, imageBase + "/" + product.image)
  }

  /**
   * `handleAddToCart`: with no product nothing happens; otherwise one
   * `addToCart` call per unit of `quantity`, each with the same entry (the
   * cart store merges them into one line).
   */
  method HandleAddToCart(product: Option<Product>, quantity: int, imageBase: string) returns (calls: seq<Call>)
    ensures product.None? ==> calls == []
    ensures product.Some? ==> |calls| == (if quantity > 0 then quantity else 0)
    ensures product.Some? ==> forall i :: 0 <= i < |calls| ==> calls[i] == AddToCart(ItemOf(product.value, imageBase))
    ensures product.Some? && quantity > 0 ==> CountOf(calls, AddToCart(ItemOf(product.value, imageBase))) == quantity
  {
    calls := [];
    if product.None? {
      return;
    }
    var item := ItemOf(product.value, imageBase);
    var i := 0;
    while i < quantity
      invariant 0 <= i <= (if quantity > 0 then quantity else 0)
      invariant |calls| == i
      invariant forall j :: 0 <= j < |calls| ==> calls[j] == AddToCart(item)
    {
      calls := calls + [AddToCart(item)];
      i := i + 1;
    }
    CountOfConstant(calls, AddToCart(item));
  }

  /** Counting an element every position holds counts the whole sequence. */
  lemma {:induction false} CountOfConstant(calls: seq<Call>, c: Call)
    requires forall j :: 0 <= j < |calls| ==> calls[j] == c
    ensures CountOf(calls, c) == |calls|
    decreases |calls|
  {
    if |calls| > 0 {
      CountOfConstant(calls[1..], c);
    }
  }

  /** "Buy now": add to the cart as above, then go to `/cart` (even when no product has loaded). */
  method HandleBuyNow(product: Option<Product>, quantity: int, imageBase: string) returns (calls: seq<Call>)
    ensures |calls| > 0 && calls[|calls| - 1] == Navigate("/cart", false)
    ensures product.None? ==> calls == [Navigate("/cart", false)]
    ensures product.Some? && quantity > 0 ==>
      |calls| == quantity + 1 && forall i :: 0 <= i < quantity ==> calls[i] == AddToCart(ItemOf(product.value, imageBase))
    ensures product.Some? && quantity <= 0 ==> calls == [Navigate("/cart", false)]
  {
    var added := HandleAddToCart(product, quantity, imageBase);
    calls := added + [Navigate("/cart", false)];
  }
}
