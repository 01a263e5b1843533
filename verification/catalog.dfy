/**
 * The product listing of src/pages/Products.tsx: loading the catalogue, the
 * category taken from the URL, and the filtered and sorted list the grid
 * shows.
 */
module Catalog {
  import opened Wrappers
  import opened Text
  import opened Seqs
  import opened Sorting
  import opened Records

  /** The category selection that means no category filter. */
  const AllCategories: string := "all"

  /** The name contains the query, both lower-cased. */
  function MatchesSearch(p: Product, query: string): (matches: bool)
    ensures query == "" ==> matches
    ensures matches ==> |query| <= |p.name|
  {
    var matches := Contains(Lower(p.name), Lower(query));
    ContainsEmpty(Lower(p.name));
    if matches then ContainedCharacters(Lower(p.name), Lower(query)); matches else matches
  }

  /** The stretch of `name` starting at `i` equals `query` up to ASCII case. */
  predicate NameMatchesAt(name: string, query: string, i: nat) {
    i + |query| <= |name| && Lower(name[i..i + |query|]) == Lower(query)
  }

  /**
   * The search as text: a product matches exactly when some stretch of its
   * name equals the query up to ASCII case.
   */
  lemma MatchesSearchIffSubstring(p: Product, query: string)
    ensures MatchesSearch(p, query) <==> exists i: nat :: NameMatchesAt(p.name, query, i)
  {
    var low := Lower(p.name);
    if MatchesSearch(p, query) {
      var i: nat :| i <= |low| && OccursAt(low, Lower(query), i);
      LowerSlice(p.name, i, i + |query|);
      assert NameMatchesAt(p.name, query, i);
    }
    if i: nat :| NameMatchesAt(p.name, query, i) {
      LowerSlice(p.name, i, i + |query|);
      assert OccursAt(low, Lower(query), i);
    }
  }

  /** `"all"`, or the decimal text of the product's category id; a product without a category matches only `"all"`. */
  function MatchesCategory(p: Product, selected: string): (matches: bool)
    ensures selected == AllCategories ==> matches
    ensures p.category.None? ==> (matches <==> selected == AllCategories)
    ensures matches && selected != AllCategories ==>
      p.category.Some? && selected == IntToString(p.category.value.id)
    ensures matches && selected != AllCategories ==>
      IsDecimal(selected) && ParseInt(selected) == p.category.value.id
  {
    if selected == AllCategories then true
    else if p.category.Some? && IntToString(p.category.value.id) == selected then
      ParseIntToString(p.category.value.id);
      true
    else false
  }

  function Visible(query: string, selected: string): Product -> bool {
    p => MatchesSearch(p, query) && MatchesCategory(p, selected)
  }

  function Price(p: Product): int { p.price }

  /** Sorting by `b.price - a.price` is sorting by the negated price. */
  function NegatedPrice(p: Product): int { -p.price }

  /** The sort step alone: a stable sort by price for `price-low` and `price-high`, the given order otherwise. */
  function ApplySort(kept: seq<Product>, sortBy: string): (r: seq<Product>)
    ensures multiset(r) == multiset(kept)
    ensures sortBy == "price-low" ==> r == SortBy(kept, Price) && forall i, j :: 0 <= i < j < |r| ==> r[i].price <= r[j].price
    ensures sortBy == "price-high" ==> r == SortBy(kept, NegatedPrice) && forall i, j :: 0 <= i < j < |r| ==> r[i].price >= r[j].price
    ensures sortBy != "price-low" && sortBy != "price-high" ==> r == kept
  {
    if sortBy == "price-low" then SortBy(kept, Price)
    else if sortBy == "price-high" then
      var r := SortBy(kept, NegatedPrice);
      assert forall i, j :: 0 <= i < j < |r| ==> NegatedPrice(r[i]) <= NegatedPrice(r[j]);
      r
    else kept
  }

  /**
   * The grid's list: the products passing both filters, then, for
   * `price-low` or `price-high`, a stable sort by price; any other choice
   * keeps the backend's order.
   */
  function FilteredProducts(products: seq<Product>, query: string, selected: string, sortBy: string): (r: seq<Product>)
    ensures forall i :: 0 <= i < |r| ==> r[i] in products && MatchesSearch(r[i], query) && MatchesCategory(r[i], selected)
    ensures forall i :: 0 <= i < |products| && MatchesSearch(products[i], query) && MatchesCategory(products[i], selected) ==>
      products[i] in r
    ensures multiset(r) == multiset(Filter(products, Visible(query, selected)))
    ensures sortBy == "price-low" ==> forall i, j :: 0 <= i < j < |r| ==> r[i].price <= r[j].price
    ensures sortBy == "price-high" ==> forall i, j :: 0 <= i < j < |r| ==> r[i].price >= r[j].price
    ensures sortBy != "price-low" && sortBy != "price-high" ==> IsSubsequence(r, products)
  {
    var kept := Filter(products, Visible(query, selected));
    var r := ApplySort(kept, sortBy);
    ReorderedFilterMembers(products, Visible(query, selected), r);
    r
  }

  /** Products of equal price keep their backend order under either price sort. */
  lemma PriceSortIsStable(products: seq<Product>, query: string, selected: string, price: int)
    ensures var kept := Filter(products, Visible(query, selected));
      WithKey(FilteredProducts(products, query, selected, "price-low"), Price, price) == WithKey(kept, Price, price) &&
      WithKey(FilteredProducts(products, query, selected, "price-high"), NegatedPrice, -price) ==
        WithKey(kept, NegatedPrice, -price)
  {
  }

  /** The stable sort with the comparator that answers 0 agrees with keeping the filtered order. */
  lemma FeaturedKeepsOrder(products: seq<Product>, query: string, selected: string)
    ensures FilteredProducts(products, query, selected, "featured") ==
            SortBy(Filter(products, Visible(query, selected)), (p: Product) => 0)
  {
    SortByEqualKeys(Filter(products, Visible(query, selected)), (p: Product) => 0, 0);
  }

  /** With the page's initial state (no query, every category, featured) the grid shows the whole catalogue. */
  lemma InitialStateShowsAll(products: seq<Product>)
    ensures FilteredProducts(products, "", AllCategories, "featured") == products
  {
    forall i | 0 <= i < |products| ensures Visible("", AllCategories)(products[i]) {
      ContainsEmpty(Lower(products[i].name));
    }
    FilterAllPass(products, Visible("", AllCategories));
  }

  /** Selecting the decimal text of a category id keeps exactly that category's products. */
  lemma SelectingCategoryId(p: Product, k: int)
    ensures MatchesCategory(p, IntToString(k)) <==> p.category.Some? && p.category.value.id == k
  {
    assert IntToString(k) != AllCategories by {
      assert IntToString(k)[0] == '-' || IsDigit(IntToString(k)[0]);
    }
    if p.category.Some? {
      IntToStringInjective(p.category.value.id, k);
    }
  }

  /** Search ignores ASCII case on both sides. */
  lemma SearchIgnoresCase(p: Product, query: string)
    ensures MatchesSearch(p, query) <==> MatchesSearch(p, Upper(query))
    ensures MatchesSearch(p, query) <==> MatchesSearch(p.(name := Lower(p.name)), query)
  {
    assert Lower(Upper(query)) == Lower(query);
    LowerIdempotent(p.name);
  }

  // ---------------------------------------------------------------------------
  // Loading
  // ---------------------------------------------------------------------------

  /** What the page holds: the lists and the category selection. */
  datatype State = State(products: seq<Product>, categories: seq<Category>, selected: string, loading: bool)

  const Initial := State([], [], AllCategories, true)

  /**
   * The mount fetch: products, then categories (either request may fail).
   * Products are stored before the category payload is read, so a null
   * category payload still leaves the products in place. The fetch runs in
   * a closure made on the first render, so it sees the selection as `all`
   * and the URL's category as it was at mount (`mountUrl`): once both
   * requests succeed, a non-empty mount-time category replaces whatever the
   * selection has become in the meantime.
   */
  function Load(s: State, products: Option<Payload<Product>>, categories: Option<Payload<Category>>,
                mountUrl: Option<string>): (r: State)
    ensures !r.loading
    ensures products.None? || categories.None? ==> r == s.(loading := false)
    ensures products.Some? && categories.Some? ==> r.products == ArrayOrEmpty(products.value)
    ensures r.categories == (if products.Some? && categories.Some? && ArrayOrContent(categories.value).Some?
                             then ArrayOrContent(categories.value).value else s.categories)
    ensures (products.Some? && categories.Some? && ArrayOrContent(categories.value).Some? &&
             mountUrl.Some? && mountUrl.value != "") ==> r.selected == mountUrl.value
    ensures r.selected != s.selected ==> mountUrl.Some? && mountUrl.value != "" && r.selected == mountUrl.value
  {
    if products.None? || categories.None? then s.(loading := false)
    else
      var s1 := s.(products := ArrayOrEmpty(products.value));
      match ArrayOrContent(categories.value)
      case None => s1.(loading := false)
      case Some(cats) =>
        // `selectedCategory === "all"` reads the first render's state, which is always `all`.
        var selected := if mountUrl.Some? && mountUrl.value != "" then mountUrl.value else s.selected;
        s1.(categories := cats, selected := selected, loading := false)
  }

  /** The URL-sync effect: a non-empty `category` query parameter replaces the selection. */
  function SyncFromUrl(s: State, fromUrl: Option<string>): (r: State)
    ensures fromUrl.Some? && fromUrl.value != "" ==> r.selected == fromUrl.value
    ensures !(fromUrl.Some? && fromUrl.value != "") ==> r == s
    ensures r.products == s.products && r.categories == s.categories && r.loading == s.loading
  {
    if fromUrl.Some? && fromUrl.value != "" then s.(selected := fromUrl.value) else s
  }

  /**
   * Starting from the initial state, the URL sync and a completed load
   * agree on the selection whichever finishes first, while the URL stays
   * what it was at mount.
   */
  lemma UrlSelectionOrderIndependent(products: Option<Payload<Product>>, categories: Option<Payload<Category>>,
                                     fromUrl: Option<string>)
    ensures Load(SyncFromUrl(Initial, fromUrl), products, categories, fromUrl).selected ==
            SyncFromUrl(Load(Initial, products, categories, fromUrl), fromUrl).selected
  {
  }

  /**
   * When the URL's category changes (`?category=2` to `?category=5`, or a
   * choice in the dropdown) before the mount fetch settles, the fetch puts
   * the mount-time category back: the page ends on `2`, not on the newer
   * choice.
   */
  lemma StaleMountCategoryWins(products: seq<Product>, categories: seq<Category>, mountUrl: string, later: string)
    requires mountUrl != "" && later != ""
    ensures var synced := SyncFromUrl(SyncFromUrl(Initial, Some(mountUrl)), Some(later));
      && synced.selected == later
      && Load(synced, Some(JsonArray(products)), Some(JsonArray(categories)), Some(mountUrl)).selected == mountUrl
  {
  }
}
