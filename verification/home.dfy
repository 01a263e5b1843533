/**
 * The landing page of src/pages/Home.tsx: three requests fetched together,
 * category cards annotated with product counts matched by name, and the
 * first few products as the featured row.
 */
module Home {
  import opened Wrappers
  import opened Text
  import opened Seqs
  import opened Records

  /** An entry of the product-count endpoint. */
  datatype CountEntry = CountEntry(name: string, productCount: int)

  /** A category with the count merged in; the category's own fields are kept whole. */
  datatype CategoryCard = CategoryCard(category: Category, productCount: int)

  /** Names are compared lower-cased and trimmed: the key is the lower-cased name with its white-space ends cut off. */
  function NameKey(name: string): (key: string)
    ensures exists i: nat :: TrimmedAt(key, Lower(name), i)
    ensures forall i :: 0 <= i < |key| ==> !IsUpperAscii(key[i])
    ensures |key| > 0 ==> !IsSpace(key[0]) && !IsSpace(key[|key| - 1])
    ensures |key| <= |name|
  {
    TrimmedLowerHasNoUpper(name);
    Trim(Lower(name))
  }

  /** Trimming keeps only characters of the lower-cased name, so no upper-case letter comes back. */
  lemma TrimmedLowerHasNoUpper(name: string)
    ensures |Trim(Lower(name))| <= |name|
    ensures forall i :: 0 <= i < |Trim(Lower(name))| ==> !IsUpperAscii(Trim(Lower(name))[i])
  {
    var low := Lower(name);
    var key := Trim(low);
    ContainedCharacters(low, key);
    forall i | 0 <= i < |key| ensures !IsUpperAscii(key[i]) {
      var j :| 0 <= j < |low| && low[j] == key[i];
    }
  }

  function HasKey(key: string): CountEntry -> bool {
    (e: CountEntry) => NameKey(e.name) == key
  }

  /** The index of the count entry `find` returns: the first whose name has the key `key`. */
  function FindCount(counts: seq<CountEntry>, key: string): (r: Option<nat>)
    ensures r.Some? ==> r.value < |counts| && NameKey(counts[r.value].name) == key
    ensures r.Some? ==> forall j :: 0 <= j < r.value ==> NameKey(counts[j].name) != key
    ensures r.None? <==> forall j :: 0 <= j < |counts| ==> NameKey(counts[j].name) != key
  {
    FindFirst(counts, HasKey(key))
  }

  /** Each category in order, with the first matching entry's count, or 0 when none matches. */
  function Merge(categories: seq<Category>, counts: seq<CountEntry>): (r: seq<CategoryCard>)
    ensures |r| == |categories|
    ensures forall i :: 0 <= i < |r| ==> r[i].category == categories[i]
    ensures forall i :: 0 <= i < |r| ==>
      r[i].productCount == (match FindCount(counts, NameKey(categories[i].name))
                            case None => 0
                            case Some(j) => counts[j].productCount)
  {
    seq(|categories|, i requires 0 <= i < |categories| =>
      var found := FindCount(counts, NameKey(categories[i].name));
      CategoryCard(categories[i], if found.Some? then counts[found.value].productCount else 0))
  }

  /** A count whose name differs from the category's only in ASCII case and surrounding blanks still matches. */
  lemma CountMatchesDespiteCaseAndPadding(c: Category, count: int, pad: string)
    requires forall i :: 0 <= i < |pad| ==> pad[i] == ' '
    ensures Merge([c], [CountEntry(pad + Upper(c.name) + pad, count)])[0].productCount == count
  {
    var n := pad + Upper(c.name) + pad;
    var m := Lower(n);
    assert Lower(Upper(c.name)) == Lower(c.name);
    assert m == pad + Lower(c.name) + pad by {
      assert forall i :: 0 <= i < |pad| ==> LowerChar(pad[i]) == pad[i];
    }
    TrimSurroundingSpace(pad, Lower(c.name), pad);
  }

  /** When counts arrive as something other than an array, every card counts 0. */
  lemma NoCountsMeansZero(categories: seq<Category>)
    ensures forall i :: 0 <= i < |categories| ==> Merge(categories, [])[i] == CategoryCard(categories[i], 0)
  {
  }

  /** The number of featured products. */
  const FeaturedCount: nat := 4

  /** What the page holds after its fetch. */
  datatype State = State(categories: seq<CategoryCard>, featured: seq<Product>, error: bool, loading: bool)

  /**
   * The mount fetch. `Promise.all` fails if any request fails (`None`);
   * a null category payload throws too. Either way the page shows its
   * error and keeps empty lists.
   */
  function Load(categories: Option<Payload<Category>>, products: Option<Payload<Product>>,
                counts: Option<Payload<CountEntry>>): (r: State)
    ensures !r.loading
    ensures r.error <==> categories.None? || products.None? || counts.None? || categories.value.JsonNull?
    ensures r.error ==> r.categories == [] && r.featured == []
    ensures !r.error ==> r.categories == Merge(ArrayOrContent(categories.value).value, ArrayOrEmpty(counts.value))
    ensures !r.error ==> |r.featured| == Min(FeaturedCount, |ArrayOrEmpty(products.value)|)
    ensures !r.error ==> forall i :: 0 <= i < |r.featured| ==> r.featured[i] == products.value.items[i]
  {
    if categories.None? || products.None? || counts.None? then State([], [], true, false)
    else
      match ArrayOrContent(categories.value)
      case None => State([], [], true, false)
      case Some(cats) =>
        State(Merge(cats, ArrayOrEmpty(counts.value)), Take(ArrayOrEmpty(products.value), FeaturedCount), false, false)
  }
}
