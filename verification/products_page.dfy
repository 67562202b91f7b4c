/**
 * The product listing page: the filter record, the pipeline that derives the
 * visible list from the products, the filters, the search term and the sort
 * key, the editors of the filter record and the option lists the filter
 * panel offers.
 */
module ProductsPage {

  import opened Text
  import opened Sequences
  import opened Sorting
  import opened Catalog

  /** The listing's filter record; `priceRange` is `[min, max]` in cents. */
  datatype Filters = Filters(
    category: seq<string>,
    collection: seq<string>,
    priceRange: (int, int),
    sizes: seq<string>,
    colors: seq<string>,
    tags: seq<string>,
    inStock: bool)

  /** The filter record the page starts with, and that "clear filters" restores. */
  const InitialFilters: Filters :=
    Filters([], [], (0, 300 * Cents), [], [], [], false)

  // ---------------------------------------------------------------------
  // The filter stages. Each `...Hit` is the callback one `filter` call of
  // the pipeline applies; each `...Ok` adds the rule that an empty
  // selection (or an empty search term) does not constrain.
  // ---------------------------------------------------------------------

  /** Name, description or some tag contains the term, ignoring case. */
  predicate SearchHit(p: Product, term: string)
  {
    var t := Lower(term);
    || Contains(Lower(p.name), t)
    || Contains(Lower(p.description), t)
    || exists i :: 0 <= i < |p.tags| && Contains(Lower(p.tags[i]), t)
  }

  predicate PriceInRange(p: Product, range: (int, int))
  {
    range.0 <= p.price <= range.1
  }

  /** `PriceInRange` as a callback for `filter`. */
  function PriceRule(range: (int, int)): Product -> bool
  {
    p => PriceInRange(p, range)
  }

  /** Some selected size is one of the product's sizes. */
  predicate SizeHit(p: Product, sizes: seq<string>)
  {
    exists i :: 0 <= i < |sizes| && sizes[i] in p.sizes
  }

  /** Some selected color is the code of one of the product's colors. */
  predicate ColorHit(p: Product, codes: seq<string>)
  {
    exists i, j :: 0 <= i < |codes| && 0 <= j < |p.colors| && p.colors[j].code == codes[i]
  }

  /** Some selected tag is one of the product's tags. */
  predicate TagHit(p: Product, tags: seq<string>)
  {
    exists i :: 0 <= i < |tags| && tags[i] in p.tags
  }

  // The `filter` callbacks of the pipeline's stages.

  function BySearch(term: string): Product -> bool
  {
    p => SearchHit(p, term)
  }

  function ByCategory(selected: seq<string>): Product -> bool
  {
    (p: Product) => p.category in selected
  }

  function ByCollection(selected: seq<string>): Product -> bool
  {
    (p: Product) => p.collection in selected
  }

  function BySize(selected: seq<string>): Product -> bool
  {
    p => SizeHit(p, selected)
  }

  function ByColor(selected: seq<string>): Product -> bool
  {
    p => ColorHit(p, selected)
  }

  function ByTag(selected: seq<string>): Product -> bool
  {
    p => TagHit(p, selected)
  }

  predicate SearchOk(p: Product, term: string)
  {
    term == "" || SearchHit(p, term)
  }

  predicate CategoryOk(p: Product, f: Filters)
  {
    |f.category| == 0 || p.category in f.category
  }

  predicate CollectionOk(p: Product, f: Filters)
  {
    |f.collection| == 0 || p.collection in f.collection
  }

  predicate SizeOk(p: Product, f: Filters)
  {
    |f.sizes| == 0 || SizeHit(p, f.sizes)
  }

  predicate ColorOk(p: Product, f: Filters)
  {
    |f.colors| == 0 || ColorHit(p, f.colors)
  }

  predicate TagOk(p: Product, f: Filters)
  {
    |f.tags| == 0 || TagHit(p, f.tags)
  }

  /**
   * A product is listed iff it passes every dimension (AND across, OR
   * within). A non-empty selection constrains its dimension; with every
   * selection and the term empty, only the price range does.
   */
  predicate Matches(p: Product, f: Filters, term: string)
    ensures Matches(p, f, term) ==>
              && PriceInRange(p, f.priceRange)
              && (f.category != [] ==> p.category in f.category)
              && (f.collection != [] ==> p.collection in f.collection)
    ensures term == "" && f.category == [] && f.collection == [] && f.sizes == [] && f.colors == [] && f.tags == [] ==>
              (Matches(p, f, term) <==> PriceInRange(p, f.priceRange))
  {
    && SearchOk(p, term)
    && CategoryOk(p, f)
    && CollectionOk(p, f)
    && PriceInRange(p, f.priceRange)
    && SizeOk(p, f)
    && ColorOk(p, f)
    && TagOk(p, f)
  }

  /** `Matches` as a callback for `filter`. */
  function Matching(f: Filters, term: string): Product -> bool
  {
    p => Matches(p, f, term)
  }

  /** The products the listing shows, in catalogue order, before sorting. */
  function Visible(products: seq<Product>, f: Filters, term: string): seq<Product>
  {
    Select(products, Matching(f, term))
  }

  /** The visible products are the matching ones, none added and none repeated. */
  lemma VisibleMembers(products: seq<Product>, f: Filters, term: string)
    ensures forall p :: p in Visible(products, f, term) <==> p in products && Matches(p, f, term)
    ensures multiset(Visible(products, f, term)) <= multiset(products)
  {
    SelectMembers(products, Matching(f, term));
    SelectSubMultiset(products, Matching(f, term));
  }

  // ---------------------------------------------------------------------
  // Sorting
  // ---------------------------------------------------------------------

  datatype SortKey = PriceLow | PriceHigh | Newest | ByName

  /** The `switch (sortBy)`: `'name'` and every unknown key sort by name. */
  function ParseSortKey(sortBy: string): (r: SortKey)
    ensures r == PriceLow <==> sortBy == "price-low"
    ensures r == PriceHigh <==> sortBy == "price-high"
    ensures r == Newest <==> sortBy == "newest"
  {
    if sortBy == "price-low" then PriceLow
    else if sortBy == "price-high" then PriceHigh
    else if sortBy == "newest" then Newest
    else ByName
  }

  /**
   * The comparator handed to `sort`; its sign decides the order: by rising
   * price, by falling price, by name, or, for "newest", after any new
   * arrival `b` and before anything else, whatever `a` is.
   */
  function Compare(key: SortKey, a: Product, b: Product): (r: int)
    ensures key == PriceLow ==> (r < 0 <==> a.price < b.price) && (r == 0 <==> a.price == b.price)
    ensures key == PriceHigh ==> (r < 0 <==> b.price < a.price) && (r == 0 <==> a.price == b.price)
    ensures key == Newest ==> r != 0 && (r > 0 <==> b.newArrival)
    ensures key == ByName ==> -1 <= r <= 1 && (r == 0 <==> a.name == b.name)
  {
    match key
    case PriceLow => a.price - b.price
    case PriceHigh => b.price - a.price
    case Newest => if b.newArrival then 1 else -1
    case ByName => CompareTextAntisymmetric(a.name, b.name); CompareText(a.name, b.name)
  }

  /** Every comparator except "newest" is a consistent one. */
  lemma CompareConsistent(key: SortKey)
    requires key != Newest
    ensures Consistent((a, b) => Compare(key, a, b))
  {
    var cmp := (a, b) => Compare(key, a, b);
    forall x, y | cmp(x, y) > 0 ensures cmp(y, x) <= 0 {
      if key == ByName { CompareTextAntisymmetric(x.name, y.name); }
    }
    forall x, y, z | cmp(x, y) <= 0 && cmp(y, z) <= 0 ensures cmp(x, z) <= 0 {
      if key == ByName { CompareTextTransitive(x.name, y.name, z.name); }
    }
  }

  /**
   * The "newest" comparator is not consistent: for two new arrivals each
   * compares after the other, so the order it produces depends on the sort
   * algorithm.
   */
  lemma NewestInconsistent()
    ensures !Consistent((a, b) => Compare(Newest, a, b))
  {
    var p := Product("", "", "", 0, "", "", [], [], [], [], [], true);
    var cmp := (a, b) => Compare(Newest, a, b);
    assert cmp(p, p) > 0;
  }

  // ---------------------------------------------------------------------
  // The pipeline
  // ---------------------------------------------------------------------

  /**
   * The effect that recomputes the listing: the list is narrowed stage by
   * stage, then sorted in place. The result holds exactly the matching
   * products, each as often as in `products`, ordered by the sort key.
   */
  method ApplyFiltersAndSort(products: seq<Product>, filters: Filters, searchTerm: string, sortBy: string)
    returns (filtered: seq<Product>)
    ensures multiset(filtered) == multiset(Visible(products, filters, searchTerm))
    ensures multiset(filtered) <= multiset(products)
    ensures forall p :: p in filtered <==> p in products && Matches(p, filters, searchTerm)
    ensures sortBy == "price-low" ==>
              forall i, j :: 0 <= i < j < |filtered| ==> filtered[i].price <= filtered[j].price
    ensures sortBy == "price-high" ==>
              forall i, j :: 0 <= i < j < |filtered| ==> filtered[i].price >= filtered[j].price
    ensures ParseSortKey(sortBy) == ByName ==>
              forall i, j :: 0 <= i < j < |filtered| ==> CompareText(filtered[i].name, filtered[j].name) <= 0
  {
    var narrowed := Narrow(products, filters, searchTerm);
    filtered := SortListing(narrowed, sortBy);
    VisibleMembers(products, filters, searchTerm);
    forall p ensures p in filtered <==> p in products && Matches(p, filters, searchTerm) {
      calc {
        p in filtered;
        p in multiset(filtered);
        p in multiset(Visible(products, filters, searchTerm));
        p in Visible(products, filters, searchTerm);
      }
    }
  }

  /**
   * The filtering half of the effect: `filtered` is reassigned once per
   * active stage, and ends as the single-pass filter by `Matches`.
   */
  method Narrow(products: seq<Product>, filters: Filters, searchTerm: string) returns (filtered: seq<Product>)
    ensures filtered == Visible(products, filters, searchTerm)
  {
    filtered := products;

    if searchTerm != "" {
      filtered := Select(filtered, BySearch(searchTerm));
    }

    if |filters.category| > 0 {
      filtered := Select(filtered, ByCategory(filters.category));
    }

    if |filters.collection| > 0 {
      filtered := Select(filtered, ByCollection(filters.collection));
    }

    filtered := Select(filtered, PriceRule(filters.priceRange));

    if |filters.sizes| > 0 {
      filtered := Select(filtered, BySize(filters.sizes));
    }

    if |filters.colors| > 0 {
      filtered := Select(filtered, ByColor(filters.colors));
    }

    if |filters.tags| > 0 {
      filtered := Select(filtered, ByTag(filters.tags));
    }
    StagesCompose(products, filters, searchTerm);
  }

  /**
   * The sorting half of the effect: `filtered.sort(comparator)` on a copy of
   * the narrowed list. The result is a permutation of it, ordered by the
   * key except for "newest", whose comparator is inconsistent.
   */
  method SortListing(narrowed: seq<Product>, sortBy: string) returns (sorted: seq<Product>)
    ensures multiset(sorted) == multiset(narrowed)
    ensures ParseSortKey(sortBy) != Newest ==>
              forall i, j :: 0 <= i < j < |sorted| ==> Compare(ParseSortKey(sortBy), sorted[i], sorted[j]) <= 0
  {
    var a := new Product[|narrowed|](i requires 0 <= i < |narrowed| => narrowed[i]);
    assert a[..] == narrowed;
    var key := ParseSortKey(sortBy);
    SortInPlace(a, (x, y) => Compare(key, x, y));
    sorted := a[..];
    if key != Newest {
      CompareConsistent(key);
    }
  }

  /** The rule of stage `k` of the pipeline, empty selections passing everything. */
  predicate PassesStage(p: Product, f: Filters, term: string, k: nat)
  {
    match k
    case 0 => SearchOk(p, term)
    case 1 => CategoryOk(p, f)
    case 2 => CollectionOk(p, f)
    case 3 => PriceInRange(p, f.priceRange)
    case 4 => SizeOk(p, f)
    case 5 => ColorOk(p, f)
    case _ => TagOk(p, f)
  }

  /**
   * Whether stage `k` runs its `filter` at all: an empty term or an empty
   * selection skips it. The term is not trimmed, so a term of spaces runs
   * the search stage.
   */
  predicate StageActive(f: Filters, term: string, k: nat)
  {
    match k
    case 0 => term != ""
    case 1 => |f.category| > 0
    case 2 => |f.collection| > 0
    case 3 => true
    case 4 => |f.sizes| > 0
    case 5 => |f.colors| > 0
    case _ => |f.tags| > 0
  }

  /** The `filter` callback of stage `k`. */
  function StageHit(f: Filters, term: string, k: nat): Product -> bool
  {
    match k
    case 0 => BySearch(term)
    case 1 => ByCategory(f.category)
    case 2 => ByCollection(f.collection)
    case 3 => PriceRule(f.priceRange)
    case 4 => BySize(f.sizes)
    case 5 => ByColor(f.colors)
    case _ => ByTag(f.tags)
  }

  function StageRule(f: Filters, term: string, k: nat): Product -> bool
  {
    p => PassesStage(p, f, term, k)
  }

  /** The product passes the first `n` of the seven stages, in the order the pipeline runs them. */
  predicate PassesFirst(p: Product, f: Filters, term: string, n: nat)
  {
    && (n > 0 ==> SearchOk(p, term))
    && (n > 1 ==> CategoryOk(p, f))
    && (n > 2 ==> CollectionOk(p, f))
    && (n > 3 ==> PriceInRange(p, f.priceRange))
    && (n > 4 ==> SizeOk(p, f))
    && (n > 5 ==> ColorOk(p, f))
    && (n > 6 ==> TagOk(p, f))
  }

  function FirstStages(f: Filters, term: string, n: nat): Product -> bool
  {
    p => PassesFirst(p, f, term, n)
  }

  /** What is left of the products after the first `n` stages. */
  function Through(products: seq<Product>, f: Filters, term: string, n: nat): seq<Product>
  {
    Select(products, FirstStages(f, term, n))
  }

  /**
   * One stage of the pipeline: when the stage is active its `filter`
   * callback `hit` is applied, otherwise the list is left alone; either way
   * what the first `k` stages left becomes what the first `k + 1` leave.
   */
  lemma StageStep(products: seq<Product>, f: Filters, term: string, k: nat,
                  before: seq<Product>, after: seq<Product>)
    requires k < 7
    requires before == Through(products, f, term, k)
    requires after == Stage(before, f, term, k)
    ensures after == Through(products, f, term, k + 1)
  {
    if StageActive(f, term, k) {
      SelectSame(before, StageHit(f, term, k), StageRule(f, term, k));
    } else {
      SelectEverything(before, StageRule(f, term, k));
    }
    SelectThen(products, FirstStages(f, term, k), StageRule(f, term, k), FirstStages(f, term, k + 1));
  }

  /** One `if (...) filtered = filtered.filter(...)` block of the pipeline. */
  function Stage(list: seq<Product>, f: Filters, term: string, k: nat): seq<Product>
  {
    if StageActive(f, term, k) then Select(list, StageHit(f, term, k)) else list
  }

  /** The seven stages, run in the pipeline's order, leave exactly the matching products. */
  lemma StagesCompose(products: seq<Product>, f: Filters, term: string)
    ensures Stage(Stage(Stage(Stage(Stage(Stage(Stage(products, f, term, 0), f, term, 1), f, term, 2),
                  f, term, 3), f, term, 4), f, term, 5), f, term, 6) == Visible(products, f, term)
  {
    SelectEverything(products, FirstStages(f, term, 0));
    var s0 := Stage(products, f, term, 0);
    StageStep(products, f, term, 0, products, s0);
    var s1 := Stage(s0, f, term, 1);
    StageStep(products, f, term, 1, s0, s1);
    var s2 := Stage(s1, f, term, 2);
    StageStep(products, f, term, 2, s1, s2);
    var s3 := Stage(s2, f, term, 3);
    StageStep(products, f, term, 3, s2, s3);
    var s4 := Stage(s3, f, term, 4);
    StageStep(products, f, term, 4, s3, s4);
    var s5 := Stage(s4, f, term, 5);
    StageStep(products, f, term, 5, s4, s5);
    var s6 := Stage(s5, f, term, 6);
    StageStep(products, f, term, 6, s5, s6);
    SelectSame(products, FirstStages(f, term, 7), Matching(f, term));
  }

  // ---------------------------------------------------------------------
  // Properties of the listing
  // ---------------------------------------------------------------------

  /** With no selection and no search term only the price range narrows the list. */
  lemma {:induction false} NoSelectionOnlyPrice(products: seq<Product>, f: Filters)
    requires f.category == [] && f.collection == [] && f.sizes == [] && f.colors == [] && f.tags == []
    ensures Visible(products, f, "") == Select(products, PriceRule(f.priceRange))
  {
    SelectSame(products, Matching(f, ""), PriceRule(f.priceRange));
  }

  /** ... and when every price lies in the range, nothing is dropped at all. */
  lemma {:induction false} NoSelectionShowsAll(products: seq<Product>, f: Filters)
    requires f.category == [] && f.collection == [] && f.sizes == [] && f.colors == [] && f.tags == []
    requires forall p :: p in products ==> f.priceRange.0 <= p.price <= f.priceRange.1
    ensures Visible(products, f, "") == products
  {
    SelectEverything(products, Matching(f, ""));
  }

  /** The price bounds are inclusive: with the initial filters exactly the prices 0 to 300 pass. */
  lemma InitialPriceBounds(p: Product)
    ensures Matches(p, InitialFilters, "") <==> 0 <= p.price <= 300 * Cents
    ensures p.price == 0 || p.price == 300 * Cents ==> Matches(p, InitialFilters, "")
    ensures p.price > 300 * Cents ==> !Matches(p, InitialFilters, "")
  {
  }

  /** The `inStock` toggle is never consulted: flipping it changes nothing. */
  lemma {:induction false} InStockIgnored(products: seq<Product>, f: Filters, term: string, inStock: bool)
    ensures Visible(products, f.(inStock := inStock), term) == Visible(products, f, term)
  {
    SelectSame(products, Matching(f.(inStock := inStock), term), Matching(f, term));
  }

  /**
   * The search stage run with an empty term would keep every product, since
   * every string includes the empty one; skipping it for an empty term
   * changes nothing.
   */
  lemma {:induction false} EmptySearchKeepsAll(products: seq<Product>)
    ensures Select(products, BySearch("")) == products
  {
    forall p | p in products ensures BySearch("")(p) {
      assert Lower("") == "";
    }
    SelectEverything(products, BySearch(""));
  }

  /** The search ignores case: lowering the term does not change what it finds. */
  lemma SearchIgnoresCase(p: Product, term: string)
    ensures SearchOk(p, Lower(term)) == SearchOk(p, term)
  {
    LowerIdempotent(term);
  }

  // ---------------------------------------------------------------------
  // Editing the filter record
  // ---------------------------------------------------------------------

  /** The list-valued fields of the filter record that a checkbox or chip toggles. */
  datatype ListField = CategoryField | CollectionField | SizesField | ColorsField | TagsField

  function Selection(f: Filters, key: ListField): seq<string>
  {
    match key
    case CategoryField => f.category
    case CollectionField => f.collection
    case SizesField => f.sizes
    case ColorsField => f.colors
    case TagsField => f.tags
  }

  /** `{ ...f, [key]: sel }`: the record with one list replaced and every other field kept. */
  function WithSelection(f: Filters, key: ListField, sel: seq<string>): (g: Filters)
    ensures Selection(g, key) == sel
    ensures forall other :: other != key ==> Selection(g, other) == Selection(f, other)
    ensures g.priceRange == f.priceRange && g.inStock == f.inStock
  {
    match key
    case CategoryField => f.(category := sel)
    case CollectionField => f.(collection := sel)
    case SizesField => f.(sizes := sel)
    case ColorsField => f.(colors := sel)
    case TagsField => f.(tags := sel)
  }

  /**
   * The new list of one toggle: a value already present is removed wherever
   * it occurs, an absent one is appended at the end.
   */
  function Toggle(sel: seq<string>, value: string): (r: seq<string>)
    ensures value in sel ==> forall x :: multiset(r)[x] == if x == value then 0 else multiset(sel)[x]
    ensures value in sel ==> value !in r
    ensures value !in sel ==> r == sel + [value]
  {
    if value in sel then
      var others := (item: string) => item != value;
      var r := Select(sel, others);
      assert forall x :: multiset(r)[x] == if x == value then 0 else multiset(sel)[x] by {
        forall x ensures multiset(r)[x] == if x == value then 0 else multiset(sel)[x] {
          SelectCounts(sel, others, x);
        }
      }
      assert multiset(r)[value] == 0;
      r
    else
      sel + [value]
  }

  /** `toggleArrayFilter(key, value)`: toggles the value in one list and leaves the rest of the record alone. */
  function ToggleArrayFilter(f: Filters, key: ListField, value: string): (g: Filters)
    ensures Selection(g, key) == Toggle(Selection(f, key), value)
    ensures forall other :: other != key ==> Selection(g, other) == Selection(f, other)
    ensures g.priceRange == f.priceRange && g.inStock == f.inStock
  {
    WithSelection(f, key, Toggle(Selection(f, key), value))
  }

  /** Toggling an absent value twice gives back the record it started from. */
  lemma {:induction false} ToggleTwiceRestores(f: Filters, key: ListField, value: string)
    requires value !in Selection(f, key)
    ensures ToggleArrayFilter(ToggleArrayFilter(f, key, value), key, value) == f
  {
    var sel := Selection(f, key);
    var keep := item => item != value;
    SelectAppend(sel, [value], keep);
    SelectEverything(sel, keep);
    assert Select([value], keep) == [];
    assert Toggle(Toggle(sel, value), value) == sel;
  }

  /** `clearFilters`: the record it writes and the search term it clears. */
  function ClearFilters(): (r: (Filters, string))
    ensures r.0 == InitialFilters && r.1 == ""
  {
    (Filters([], [], (0, 300 * Cents), [], [], [], false), "")
  }

  /** After clearing, the listing shows exactly the products priced from 0 to 300 inclusive. */
  lemma {:induction false} ClearedShowsPriceBand(products: seq<Product>)
    ensures ClearFilters().0.priceRange == (0, 300 * Cents) && !ClearFilters().0.inStock
    ensures Visible(products, ClearFilters().0, ClearFilters().1)
         == Select(products, PriceRule((0, 300 * Cents)))
  {
    SelectSame(products, Matching(InitialFilters, ""), PriceRule((0, 300 * Cents)));
  }

  // ---------------------------------------------------------------------
  // The option lists of the filter panel
  // ---------------------------------------------------------------------

  /** `allCollections`: each collection that occurs, once. */
  function AllCollections(products: seq<Product>): (r: seq<string>)
    ensures NoDuplicates(r)
    ensures forall x :: x in r <==> exists i :: 0 <= i < |products| && products[i].collection == x
  {
    var names := seq(|products|, i requires 0 <= i < |products| => products[i].collection);
    assert forall x :: x in names <==> exists i :: 0 <= i < |products| && products[i].collection == x by {
      forall x | exists i :: 0 <= i < |products| && products[i].collection == x ensures x in names {
        var i :| 0 <= i < |products| && products[i].collection == x;
        assert names[i] == x;
      }
    }
    Distinct(names)
  }

  /** `allSizes`: each size offered by some product, once. */
  function AllSizes(products: seq<Product>): (r: seq<string>)
    ensures NoDuplicates(r)
    ensures forall x :: x in r <==> exists i :: 0 <= i < |products| && x in products[i].sizes
  {
    var lists := seq(|products|, i requires 0 <= i < |products| => products[i].sizes);
    assert forall i :: 0 <= i < |products| ==> lists[i] == products[i].sizes;
    Distinct(Flatten(lists))
  }

  /** The color codes a product offers, in its own order. */
  function ColorCodes(p: Product): (r: seq<string>)
    ensures forall x :: x in r <==> exists j :: 0 <= j < |p.colors| && p.colors[j].code == x
  {
    var r := seq(|p.colors|, j requires 0 <= j < |p.colors| => p.colors[j].code);
    assert forall j :: 0 <= j < |p.colors| ==> r[j] == p.colors[j].code;
    r
  }

  /** `allColors`: each color code of some product, once. */
  function AllColors(products: seq<Product>): (r: seq<string>)
    ensures NoDuplicates(r)
    ensures forall x :: x in r <==> exists i :: 0 <= i < |products| && x in ColorCodes(products[i])
  {
    var lists := seq(|products|, i requires 0 <= i < |products| => ColorCodes(products[i]));
    assert forall i :: 0 <= i < |products| ==> lists[i] == ColorCodes(products[i]);
    Distinct(Flatten(lists))
  }

  /** `allTags`: each tag of some product, once. */
  function AllTags(products: seq<Product>): (r: seq<string>)
    ensures NoDuplicates(r)
    ensures forall x :: x in r <==> exists i :: 0 <= i < |products| && x in products[i].tags
  {
    var lists := seq(|products|, i requires 0 <= i < |products| => products[i].tags);
    assert forall i :: 0 <= i < |products| ==> lists[i] == products[i].tags;
    Distinct(Flatten(lists))
  }
}
