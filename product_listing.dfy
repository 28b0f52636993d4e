/** The catalogue rules of src/pages/ProductListing.jsx: which products the filters keep,
    how the sort options order them, the upper price bound set after loading, the
    category heading, and the filter reset. Prices are whole cents and ratings hundredths
    of a star, so the page's "$2000" is 200000 and its "round up to the nearest 100" is
    a multiple of 10000. */
module ProductListing {
  import opened Base

  datatype Product = Product(id: int, title: string, description: string, price: int, rating: int, stock: int)

  /** The upper end of the price range. `Math.max()` of no prices is `-Infinity`, which
      no price lies under. */
  datatype Bound = AtMost(limit: int) | NegInfinity

  datatype Filters = Filters(low: int, high: Bound, minRating: int, inStock: bool)

  /** `{ priceRange: [0, 2000], minRating: 0, inStock: false }` */
  const InitialFilters := Filters(0, AtMost(200000), 0, false)

  // ---------------------------------------------------------------------------
  // Filtering
  // ---------------------------------------------------------------------------

  /** An empty query matches everything; any other query matches a product whose title
      or description contains it, ignoring case. */
  predicate MatchesSearch(p: Product, query: string)
  {
    query == "" || Includes(Lower(p.title), Lower(query)) || Includes(Lower(p.description), Lower(query))
  }

  predicate UnderBound(price: int, high: Bound)
  {
    match high
    case AtMost(limit) => price <= limit
    case NegInfinity => false
  }

  /** The test `filteredProducts` applies to each product. */
  predicate Keep(p: Product, query: string, f: Filters)
  {
    MatchesSearch(p, query) && f.low <= p.price && UnderBound(p.price, f.high) &&
    p.rating >= f.minRating && (!f.inStock || p.stock > 0)
  }

  /** `allProducts.filter(...)` */
  function Filtered(ps: seq<Product>, query: string, f: Filters): (r: seq<Product>)
    ensures |r| <= |ps|
  {
    if ps == [] then []
    else (if Keep(ps[0], query, f) then [ps[0]] else []) + Filtered(ps[1..], query, f)
  }

  /** A product is in the result exactly when it is in the list and passes every filter. */
  lemma {:induction false} FilteredMembers(ps: seq<Product>, query: string, f: Filters, p: Product)
    ensures p in Filtered(ps, query, f) <==> p in ps && Keep(p, query, f)
  {
    if ps != [] {
      FilteredMembers(ps[1..], query, f, p);
      assert ps == [ps[0]] + ps[1..];
    }
  }

  /** `idx` picks, in increasing positions of `ps`, the elements of `r`. */
  predicate IsEmbedding(idx: seq<int>, r: seq<Product>, ps: seq<Product>)
  {
    |idx| == |r| &&
    (forall i :: 0 <= i < |idx| ==> 0 <= idx[i] < |ps| && r[i] == ps[idx[i]]) &&
    (forall i, j :: 0 <= i < j < |idx| ==> idx[i] < idx[j])
  }

  /** Every position moved one to the right. */
  function Shifted(idx: seq<int>): (r: seq<int>)
    ensures |r| == |idx| && forall k :: 0 <= k < |idx| ==> r[k] == idx[k] + 1
  {
    seq(|idx|, k requires 0 <= k < |idx| => idx[k] + 1)
  }

  /** The positions of `ps` whose product passes the filters, in increasing order. */
  function KeptPositions(ps: seq<Product>, query: string, f: Filters): seq<int>
  {
    if ps == [] then []
    else (if Keep(ps[0], query, f) then [0] else []) + Shifted(KeptPositions(ps[1..], query, f))
  }

  lemma ShiftedMembers(idx: seq<int>, i: int)
    ensures i in Shifted(idx) <==> i - 1 in idx
  {
    var r := Shifted(idx);
    if i in r {
      var k :| 0 <= k < |r| && r[k] == i;
      assert idx[k] == i - 1;
    }
    if i - 1 in idx {
      var k :| 0 <= k < |idx| && idx[k] == i - 1;
      assert r[k] == i;
    }
  }

  /** The listed positions are exactly the positions of products that pass. */
  lemma {:induction false} KeptPositionsExact(ps: seq<Product>, query: string, f: Filters, i: int)
    ensures i in KeptPositions(ps, query, f) <==> 0 <= i < |ps| && Keep(ps[i], query, f)
  {
    if ps != [] {
      var rest := KeptPositions(ps[1..], query, f);
      ShiftedMembers(rest, i);
      KeptPositionsExact(ps[1..], query, f, i - 1);
      if 0 < i < |ps| {
        assert ps[i] == ps[1..][i - 1];
      }
    }
  }

  /** An embedding of the tail, moved one to the right, embeds it in the whole list, and
      position 0 may go in front of it. */
  lemma EmbedShifted(rest: seq<int>, tail: seq<Product>, ps: seq<Product>)
    requires ps != [] && IsEmbedding(rest, tail, ps[1..])
    ensures IsEmbedding(Shifted(rest), tail, ps)
    ensures IsEmbedding([0] + Shifted(rest), [ps[0]] + tail, ps)
  {
    var shifted := Shifted(rest);
    forall i | 0 <= i < |rest| ensures ps[shifted[i]] == tail[i] {
      assert ps[shifted[i]] == ps[1..][rest[i]];
    }
    var idx, r := [0] + shifted, [ps[0]] + tail;
    forall i | 0 <= i < |idx| ensures 0 <= idx[i] < |ps| && r[i] == ps[idx[i]] {
      if i > 0 { assert idx[i] == shifted[i - 1] && r[i] == tail[i - 1]; }
    }
    forall i, j | 0 <= i < j < |idx| ensures idx[i] < idx[j] {
      if i > 0 { assert idx[i] == shifted[i - 1]; }
      assert idx[j] == shifted[j - 1];
    }
  }

  /** The listed positions pick, in increasing order, the filtered list out of `ps`. */
  lemma {:induction false} KeptPositionsEmbed(ps: seq<Product>, query: string, f: Filters)
    ensures IsEmbedding(KeptPositions(ps, query, f), Filtered(ps, query, f), ps)
  {
    if ps != [] {
      var rest := KeptPositions(ps[1..], query, f);
      var tail := Filtered(ps[1..], query, f);
      KeptPositionsEmbed(ps[1..], query, f);
      EmbedShifted(rest, tail, ps);
      if Keep(ps[0], query, f) {
        assert KeptPositions(ps, query, f) == [0] + Shifted(rest);
        assert Filtered(ps, query, f) == [ps[0]] + tail;
      } else {
        assert KeptPositions(ps, query, f) == Shifted(rest);
        assert Filtered(ps, query, f) == tail;
      }
    }
  }

  /** Filtering keeps products in the order they came, and exactly those that pass: the
      result is the subsequence of `ps` at the positions whose product passes the filters,
      taken in increasing order. */
  lemma FilteredIsSubsequence(ps: seq<Product>, query: string, f: Filters)
    returns (idx: seq<int>)
    ensures IsEmbedding(idx, Filtered(ps, query, f), ps)
    ensures forall i :: 0 <= i < |ps| ==> (i in idx <==> Keep(ps[i], query, f))
  {
    idx := KeptPositions(ps, query, f);
    KeptPositionsEmbed(ps, query, f);
    forall i | 0 <= i < |ps| ensures i in idx <==> Keep(ps[i], query, f) {
      KeptPositionsExact(ps, query, f, i);
    }
  }

  /** With filters that every product passes, filtering returns the list unchanged. */
  lemma {:induction false} FilteredKeepsAll(ps: seq<Product>, query: string, f: Filters)
    requires forall i :: 0 <= i < |ps| ==> Keep(ps[i], query, f)
    ensures Filtered(ps, query, f) == ps
  {
    if ps != [] {
      FilteredKeepsAll(ps[1..], query, f);
    }
  }

  lemma {:induction false} LowerIdempotent(s: string)
    ensures Lower(Lower(s)) == Lower(s)
  {
    forall i | 0 <= i < |s| ensures Lower(Lower(s))[i] == Lower(s)[i] {
      assert LowerChar(LowerChar(s[i])) == LowerChar(s[i]);
    }
  }

  /** The search ignores the case of the query. */
  lemma SearchIgnoresQueryCase(p: Product, query: string)
    ensures MatchesSearch(p, query) <==> MatchesSearch(p, Lower(query))
  {
    LowerIdempotent(query);
  }

  /** Every product matches the empty query, and a query found in the title matches. */
  lemma SearchMatchesTitle(p: Product, query: string)
    ensures MatchesSearch(p, "")
    ensures Includes(Lower(p.title), Lower(query)) ==> MatchesSearch(p, query)
  {
  }

  // ---------------------------------------------------------------------------
  // Sorting
  // ---------------------------------------------------------------------------

  predicate IsSortOption(option: string)
  {
    option == "price-low" || option == "price-high" || option == "rating"
  }

  /** The number each comparator subtracts: `a.price - b.price` sorts by price,
      `b.price - a.price` by the negated price, `b.rating - a.rating` by the negated rating. */
  function SortKey(option: string, p: Product): int
  {
    if option == "price-high" then -p.price
    else if option == "rating" then -p.rating
    else p.price
  }

  predicate SortedByKey(s: seq<Product>, option: string)
  {
    forall i, j :: 0 <= i < j < |s| ==> SortKey(option, s[i]) <= SortKey(option, s[j])
  }

  /** Puts `p` after every element whose key is not larger. */
  function Insert(p: Product, s: seq<Product>, option: string): seq<Product>
  {
    if s == [] then [p]
    else if SortKey(option, p) < SortKey(option, s[0]) then [p] + s
    else [s[0]] + Insert(p, s[1..], option)
  }

  /** A stable sort (ECMAScript requires `Array.prototype.sort` to be stable): each
      element goes after the earlier ones with the same key. */
  function SortByKey(ps: seq<Product>, option: string): seq<Product>
  {
    if ps == [] then []
    else Insert(ps[|ps| - 1], SortByKey(ps[..|ps| - 1], option), option)
  }

  lemma {:induction false} InsertPermutes(p: Product, s: seq<Product>, option: string)
    ensures multiset(Insert(p, s, option)) == multiset(s) + multiset{p}
  {
    if s != [] && SortKey(option, p) >= SortKey(option, s[0]) {
      InsertPermutes(p, s[1..], option);
      assert s == [s[0]] + s[1..];
    }
  }

  lemma {:induction false} InsertSorted(p: Product, s: seq<Product>, option: string)
    requires SortedByKey(s, option)
    ensures SortedByKey(Insert(p, s, option), option)
  {
    if s != [] && SortKey(option, p) >= SortKey(option, s[0]) {
      var r := Insert(p, s[1..], option);
      InsertSorted(p, s[1..], option);
      InsertPermutes(p, s[1..], option);
      forall i | 0 <= i < |r| ensures SortKey(option, s[0]) <= SortKey(option, r[i]) {
        assert r[i] in multiset(r);
        if r[i] != p {
          assert r[i] in multiset(s[1..]);
          var k :| 0 <= k < |s[1..]| && s[1..][k] == r[i];
          assert s[k + 1] == r[i];
        }
      }
      var t := Insert(p, s, option);
      assert t == [s[0]] + r;
      forall i, j | 0 <= i < j < |t| ensures SortKey(option, t[i]) <= SortKey(option, t[j]) {
        if i > 0 { assert t[i] == r[i - 1] && t[j] == r[j - 1]; }
        else { assert t[j] == r[j - 1]; }
      }
    }
  }

  lemma {:induction false} SortByKeySorted(ps: seq<Product>, option: string)
    ensures SortedByKey(SortByKey(ps, option), option)
    ensures multiset(SortByKey(ps, option)) == multiset(ps)
  {
    if ps != [] {
      var init := ps[..|ps| - 1];
      SortByKeySorted(init, option);
      InsertSorted(ps[|ps| - 1], SortByKey(init, option), option);
      InsertPermutes(ps[|ps| - 1], SortByKey(init, option), option);
      assert ps == init + [ps[|ps| - 1]];
    }
  }

  /** Inserting an element whose key is at least every key already there appends it. */
  lemma {:induction false} InsertLargest(p: Product, s: seq<Product>, option: string)
    requires forall i :: 0 <= i < |s| ==> SortKey(option, s[i]) <= SortKey(option, p)
    ensures Insert(p, s, option) == s + [p]
  {
    if s != [] {
      InsertLargest(p, s[1..], option);
      assert s == [s[0]] + s[1..];
    }
  }

  /** Sorting a list that is already in order changes nothing: equal keys keep their order. */
  lemma {:induction false} SortByKeyFixesSorted(ps: seq<Product>, option: string)
    requires SortedByKey(ps, option)
    ensures SortByKey(ps, option) == ps
  {
    if ps != [] {
      var init := ps[..|ps| - 1];
      assert SortedByKey(init, option);
      SortByKeyFixesSorted(init, option);
      InsertLargest(ps[|ps| - 1], init, option);
      assert init + [ps[|ps| - 1]] == ps;
    }
  }

  /** The products of `s` whose key is `v`, in the order they appear. */
  function WithKey(s: seq<Product>, option: string, v: int): seq<Product>
  {
    if s == [] then []
    else (if SortKey(option, s[0]) == v then [s[0]] else []) + WithKey(s[1..], option, v)
  }

  lemma {:induction false} WithKeyAppend(s: seq<Product>, p: Product, option: string, v: int)
    ensures WithKey(s + [p], option, v) == WithKey(s, option, v) + (if SortKey(option, p) == v then [p] else [])
  {
    if s != [] {
      WithKeyAppend(s[1..], p, option, v);
      assert (s + [p])[1..] == s[1..] + [p];
    }
  }

  lemma {:induction false} WithKeyNone(s: seq<Product>, option: string, v: int)
    requires forall i :: 0 <= i < |s| ==> SortKey(option, s[i]) > v
    ensures WithKey(s, option, v) == []
  {
    if s != [] {
      WithKeyNone(s[1..], option, v);
    }
  }

  /** Inserting into a sorted list puts the new product after every product with its key. */
  lemma {:induction false} InsertAfterEqualKeys(p: Product, s: seq<Product>, option: string, v: int)
    requires SortedByKey(s, option)
    ensures WithKey(Insert(p, s, option), option, v) ==
            WithKey(s, option, v) + (if SortKey(option, p) == v then [p] else [])
  {
    if s == [] {
    } else if SortKey(option, p) < SortKey(option, s[0]) {
      if SortKey(option, p) == v {
        WithKeyNone(s, option, v);
      }
      assert Insert(p, s, option)[1..] == s;
    } else {
      assert SortedByKey(s[1..], option);
      InsertAfterEqualKeys(p, s[1..], option, v);
      assert Insert(p, s, option)[1..] == Insert(p, s[1..], option);
    }
  }

  /** One step of the sort keeps ties in order: if the sorted prefix lists each key's
      products as the prefix does, inserting the next product extends both alike. */
  lemma StableStep(init: seq<Product>, last: Product, sorted: seq<Product>, option: string, v: int)
    requires SortedByKey(sorted, option) && WithKey(sorted, option, v) == WithKey(init, option, v)
    ensures WithKey(Insert(last, sorted, option), option, v) == WithKey(init + [last], option, v)
  {
    InsertAfterEqualKeys(last, sorted, option, v);
    WithKeyAppend(init, last, option, v);
  }

  /** The sort is stable: products with equal keys come out in the order they went in. */
  lemma {:induction false} SortByKeyStable(ps: seq<Product>, option: string, v: int)
    ensures WithKey(SortByKey(ps, option), option, v) == WithKey(ps, option, v)
  {
    if ps != [] {
      var init, last := ps[..|ps| - 1], ps[|ps| - 1];
      SortByKeyStable(init, option, v);
      SortByKeySorted(init, option);
      StableStep(init, last, SortByKey(init, option), option, v);
      assert init + [last] == ps;
    }
  }

  /** Every option keeps products that tie under its comparator in their listed order. */
  lemma SortedProductsStable(ps: seq<Product>, option: string, v: int)
    ensures WithKey(SortedProducts(ps, option), option, v) == WithKey(ps, option, v)
  {
    if IsSortOption(option) {
      SortByKeyStable(ps, option, v);
    }
  }

  /** `sortedProducts`: the three sort options order a copy of the filtered list; every
      other option (`featured`, and `newest`, whose dates every product lacks) leaves it
      as it is. */
  function SortedProducts(ps: seq<Product>, option: string): (r: seq<Product>)
    ensures multiset(r) == multiset(ps)
    ensures option == "price-low" ==> forall i, j :: 0 <= i < j < |r| ==> r[i].price <= r[j].price
    ensures option == "price-high" ==> forall i, j :: 0 <= i < j < |r| ==> r[i].price >= r[j].price
    ensures option == "rating" ==> forall i, j :: 0 <= i < j < |r| ==> r[i].rating >= r[j].rating
    ensures !IsSortOption(option) ==> r == ps
  {
    if IsSortOption(option) then
      SortByKeySorted(ps, option);
      SortByKey(ps, option)
    else
      ps
  }

  // ---------------------------------------------------------------------------
  // Price bound and category
  // ---------------------------------------------------------------------------

  /** `Math.max(...prices)` for a non-empty list. */
  function MaxPrice(ps: seq<Product>): (m: int)
    requires ps != []
    ensures forall i :: 0 <= i < |ps| ==> ps[i].price <= m
    ensures exists i :: 0 <= i < |ps| && ps[i].price == m
  {
    if |ps| == 1 then ps[0].price
    else
      var rest := MaxPrice(ps[1..]);
      assert forall i :: 1 <= i < |ps| ==> ps[i] == ps[1..][i - 1];
      if ps[0].price >= rest then ps[0].price else rest
  }

  /** `Math.ceil(a / b)` for a positive divisor (Dafny's `/` rounds down here). */
  function CeilDiv(a: int, b: int): (q: int)
    requires b > 0
    ensures q * b >= a && (q - 1) * b < a
  {
    -((-a) / b)
  }

  /** The bound set after loading: the highest price rounded up to a whole 100 dollars. */
  function PriceCeiling(ps: seq<Product>): (c: int)
    requires ps != []
    ensures c % 10000 == 0
    ensures forall i :: 0 <= i < |ps| ==> ps[i].price <= c
    ensures c < MaxPrice(ps) + 10000
  {
    CeilDiv(MaxPrice(ps), 10000) * 10000
  }

  /** `getCategoryName`; `None` is a missing `category` parameter. */
  function CategoryName(category: Option<string>): string
  {
    match category
    case Some("smartphones") => "Phones"
    case Some("laptops") => "Laptops"
    case Some("mens-shirts") => "Men's Fashion"
    case Some("womens-dresses") => "Women's Fashion"
    case Some("home-decoration") => "Home & Garden"
    case Some("skincare") => "Beauty"
    case _ => "All Products"
  }

  const KnownCategories: set<string> :=
    {"smartphones", "laptops", "mens-shirts", "womens-dresses", "home-decoration", "skincare"}

  /** The six known slugs get six different headings, none of them the default; every
      other slug and a missing one get "All Products". */
  lemma CategoryNames(a: string, b: string)
    ensures a in KnownCategories && b in KnownCategories && a != b ==> CategoryName(Some(a)) != CategoryName(Some(b))
    ensures a in KnownCategories <==> CategoryName(Some(a)) != "All Products"
    ensures CategoryName(None) == "All Products"
  {
  }

  // ---------------------------------------------------------------------------
  // The page state
  // ---------------------------------------------------------------------------

  class Listing {
    var allProducts: seq<Product>
    var searchQuery: string
    var filters: Filters
    var sortOption: string

    constructor ()
      ensures allProducts == [] && searchQuery == "" && filters == InitialFilters && sortOption == "featured"
    {
      allProducts := [];
      searchQuery := "";
      filters := InitialFilters;
      sortOption := "featured";
    }

    /** What the grid shows. */
    function Shown(): seq<Product>
      reads this
    {
      SortedProducts(Filtered(allProducts, searchQuery, filters), sortOption)
    }

    /** The load effect once products arrive: they replace the list, and a non-empty list
        moves the price range to [0, its ceiling]; the other filters stay. */
    method Loaded(data: seq<Product>)
      modifies this`allProducts, this`filters
      ensures allProducts == data
      ensures data == [] ==> filters == old(filters)
      ensures data != [] ==> filters == old(filters).(low := 0, high := AtMost(PriceCeiling(data)))
    {
      allProducts := data;
      if |data| > 0 {
        filters := filters.(low := 0, high := AtMost(PriceCeiling(data)));
      }
    }

    /** `handlePriceChange`: the slider's pair becomes the range. */
    method HandlePriceChange(low: int, high: int)
      modifies this`filters
      ensures filters == old(filters).(low := low, high := AtMost(high))
    {
      filters := filters.(low := low, high := AtMost(high));
    }

    method SetSearchQuery(query: string)
      modifies this`searchQuery
      ensures searchQuery == query
    {
      searchQuery := query;
    }

    method SetSortOption(option: string)
      modifies this`sortOption
      ensures sortOption == option
    {
      sortOption := option;
    }

    /** The rating buttons: `setFilters({...filters, minRating: rating})`. */
    method SetMinRating(rating: int)
      modifies this`filters
      ensures filters == old(filters).(minRating := rating)
    {
      filters := filters.(minRating := rating);
    }

    /** The stock checkbox: `setFilters({...filters, inStock: checked})`. */
    method SetInStock(checked: bool)
      modifies this`filters
      ensures filters == old(filters).(inStock := checked)
    {
      filters := filters.(inStock := checked);
    }

    /** `clearAllFilters`: empty query, price range up to the highest price (not rounded),
        any rating, stock filter off, featured order. With prices and ratings that are not
        negative, every loaded product is shown again, in the order it came. */
    method ClearAllFilters()
      modifies this`searchQuery, this`filters, this`sortOption
      ensures searchQuery == "" && sortOption == "featured"
      ensures filters == Filters(0, if allProducts == [] then NegInfinity else AtMost(MaxPrice(allProducts)), 0, false)
      ensures (forall i :: 0 <= i < |allProducts| ==> allProducts[i].price >= 0 && allProducts[i].rating >= 0) ==>
        Shown() == allProducts
    {
      searchQuery := "";
      filters := Filters(0, if allProducts == [] then NegInfinity else AtMost(MaxPrice(allProducts)), 0, false);
      sortOption := "featured";
      if forall i :: 0 <= i < |allProducts| ==> allProducts[i].price >= 0 && allProducts[i].rating >= 0 {
        FilteredKeepsAll(allProducts, searchQuery, filters);
      }
    }
  }

  /** Right after loading, with the initial filters and no query, every product whose price
      and rating are not negative is shown. */
  lemma LoadedShowsAll(ps: seq<Product>)
    requires ps != []
    requires forall i :: 0 <= i < |ps| ==> ps[i].price >= 0 && ps[i].rating >= 0
    ensures Filtered(ps, "", InitialFilters.(low := 0, high := AtMost(PriceCeiling(ps)))) == ps
  {
    FilteredKeepsAll(ps, "", InitialFilters.(low := 0, high := AtMost(PriceCeiling(ps))));
  }
}
