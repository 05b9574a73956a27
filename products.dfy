/** The product listing: a case-insensitive search over name and description,
    an exact category filter, and a sort by one of five keys.  The sort works
    in place on an array, which is the shared catalogue array itself when
    neither filter ran. */
module Products {
  import opened Seqs
  import opened Ascii

  datatype Product = Product(
    id: string, name: string, description: string,
    price: real, comparePrice: real, image: string,
    rating: real, reviews: int, slug: string, category: string,
    isNew: bool, isFeatured: bool)

  /** The category entry that disables the category filter. */
  const AllCategories: string := "All Categories"

  // ---------------------------------------------------------------------------
  // Filters
  // ---------------------------------------------------------------------------

  /** `s.includes(t)`: `t` occurs in `s` as a contiguous piece. */
  predicate Contains(s: string, t: string)
  {
    exists i :: 0 <= i <= |s| && OccursAt(s, t, i)
  }

  /** `t` starts at position `i` of `s`. */
  predicate OccursAt(s: string, t: string, i: int)
  {
    0 <= i && i + |t| <= |s| && s[i..i + |t|] == t
  }

  /** Every string contains the empty string. */
  lemma ContainsEmpty(s: string)
    ensures Contains(s, [])
  {
    assert OccursAt(s, [], 0);
  }

  /** A string contains each piece it is assembled from. */
  lemma ContainsPiece(a: string, t: string, b: string)
    ensures Contains(a + t + b, t)
  {
    assert (a + t + b)[|a|..|a| + |t|] == t;
    assert OccursAt(a + t + b, t, |a|);
  }

  /** The search test: the lower-cased name or the lower-cased description
      contains the lower-cased query. */
  predicate MatchesQuery(query: string, p: Product)
  {
    Contains(Lower(p.name), Lower(query)) || Contains(Lower(p.description), Lower(query))
  }

  function Matches(query: string): Product -> bool
  {
    (p: Product) => MatchesQuery(query, p)
  }

  function InCategory(category: string): Product -> bool
  {
    (p: Product) => p.category == category
  }

  /** The search step: filters only when the query is non-empty. */
  function SearchFiltered(products: seq<Product>, query: string): seq<Product>
  {
    if query != [] then Filter(products, Matches(query)) else products
  }

  /** The category step: filters unless "All Categories" is selected. */
  function CategoryFiltered(products: seq<Product>, category: string): seq<Product>
  {
    if category != AllCategories then Filter(products, InCategory(category)) else products
  }

  /** The products the listing shows, before sorting. */
  function Filtered(products: seq<Product>, query: string, category: string): seq<Product>
  {
    CategoryFiltered(SearchFiltered(products, query), category)
  }

  /** Whether a product passes both filters. */
  predicate Passes(query: string, category: string, p: Product)
  {
    (query == [] || MatchesQuery(query, p)) && (category == AllCategories || p.category == category)
  }

  /** How many copies of each product the filters keep: all of them when it
      passes both filters, none otherwise. */
  lemma FilteredMultiplicity(products: seq<Product>, query: string, category: string, x: Product)
    ensures multiset(Filtered(products, query, category))[x] ==
      if Passes(query, category, x) then multiset(products)[x] else 0
  {
    var s := SearchFiltered(products, query);
    if query != [] {
      FilterMultiplicity(products, Matches(query), x);
    }
    if category != AllCategories {
      FilterMultiplicity(s, InCategory(category), x);
    }
  }

  /** A product is shown exactly when it is in the catalogue and passes both filters. */
  lemma FilteredMembership(products: seq<Product>, query: string, category: string, x: Product)
    ensures x in Filtered(products, query, category) <==> x in products && Passes(query, category, x)
  {
    FilteredMultiplicity(products, query, category, x);
  }

  /** The `if (searchQuery)` guard changes nothing about which products are
      listed: the empty query matches every product anyway. */
  lemma SearchGuardIsRedundant(products: seq<Product>, query: string)
    ensures SearchFiltered(products, query) == Filter(products, Matches(query))
  {
    if query == [] {
      forall i | 0 <= i < |products| ensures Matches(query)(products[i]) {
        ContainsEmpty(Lower(products[i].name));
      }
      FilterAllPass(products, Matches(query));
    }
  }

  /** The search ignores the case of the query. */
  lemma SearchIgnoresQueryCase(query: string, p: Product)
    ensures MatchesQuery(Lower(query), p) == MatchesQuery(query, p)
  {
    LowerOfLower(Lower(query));
  }

  /** A product whose lower-cased name has the lower-cased query inside it
      matches the query, whatever the case of either. */
  lemma NameWithQueryMatches(query: string, p: Product, a: string, b: string)
    requires Lower(p.name) == a + Lower(query) + b
    ensures MatchesQuery(query, p)
  {
    ContainsPiece(a, Lower(query), b);
  }

  // ---------------------------------------------------------------------------
  // Sort keys and comparators
  // ---------------------------------------------------------------------------

  datatype SortKey = Featured | PriceAsc | PriceDesc | Newest | ByRating

  /** The `switch (sortBy)`: the four named keys, and "featured" for anything else. */
  function ParseSortKey(sortBy: string): (key: SortKey)
    ensures key == PriceAsc <==> sortBy == "price-asc"
    ensures key == PriceDesc <==> sortBy == "price-desc"
    ensures key == Newest <==> sortBy == "newest"
    ensures key == ByRating <==> sortBy == "rating"
    ensures key == Featured <==>
      sortBy != "price-asc" && sortBy != "price-desc" && sortBy != "newest" && sortBy != "rating"
  {
    if sortBy == "price-asc" then PriceAsc
    else if sortBy == "price-desc" then PriceDesc
    else if sortBy == "newest" then Newest
    else if sortBy == "rating" then ByRating
    else Featured
  }

  function Flag(b: bool): real { if b then 1.0 else 0.0 }

  /** The comparator handed to `sort` for each key. */
  function Compare(key: SortKey, a: Product, b: Product): (c: real)
    ensures c == Rank(key, a) - Rank(key, b)
  {
    match key
    case PriceAsc => a.price - b.price
    case PriceDesc => b.price - a.price
    case Newest => Flag(b.isNew) - Flag(a.isNew)
    case ByRating => b.rating - a.rating
    case Featured => Flag(b.isFeatured) - Flag(a.isFeatured)
  }

  /** The number each comparator compares by: every comparator is the
      difference of the ranks, so it is a consistent total preorder. */
  function Rank(key: SortKey, p: Product): real
  {
    match key
    case PriceAsc => p.price
    case PriceDesc => -p.price
    case Newest => 1.0 - Flag(p.isNew)
    case ByRating => -p.rating
    case Featured => 1.0 - Flag(p.isFeatured)
  }

  /** Ordered as the comparator asks: ranks never decrease. */
  ghost predicate SortedBy(s: seq<Product>, key: SortKey)
  {
    forall i, j :: 0 <= i < j < |s| ==> Rank(key, s[i]) <= Rank(key, s[j])
  }

  /** What each sort order promises about the listing. */
  lemma SortedMeans(s: seq<Product>, key: SortKey, i: int, j: int)
    requires SortedBy(s, key) && 0 <= i < j < |s|
    ensures key == PriceAsc ==> s[i].price <= s[j].price
    ensures key == PriceDesc ==> s[i].price >= s[j].price
    ensures key == ByRating ==> s[i].rating >= s[j].rating
    ensures key == Newest ==> s[j].isNew ==> s[i].isNew
    ensures key == Featured ==> s[j].isFeatured ==> s[i].isFeatured
  {
    assert Rank(key, s[i]) <= Rank(key, s[j]);
  }

  // ---------------------------------------------------------------------------
  // In-place sort and the listing effect
  // ---------------------------------------------------------------------------

  /** `a.sort(comparator)`: reorders `a` in place so that the comparator never
      sees a pair out of order. */
  method SortProducts(a: array<Product>, key: SortKey)
    modifies a
    ensures SortedBy(a[..], key)
    ensures multiset(a[..]) == multiset(old(a[..]))
  {
    var i := 0;
    while i < a.Length
      invariant 0 <= i <= a.Length
      invariant SortedBy(a[..i], key)
      invariant multiset(a[..]) == multiset(old(a[..]))
    {
      InsertLast(a, i, key);
      i := i + 1;
    }
    assert a[..a.Length] == a[..];
  }

  /** Moves `a[i]` down past every larger element, so that `a[..i + 1]` is sorted. */
  method InsertLast(a: array<Product>, i: int, key: SortKey)
    requires 0 <= i < a.Length && SortedBy(a[..i], key)
    modifies a
    ensures SortedBy(a[..i + 1], key)
    ensures multiset(a[..]) == multiset(old(a[..]))
  {
    var j := i;
    SortedPrefixStarts(a[..], i, key);
    while j > 0 && Compare(key, a[j - 1], a[j]) > 0.0
      invariant 0 <= j <= i
      invariant SortedExcept(a[..], i, j, key) && BelowRest(a[..], i, j, key)
      invariant multiset(a[..]) == multiset(old(a[..]))
    {
      SwapKeepsOrder(a[..], i, j, key);
      SwapDown(a, j);
      j := j - 1;
    }
    InsertionEnds(a[..], i, j, key);
  }

  /** The pairs of `s[..n + 1]` that avoid position `j` are in order. */
  ghost predicate SortedExcept(s: seq<Product>, n: int, j: int, key: SortKey)
    requires n < |s|
  {
    forall p, q :: 0 <= p < q <= n && p != j && q != j ==> Rank(key, s[p]) <= Rank(key, s[q])
  }

  /** The element at `j` is no larger than any after it, up to `n`. */
  ghost predicate BelowRest(s: seq<Product>, n: int, j: int, key: SortKey)
    requires 0 <= j <= n < |s|
  {
    forall q :: j < q <= n ==> Rank(key, s[j]) <= Rank(key, s[q])
  }

  lemma SortedPrefixStarts(s: seq<Product>, i: int, key: SortKey)
    requires 0 <= i < |s| && SortedBy(s[..i], key)
    ensures SortedExcept(s, i, i, key) && BelowRest(s, i, i, key)
  {
    forall p, q | 0 <= p < q <= i && p != i && q != i
      ensures Rank(key, s[p]) <= Rank(key, s[q])
    {
      assert s[p] == s[..i][p] && s[q] == s[..i][q];
    }
  }

  /** Swapping the element at `j` with a larger one before it moves the gap down. */
  lemma SwapKeepsOrder(s: seq<Product>, n: int, j: int, key: SortKey)
    requires 0 < j <= n < |s|
    requires SortedExcept(s, n, j, key) && BelowRest(s, n, j, key)
    requires Rank(key, s[j - 1]) > Rank(key, s[j])
    ensures SortedExcept(s[j - 1 := s[j]][j := s[j - 1]], n, j - 1, key)
    ensures BelowRest(s[j - 1 := s[j]][j := s[j - 1]], n, j - 1, key)
  {
  }

  /** Once the element at `j` is no smaller than its left neighbour, the prefix is sorted. */
  lemma InsertionEnds(s: seq<Product>, n: int, j: int, key: SortKey)
    requires 0 <= j <= n < |s|
    requires SortedExcept(s, n, j, key) && BelowRest(s, n, j, key)
    requires j == 0 || Rank(key, s[j - 1]) <= Rank(key, s[j])
    ensures SortedBy(s[..n + 1], key)
  {
    forall p, q | 0 <= p < q <= n ensures Rank(key, s[p]) <= Rank(key, s[q]) {
      if p == j || q == j {
      } else if j < q && p < j {
        assert Rank(key, s[p]) <= Rank(key, s[j - 1]);
      }
    }
  }

  /** Exchanges `a[j - 1]` and `a[j]`. */
  method SwapDown(a: array<Product>, j: int)
    requires 0 < j < a.Length
    modifies a
    ensures a[..] == old(a[..])[j - 1 := old(a[j])][j := old(a[j - 1])]
    ensures multiset(a[..]) == multiset(old(a[..]))
  {
    a[j - 1], a[j] := a[j], a[j - 1];
  }

  /** An array holding the elements of `s`. */
  method FromSeq(s: seq<Product>) returns (a: array<Product>)
    ensures fresh(a) && a[..] == s
  {
    a := new Product[|s|](k requires 0 <= k < |s| => s[k]);
  }

  /** The listing effect: filter, then sort, and show the result.  When neither
      filter runs the sorted array is the catalogue array itself, reordered;
      otherwise it is a new array and the catalogue is untouched. */
  method FilterAndSort(allProducts: array<Product>, searchQuery: string, selectedCategory: string, sortBy: string)
    returns (shown: array<Product>)
    modifies allProducts
    ensures searchQuery == [] && selectedCategory == AllCategories ==> shown == allProducts
    ensures searchQuery != [] || selectedCategory != AllCategories ==>
      fresh(shown) && allProducts[..] == old(allProducts[..])
    ensures multiset(shown[..]) == multiset(Filtered(old(allProducts[..]), searchQuery, selectedCategory))
    ensures SortedBy(shown[..], ParseSortKey(sortBy))
  {
    var filtered := allProducts;
    if searchQuery != [] {
      filtered := FromSeq(Filter(filtered[..], Matches(searchQuery)));
    }
    if selectedCategory != AllCategories {
      filtered := FromSeq(Filter(filtered[..], InCategory(selectedCategory)));
    }
    SortProducts(filtered, ParseSortKey(sortBy));
    shown := filtered;
  }
}
