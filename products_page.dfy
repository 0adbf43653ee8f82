/** The product listing page: the visible list is the catalog filtered by
    category and price range, then sorted on a copy by the chosen mode. */
module ProductsPage {
  import opened Seqs

  /** A product as the listing page sees it. */
  datatype Listing = Listing(
    id: int,
    name: string,
    price: real,
    image: string,
    category: string,
    description: string)

  // ---------------------------------------------------------------------
  // Filtering
  // ---------------------------------------------------------------------

  /** The empty category string means "no category chosen". */
  predicate MatchesCategory(p: Listing, selectedCategory: string) {
    selectedCategory == "" || p.category == selectedCategory
  }

  /** Both ends of the price range are inclusive. */
  predicate MatchesPrice(p: Listing, low: real, high: real) {
    p.price >= low && p.price <= high
  }

  /** The predicate handed to `filter`: category and price must both match. */
  predicate Matches(p: Listing, selectedCategory: string, low: real, high: real) {
    MatchesCategory(p, selectedCategory) && MatchesPrice(p, low, high)
  }

  /** The three tests as values that `filter` can be given. */
  function CategoryTest(selectedCategory: string): Listing -> bool {
    p => MatchesCategory(p, selectedCategory)
  }

  function PriceTest(low: real, high: real): Listing -> bool {
    p => MatchesPrice(p, low, high)
  }

  function MatchTest(selectedCategory: string, low: real, high: real): Listing -> bool {
    p => Matches(p, selectedCategory, low, high)
  }

  function FilteredProducts(products: seq<Listing>, selectedCategory: string, low: real, high: real): seq<Listing> {
    Filter(products, MatchTest(selectedCategory, low, high))
  }

  /** Every product shown passes both tests, and every product that passes
      both tests is shown. */
  lemma FilteredExactly(products: seq<Listing>, selectedCategory: string, low: real, high: real)
    ensures forall i :: 0 <= i < |FilteredProducts(products, selectedCategory, low, high)| ==>
      var p := FilteredProducts(products, selectedCategory, low, high)[i];
      (selectedCategory == "" || p.category == selectedCategory) && low <= p.price <= high
    ensures forall i :: 0 <= i < |products| && Matches(products[i], selectedCategory, low, high) ==>
      products[i] in FilteredProducts(products, selectedCategory, low, high)
  {
  }

  /** The shown products keep the catalog's order. */
  lemma FilteredKeepsOrder(products: seq<Listing>, selectedCategory: string, low: real, high: real)
    ensures IsSubsequence(FilteredProducts(products, selectedCategory, low, high), products)
  {
    FilterIsSubsequence(products, MatchTest(selectedCategory, low, high));
  }

  /** The two tests commute: category then price, price then category, and
      the combined predicate all give the same list. */
  lemma FilterOrderIrrelevant(products: seq<Listing>, selectedCategory: string, low: real, high: real)
    ensures Filter(Filter(products, CategoryTest(selectedCategory)), PriceTest(low, high))
         == FilteredProducts(products, selectedCategory, low, high)
    ensures Filter(Filter(products, PriceTest(low, high)), CategoryTest(selectedCategory))
         == FilteredProducts(products, selectedCategory, low, high)
  {
    var byCategory, byPrice := CategoryTest(selectedCategory), PriceTest(low, high);
    var both := MatchTest(selectedCategory, low, high);
    FilterFilter(products, byCategory, byPrice, both);
    FilterFilter(products, byPrice, byCategory, both);
  }

  // ---------------------------------------------------------------------
  // Sorting
  // ---------------------------------------------------------------------

  /** Code-point lexicographic comparison of two strings: negative, zero or
      positive as `a` sorts before, equal to or after `b`. */
  function LexCompare(a: string, b: string): (r: int)
    ensures -1 <= r <= 1
  {
    if |a| == 0 && |b| == 0 then 0
    else if |a| == 0 then -1
    else if |b| == 0 then 1
    else if a[0] < b[0] then -1
    else if a[0] > b[0] then 1
    else LexCompare(a[1..], b[1..])
  }

  lemma {:induction false} LexAntisymmetric(a: string, b: string)
    ensures LexCompare(b, a) == -LexCompare(a, b)
  {
    if |a| > 0 && |b| > 0 && a[0] == b[0] {
      LexAntisymmetric(a[1..], b[1..]);
    }
  }

  lemma {:induction false} LexZeroIffEqual(a: string, b: string)
    ensures LexCompare(a, b) == 0 <==> a == b
  {
    if |a| > 0 && |b| > 0 && a[0] == b[0] {
      LexZeroIffEqual(a[1..], b[1..]);
      assert a == [a[0]] + a[1..] && b == [b[0]] + b[1..];
    }
  }

  lemma {:induction false} LexTransitive(a: string, b: string, c: string)
    requires LexCompare(a, b) <= 0 && LexCompare(b, c) <= 0
    ensures LexCompare(a, c) <= 0
  {
    if |a| > 0 && |b| > 0 && |c| > 0 && a[0] == b[0] && b[0] == c[0] {
      LexTransitive(a[1..], b[1..], c[1..]);
    }
  }

  /** The comparator passed to `sort`, selected by `sortBy`; any mode other
      than the four named ones (such as "featured") compares everything equal. */
  function Compare(sortBy: string, a: Listing, b: Listing): real {
    if sortBy == "price-asc" then a.price - b.price
    else if sortBy == "price-desc" then b.price - a.price
    else if sortBy == "name-asc" then LexCompare(a.name, b.name) as real
    else if sortBy == "name-desc" then LexCompare(b.name, a.name) as real
    else 0.0
  }

  /** The key the comparator looks at, as an equivalence: two products tie
      exactly when their keys are equal. */
  predicate SameKey(sortBy: string, a: Listing, b: Listing) {
    if sortBy == "price-asc" || sortBy == "price-desc" then a.price == b.price
    else if sortBy == "name-asc" || sortBy == "name-desc" then a.name == b.name
    else true
  }

  /** The comparator is consistent: antisymmetric, transitive, and it
      returns 0 exactly on ties of the key. */
  lemma CompareConsistent(sortBy: string, a: Listing, b: Listing, c: Listing)
    ensures Compare(sortBy, b, a) == -Compare(sortBy, a, b)
    ensures Compare(sortBy, a, b) == 0.0 <==> SameKey(sortBy, a, b)
    ensures Compare(sortBy, a, b) <= 0.0 && Compare(sortBy, b, c) <= 0.0 ==> Compare(sortBy, a, c) <= 0.0
  {
    LexAntisymmetric(a.name, b.name);
    LexZeroIffEqual(a.name, b.name);
    LexZeroIffEqual(b.name, a.name);
    if LexCompare(a.name, b.name) <= 0 && LexCompare(b.name, c.name) <= 0 {
      LexTransitive(a.name, b.name, c.name);
    }
    if LexCompare(c.name, b.name) <= 0 && LexCompare(b.name, a.name) <= 0 {
      LexTransitive(c.name, b.name, a.name);
    }
  }

  /** Places `x`, which came before every element of `s` in the input, in
      front of the first element it does not sort after. */
  function Insert(sortBy: string, x: Listing, s: seq<Listing>): (r: seq<Listing>)
    ensures |r| == |s| + 1
  {
    if |s| == 0 then [x]
    else if Compare(sortBy, x, s[0]) <= 0.0 then [x] + s
    else [s[0]] + Insert(sortBy, x, s[1..])
  }

  /** The stable sort of `s` by the comparator: the unique order that
      `Array.prototype.sort` produces on a copy of the filtered list. */
  function SortProducts(sortBy: string, s: seq<Listing>): (r: seq<Listing>)
    ensures |r| == |s|
  {
    if |s| == 0 then [] else Insert(sortBy, s[0], SortProducts(sortBy, s[1..]))
  }

  predicate SortedBy(sortBy: string, s: seq<Listing>) {
    forall i, j :: 0 <= i < j < |s| ==> Compare(sortBy, s[i], s[j]) <= 0.0
  }

  lemma {:induction false} InsertPermutes(sortBy: string, x: Listing, s: seq<Listing>)
    ensures multiset(Insert(sortBy, x, s)) == multiset(s) + multiset{x}
  {
    if |s| > 0 && Compare(sortBy, x, s[0]) > 0.0 {
      InsertPermutes(sortBy, x, s[1..]);
      assert s == [s[0]] + s[1..];
    }
  }

  /** The sorted list is a permutation of the filtered one. */
  lemma {:induction false} SortPermutes(sortBy: string, s: seq<Listing>)
    ensures multiset(SortProducts(sortBy, s)) == multiset(s)
  {
    if |s| > 0 {
      SortPermutes(sortBy, s[1..]);
      InsertPermutes(sortBy, s[0], SortProducts(sortBy, s[1..]));
      assert s == [s[0]] + s[1..];
    }
  }

  lemma {:induction false} InsertSorted(sortBy: string, x: Listing, s: seq<Listing>)
    requires SortedBy(sortBy, s)
    ensures SortedBy(sortBy, Insert(sortBy, x, s))
  {
    if |s| == 0 {
    } else if Compare(sortBy, x, s[0]) <= 0.0 {
      var r := [x] + s;
      forall i, j | 0 <= i < j < |r| ensures Compare(sortBy, r[i], r[j]) <= 0.0 {
        if i == 0 && j > 1 {
          CompareConsistent(sortBy, x, s[0], s[j - 1]);
        }
      }
    } else {
      var t := Insert(sortBy, x, s[1..]);
      InsertSorted(sortBy, x, s[1..]);
      InsertPermutes(sortBy, x, s[1..]);
      CompareConsistent(sortBy, x, s[0], s[0]);
      var r := [s[0]] + t;
      forall i, j | 0 <= i < j < |r| ensures Compare(sortBy, r[i], r[j]) <= 0.0 {
        if i == 0 {
          assert r[j] in multiset(t);
          assert r[j] == x || r[j] in s[1..];
        }
      }
    }
  }

  /** The sorted list is ordered by the comparator. */
  lemma {:induction false} SortSorted(sortBy: string, s: seq<Listing>)
    ensures SortedBy(sortBy, SortProducts(sortBy, s))
  {
    if |s| > 0 {
      SortSorted(sortBy, s[1..]);
      InsertSorted(sortBy, s[0], SortProducts(sortBy, s[1..]));
    }
  }

  /** "price-asc" yields non-decreasing prices, "price-desc" non-increasing ones. */
  lemma PriceModesOrdered(s: seq<Listing>)
    ensures forall i, j :: 0 <= i < j < |s| ==>
      SortProducts("price-asc", s)[i].price <= SortProducts("price-asc", s)[j].price
    ensures forall i, j :: 0 <= i < j < |s| ==>
      SortProducts("price-desc", s)[i].price >= SortProducts("price-desc", s)[j].price
  {
    SortSorted("price-asc", s);
    SortSorted("price-desc", s);
  }

  /** "name-asc" and "name-desc" order names by the string comparison. */
  lemma NameModesOrdered(s: seq<Listing>)
    ensures forall i, j :: 0 <= i < j < |s| ==>
      LexCompare(SortProducts("name-asc", s)[i].name, SortProducts("name-asc", s)[j].name) <= 0
    ensures forall i, j :: 0 <= i < j < |s| ==>
      LexCompare(SortProducts("name-desc", s)[j].name, SortProducts("name-desc", s)[i].name) <= 0
  {
    SortSorted("name-asc", s);
    SortSorted("name-desc", s);
  }

  /** "featured" and every unrecognised mode leave the filtered order as it is. */
  lemma {:induction false} UnrecognisedModeKeepsOrder(sortBy: string, s: seq<Listing>)
    requires sortBy !in {"price-asc", "price-desc", "name-asc", "name-desc"}
    ensures SortProducts(sortBy, s) == s
  {
    if |s| > 0 {
      UnrecognisedModeKeepsOrder(sortBy, s[1..]);
      assert [s[0]] + s[1..] == s;
    }
  }

  /** The products whose key ties with `k`'s. */
  function TiesWith(sortBy: string, k: Listing): Listing -> bool {
    p => SameKey(sortBy, p, k)
  }

  lemma {:induction false} InsertTies(sortBy: string, x: Listing, s: seq<Listing>, k: Listing)
    ensures Filter(Insert(sortBy, x, s), TiesWith(sortBy, k))
         == if SameKey(sortBy, x, k) then [x] + Filter(s, TiesWith(sortBy, k)) else Filter(s, TiesWith(sortBy, k))
  {
    var tie := TiesWith(sortBy, k);
    if |s| == 0 {
    } else if Compare(sortBy, x, s[0]) <= 0.0 {
      assert ([x] + s)[1..] == s;
    } else {
      InsertTies(sortBy, x, s[1..], k);
      CompareConsistent(sortBy, x, s[0], s[0]);
      assert ([s[0]] + Insert(sortBy, x, s[1..]))[1..] == Insert(sortBy, x, s[1..]);
      assert SameKey(sortBy, x, k) ==> !tie(s[0]);
    }
  }

  /** The sort is stable: the products that tie on the key appear in the
      sorted list in the same relative order as in the filtered list. */
  lemma {:induction false} SortStable(sortBy: string, s: seq<Listing>, k: Listing)
    ensures Filter(SortProducts(sortBy, s), TiesWith(sortBy, k)) == Filter(s, TiesWith(sortBy, k))
  {
    if |s| > 0 {
      SortStable(sortBy, s[1..], k);
      InsertTies(sortBy, s[0], SortProducts(sortBy, s[1..]), k);
    }
  }

  /** What the page shows: the filtered catalog, sorted on a copy. */
  function VisibleProducts(products: seq<Listing>, selectedCategory: string, low: real, high: real, sortBy: string): seq<Listing> {
    SortProducts(sortBy, FilteredProducts(products, selectedCategory, low, high))
  }

  /** The shown products are exactly the matching ones, counted with
      multiplicity, in comparator order. */
  lemma VisibleProductsCorrect(products: seq<Listing>, selectedCategory: string, low: real, high: real, sortBy: string)
    ensures multiset(VisibleProducts(products, selectedCategory, low, high, sortBy))
         == multiset(FilteredProducts(products, selectedCategory, low, high))
    ensures SortedBy(sortBy, VisibleProducts(products, selectedCategory, low, high, sortBy))
    ensures forall p :: p in VisibleProducts(products, selectedCategory, low, high, sortBy) <==>
      p in products && Matches(p, selectedCategory, low, high)
  {
    var filtered := FilteredProducts(products, selectedCategory, low, high);
    SortPermutes(sortBy, filtered);
    SortSorted(sortBy, filtered);
    forall p ensures p in VisibleProducts(products, selectedCategory, low, high, sortBy) <==> p in filtered {
      assert p in multiset(VisibleProducts(products, selectedCategory, low, high, sortBy)) <==> p in multiset(filtered);
    }
  }

  /** The page's two mock products. */
  function SampleProducts(): seq<Listing> {
    [ Listing(1, "Product 1", 99.99, "https://via.placeholder.com/300", "Electronics", "This is a product description."),
      Listing(2, "Product 2", 149.99, "https://via.placeholder.com/300", "Clothing", "Another product description.") ]
  }

  /** With the default slider range and "featured", both mock products show in
      catalog order; choosing "Clothing" leaves only the second. */
  lemma SampleView()
    ensures VisibleProducts(SampleProducts(), "", 0.0, 1000.0, "featured") == SampleProducts()
    ensures VisibleProducts(SampleProducts(), "Clothing", 0.0, 1000.0, "featured") == [SampleProducts()[1]]
    ensures VisibleProducts(SampleProducts(), "", 0.0, 1000.0, "price-desc") == [SampleProducts()[1], SampleProducts()[0]]
  {
    var s := SampleProducts();
    assert s[1..][1..] == [];
    UnrecognisedModeKeepsOrder("featured", s);
    UnrecognisedModeKeepsOrder("featured", [s[1]]);
  }
}
