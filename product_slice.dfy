/** The catalog store: the product list, a separately held copy of the
    selected product, the filter record and the loading and error flags,
    with one state transition per reducer. */
module ProductSlice {
  import opened Seqs

  datatype Status = Active | Inactive

  datatype Review = Review(id: int, userId: int, rating: int, comment: string, date: string)

  datatype Product = Product(
    id: int,
    name: string,
    price: real,
    description: string,
    image: string,
    category: string,
    stock: int,
    status: Status,
    rating: real,
    reviews: seq<Review>)

  datatype Filters = Filters(category: Option<string>, minPrice: Option<real>, maxPrice: Option<real>, sortBy: string)

  /** A partial filter record: `None` marks a field the caller left out;
      `Some(None)` explicitly sets a nullable field to null. */
  datatype FiltersPatch = FiltersPatch(
    category: Option<Option<string>>,
    minPrice: Option<Option<real>>,
    maxPrice: Option<Option<real>>,
    sortBy: Option<string>)

  const InitialFilters: Filters := Filters(None, None, None, "featured")

  const EmptyPatch: FiltersPatch := FiltersPatch(None, None, None, None)

  // ---------------------------------------------------------------------
  // Lookup
  // ---------------------------------------------------------------------

  /** `findIndex` by id: the first position holding that id, or -1. */
  function FindIndex(ps: seq<Product>, id: int): (r: int)
    ensures -1 <= r < |ps|
    ensures r == -1 <==> forall k :: 0 <= k < |ps| ==> ps[k].id != id
    ensures 0 <= r ==> ps[r].id == id && forall k :: 0 <= k < r ==> ps[k].id != id
  {
    if |ps| == 0 then -1
    else if ps[0].id == id then 0
    else
      var k := FindIndex(ps[1..], id);
      if k == -1 then -1 else k + 1
  }

  /** The first match depends only on where the id occurs. */
  lemma FindIndexSameMatches(ps: seq<Product>, qs: seq<Product>, id: int)
    requires |ps| == |qs|
    requires forall k :: 0 <= k < |ps| ==> (ps[k].id == id <==> qs[k].id == id)
    ensures FindIndex(ps, id) == FindIndex(qs, id)
  {
  }

  // ---------------------------------------------------------------------
  // Ratings
  // ---------------------------------------------------------------------

  /** `reduce((sum, r) => sum + r.rating, 0)` over the reviews. */
  function TotalRating(reviews: seq<Review>): int {
    if |reviews| == 0 then 0
    else TotalRating(reviews[..|reviews| - 1]) + reviews[|reviews| - 1].rating
  }

  /** The mean rating; only ever taken after a review was appended, so the
      list is not empty. */
  function AverageRating(reviews: seq<Review>): real
    requires |reviews| > 0
  {
    TotalRating(reviews) as real / |reviews| as real
  }

  /** Appends the review and recomputes the rating from all reviews. */
  function WithReview(p: Product, review: Review): Product {
    var reviews := p.reviews + [review];
    p.(reviews := reviews, rating := AverageRating(reviews))
  }

  predicate RatingInScale(reviews: seq<Review>) {
    forall i :: 0 <= i < |reviews| ==> 1 <= reviews[i].rating <= 5
  }

  lemma {:induction false} TotalRatingBounds(reviews: seq<Review>)
    requires RatingInScale(reviews)
    ensures |reviews| <= TotalRating(reviews) <= 5 * |reviews|
  {
    if |reviews| > 0 {
      TotalRatingBounds(reviews[..|reviews| - 1]);
    }
  }

  /** With ratings from 1 to 5, the mean is between 1 and 5. */
  lemma AverageInScale(reviews: seq<Review>)
    requires |reviews| > 0 && RatingInScale(reviews)
    ensures 1.0 <= AverageRating(reviews) <= 5.0
  {
    TotalRatingBounds(reviews);
    QuotientBounds(TotalRating(reviews) as real, |reviews| as real, 1.0, 5.0);
  }

  lemma QuotientBounds(t: real, n: real, low: real, high: real)
    requires n > 0.0 && low * n <= t <= high * n
    ensures low <= t / n <= high
  {
    var q := t / n;
    assert q * n == t;
  }

  /** The recomputed mean equals the incremental `(sum, count)` update of
      the previous mean. */
  lemma RunningAverage(reviews: seq<Review>, review: Review)
    requires |reviews| > 0
    ensures AverageRating(reviews + [review])
         == (AverageRating(reviews) * |reviews| as real + review.rating as real) / (|reviews| + 1) as real
  {
    assert (reviews + [review])[..|reviews|] == reviews;
    var n := |reviews| as real;
    var t := TotalRating(reviews) as real;
    assert (t / n) * n == t;
  }

  /** A review is appended last and the rating becomes the mean of the new
      list; nothing else about the product changes. */
  lemma WithReviewAppends(p: Product, review: Review)
    ensures WithReview(p, review).reviews == p.reviews + [review]
    ensures |WithReview(p, review).reviews| == |p.reviews| + 1
    ensures WithReview(p, review).rating
         == (TotalRating(p.reviews) + review.rating) as real / (|p.reviews| + 1) as real
    ensures WithReview(p, review).(rating := p.rating, reviews := p.reviews) == p
  {
    assert (p.reviews + [review])[..|p.reviews|] == p.reviews;
  }

  /** Reviews added one after another. */
  function WithReviews(p: Product, reviews: seq<Review>): Product {
    if |reviews| == 0 then p
    else WithReview(WithReviews(p, reviews[..|reviews| - 1]), reviews[|reviews| - 1])
  }

  /** After any non-empty run of reviews, the rating is the exact mean of all
      the product's ratings; starting from no reviews, of the appended ones. */
  lemma {:induction false} WithReviewsMean(p: Product, reviews: seq<Review>)
    ensures WithReviews(p, reviews).reviews == p.reviews + reviews
    ensures |reviews| > 0 ==> WithReviews(p, reviews).rating == AverageRating(p.reviews + reviews)
    ensures WithReviews(p, reviews).id == p.id
  {
    if |reviews| > 0 {
      var init := reviews[..|reviews| - 1];
      WithReviewsMean(p, init);
      assert p.reviews + init + [reviews[|reviews| - 1]] == p.reviews + reviews;
    }
  }

  // ---------------------------------------------------------------------
  // List transitions
  // ---------------------------------------------------------------------

  /** `updateProduct` on the list: the first product with the payload's id
      is replaced in place. */
  function UpdatedProducts(ps: seq<Product>, p: Product): (r: seq<Product>)
    ensures |r| == |ps|
    ensures FindIndex(ps, p.id) == -1 ==> r == ps
    ensures FindIndex(ps, p.id) != -1 ==> r == ps[FindIndex(ps, p.id) := p]
  {
    if |ps| == 0 then []
    else if ps[0].id == p.id then [p] + ps[1..]
    else
      var rest := UpdatedProducts(ps[1..], p);
      assert FindIndex(ps[1..], p.id) != -1 ==> [ps[0]] + rest == ps[FindIndex(ps, p.id) := p];
      [ps[0]] + rest
  }

  /** `addReview` on the list: the first product with that id gets the review. */
  function ReviewedProducts(ps: seq<Product>, id: int, review: Review): (r: seq<Product>)
    ensures |r| == |ps|
    ensures FindIndex(ps, id) == -1 ==> r == ps
    ensures FindIndex(ps, id) != -1 ==> r == ps[FindIndex(ps, id) := WithReview(ps[FindIndex(ps, id)], review)]
  {
    if |ps| == 0 then []
    else if ps[0].id == id then [WithReview(ps[0], review)] + ps[1..]
    else
      var rest := ReviewedProducts(ps[1..], id, review);
      assert FindIndex(ps[1..], id) != -1 ==>
        [ps[0]] + rest == ps[FindIndex(ps, id) := WithReview(ps[FindIndex(ps, id)], review)];
      [ps[0]] + rest
  }

  function IdIsNot(id: int): Product -> bool {
    (q: Product) => q.id != id
  }

  /** `deleteProduct` on the list: filters out every product with that id. */
  function WithoutId(ps: seq<Product>, id: int): seq<Product> {
    Filter(ps, IdIsNot(id))
  }

  /** No product with the id survives, every other one does, in its old
      relative order, and deleting an absent id changes nothing. */
  lemma WithoutIdExactly(ps: seq<Product>, id: int)
    ensures forall i :: 0 <= i < |WithoutId(ps, id)| ==> WithoutId(ps, id)[i].id != id
    ensures forall i :: 0 <= i < |ps| && ps[i].id != id ==> ps[i] in WithoutId(ps, id)
    ensures IsSubsequence(WithoutId(ps, id), ps)
    ensures FindIndex(ps, id) == -1 ==> WithoutId(ps, id) == ps
  {
    FilterIsSubsequence(ps, IdIsNot(id));
    if FindIndex(ps, id) == -1 {
      FilterKeepsAll(ps, IdIsNot(id));
    }
  }

  /** `findIndex` on a list with one product in front. */
  lemma FindIndexCons(q: Product, ps: seq<Product>, id: int)
    ensures FindIndex([q] + ps, id)
         == if q.id == id then 0 else if FindIndex(ps, id) == -1 then -1 else FindIndex(ps, id) + 1
  {
    assert ([q] + ps)[1..] == ps;
  }

  /** Deleting one id does not change which product another id finds first. */
  lemma {:induction false} WithoutIdKeepsFirstMatch(ps: seq<Product>, id: int, other: int)
    requires id != other
    ensures FindIndex(WithoutId(ps, id), other) == -1 <==> FindIndex(ps, other) == -1
    ensures FindIndex(ps, other) != -1 ==>
      WithoutId(ps, id)[FindIndex(WithoutId(ps, id), other)] == ps[FindIndex(ps, other)]
  {
    if |ps| > 0 {
      var rest := WithoutId(ps[1..], id);
      WithoutIdKeepsFirstMatch(ps[1..], id, other);
      FindIndexCons(ps[0], ps[1..], other);
      assert ps == [ps[0]] + ps[1..];
      if ps[0].id == id {
        assert WithoutId(ps, id) == rest;
      } else {
        assert WithoutId(ps, id) == [ps[0]] + rest;
        FindIndexCons(ps[0], rest, other);
      }
    }
  }

  function SelectionAfterUpdate(sel: Option<Product>, p: Product): Option<Product> {
    if sel.Some? && sel.value.id == p.id then Some(p) else sel
  }

  function SelectionAfterDelete(sel: Option<Product>, id: int): Option<Product> {
    if sel.Some? && sel.value.id == id then None else sel
  }

  function SelectionAfterReview(sel: Option<Product>, id: int, review: Review): Option<Product> {
    if sel.Some? && sel.value.id == id then Some(WithReview(sel.value, review)) else sel
  }

  // ---------------------------------------------------------------------
  // Coherence of the selection mirror
  // ---------------------------------------------------------------------

  /** The selected copy agrees with the list entry its id finds, if any. */
  predicate Coherent(ps: seq<Product>, sel: Option<Product>) {
    sel.Some? && FindIndex(ps, sel.value.id) != -1 ==> ps[FindIndex(ps, sel.value.id)] == sel.value
  }

  /** `updateProduct` writes both copies, so they stay in agreement. */
  lemma UpdateKeepsCoherent(ps: seq<Product>, sel: Option<Product>, p: Product)
    requires Coherent(ps, sel)
    ensures Coherent(UpdatedProducts(ps, p), SelectionAfterUpdate(sel, p))
  {
    var ps' := UpdatedProducts(ps, p);
    if sel.Some? && FindIndex(ps, p.id) != -1 {
      FindIndexSameMatches(ps, ps', sel.value.id);
    }
  }

  /** `addReview` appends to both copies, so they stay in agreement. */
  lemma ReviewKeepsCoherent(ps: seq<Product>, sel: Option<Product>, id: int, review: Review)
    requires Coherent(ps, sel)
    ensures Coherent(ReviewedProducts(ps, id, review), SelectionAfterReview(sel, id, review))
  {
    var ps' := ReviewedProducts(ps, id, review);
    if sel.Some? {
      FindIndexSameMatches(ps, ps', sel.value.id);
    }
  }

  /** `deleteProduct` either clears the selection or leaves its list entry alone. */
  lemma DeleteKeepsCoherent(ps: seq<Product>, sel: Option<Product>, id: int)
    requires Coherent(ps, sel)
    ensures Coherent(WithoutId(ps, id), SelectionAfterDelete(sel, id))
  {
    if sel.Some? && sel.value.id != id {
      WithoutIdKeepsFirstMatch(ps, id, sel.value.id);
    }
  }

  /** `addProduct` keeps agreement unless it appends a different product
      under the selected id while that id is not yet listed (there is no
      duplicate-id check). */
  lemma AppendKeepsCoherent(ps: seq<Product>, sel: Option<Product>, p: Product)
    requires Coherent(ps, sel)
    requires sel.None? || sel.value.id != p.id || FindIndex(ps, p.id) != -1 || sel.value == p
    ensures Coherent(ps + [p], sel)
  {
    if sel.Some? {
      var id := sel.value.id;
      var i := FindIndex(ps + [p], id);
      if FindIndex(ps, id) != -1 {
        FindIndexSameMatches(ps, (ps + [p])[..|ps|], id);
        assert (ps + [p])[..|ps|] == ps;
        assert i == FindIndex(ps, id);
      }
    }
  }

  /** If the selected copy and the list entry had the same reviews, one
      `addReview` for that id leaves them with the same reviews and rating. */
  lemma ReviewMirrorsAgree(ps: seq<Product>, sel: Product, review: Review)
    requires FindIndex(ps, sel.id) != -1
    requires ps[FindIndex(ps, sel.id)].reviews == sel.reviews
    ensures var entry := ReviewedProducts(ps, sel.id, review)[FindIndex(ps, sel.id)];
      var copy := SelectionAfterReview(Some(sel), sel.id, review).value;
      entry.reviews == copy.reviews == sel.reviews + [review] && entry.rating == copy.rating
  {
  }

  // ---------------------------------------------------------------------
  // Filters
  // ---------------------------------------------------------------------

  function Pick<T>(supplied: Option<T>, current: T): T {
    if supplied.Some? then supplied.value else current
  }

  /** `{ ...filters, ...patch }`. */
  function MergeFilters(f: Filters, patch: FiltersPatch): Filters {
    Filters(Pick(patch.category, f.category), Pick(patch.minPrice, f.minPrice),
            Pick(patch.maxPrice, f.maxPrice), Pick(patch.sortBy, f.sortBy))
  }

  /** Supplied fields override, absent ones keep their value; merging is
      idempotent and the empty patch changes nothing. */
  lemma MergeFiltersFields(f: Filters, patch: FiltersPatch)
    ensures MergeFilters(f, patch).category == if patch.category.Some? then patch.category.value else f.category
    ensures MergeFilters(f, patch).minPrice == if patch.minPrice.Some? then patch.minPrice.value else f.minPrice
    ensures MergeFilters(f, patch).maxPrice == if patch.maxPrice.Some? then patch.maxPrice.value else f.maxPrice
    ensures MergeFilters(f, patch).sortBy == if patch.sortBy.Some? then patch.sortBy.value else f.sortBy
    ensures MergeFilters(MergeFilters(f, patch), patch) == MergeFilters(f, patch)
    ensures MergeFilters(f, EmptyPatch) == f
  {
  }

  // ---------------------------------------------------------------------
  // The store
  // ---------------------------------------------------------------------

  class ProductStore {
    var products: seq<Product>
    var selectedProduct: Option<Product>
    var loading: bool
    var error: Option<string>
    var filters: Filters

    predicate MirrorCoherent()
      reads this
    {
      Coherent(products, selectedProduct)
    }

    /** `initialState`. */
    constructor ()
      ensures products == [] && selectedProduct == None
      ensures !loading && error == None && filters == InitialFilters
      ensures MirrorCoherent()
    {
      products := [];
      selectedProduct := None;
      loading := false;
      error := None;
      filters := InitialFilters;
    }

    method SetProducts(ps: seq<Product>)
      modifies this
      ensures products == ps
      ensures selectedProduct == old(selectedProduct) && loading == old(loading)
      ensures error == old(error) && filters == old(filters)
    {
      products := ps;
    }

    method SetSelectedProduct(p: Option<Product>)
      modifies this
      ensures selectedProduct == p
      ensures products == old(products) && loading == old(loading)
      ensures error == old(error) && filters == old(filters)
    {
      selectedProduct := p;
    }

    /** Appends without any duplicate-id check. */
    method AddProduct(p: Product)
      modifies this
      ensures products == old(products) + [p]
      ensures |products| == |old(products)| + 1
      ensures selectedProduct == old(selectedProduct) && loading == old(loading)
      ensures error == old(error) && filters == old(filters)
      ensures old(MirrorCoherent()) &&
        (selectedProduct.None? || selectedProduct.value.id != p.id ||
         FindIndex(old(products), p.id) != -1 || selectedProduct.value == p)
        ==> MirrorCoherent()
    {
      if Coherent(products, selectedProduct) &&
         (selectedProduct.None? || selectedProduct.value.id != p.id ||
          FindIndex(products, p.id) != -1 || selectedProduct.value == p) {
        AppendKeepsCoherent(products, selectedProduct, p);
      }
      products := products + [p];
    }

    /** Replaces the first product with the payload's id at its index, and
      the selected copy whenever its id is the payload's. */
    method UpdateProduct(p: Product)
      modifies this
      ensures products == UpdatedProducts(old(products), p)
      ensures |products| == |old(products)|
      ensures FindIndex(old(products), p.id) == -1 ==> products == old(products)
      ensures FindIndex(old(products), p.id) != -1 ==> products == old(products)[FindIndex(old(products), p.id) := p]
      ensures old(selectedProduct).Some? && old(selectedProduct).value.id == p.id ==> selectedProduct == Some(p)
      ensures !(old(selectedProduct).Some? && old(selectedProduct).value.id == p.id) ==>
        selectedProduct == old(selectedProduct)
      ensures loading == old(loading) && error == old(error) && filters == old(filters)
      ensures old(MirrorCoherent()) ==> MirrorCoherent()
    {
      if Coherent(products, selectedProduct) {
        UpdateKeepsCoherent(products, selectedProduct, p);
      }
      var index := FindIndex(products, p.id);
      if index != -1 {
        products := products[index := p];
      }
      if selectedProduct.Some? && selectedProduct.value.id == p.id {
        selectedProduct := Some(p);
      }
    }

    /** Filters out every product with the id and clears a matching selection. */
    method DeleteProduct(id: int)
      modifies this
      ensures products == WithoutId(old(products), id)
      ensures forall i :: 0 <= i < |products| ==> products[i].id != id
      ensures IsSubsequence(products, old(products))
      ensures FindIndex(old(products), id) == -1 ==> products == old(products)
      ensures old(selectedProduct).Some? && old(selectedProduct).value.id == id ==> selectedProduct == None
      ensures !(old(selectedProduct).Some? && old(selectedProduct).value.id == id) ==>
        selectedProduct == old(selectedProduct)
      ensures loading == old(loading) && error == old(error) && filters == old(filters)
      ensures old(MirrorCoherent()) ==> MirrorCoherent()
    {
      WithoutIdExactly(products, id);
      if Coherent(products, selectedProduct) {
        DeleteKeepsCoherent(products, selectedProduct, id);
      }
      products := WithoutId(products, id);
      if selectedProduct.Some? && selectedProduct.value.id == id {
        selectedProduct := None;
      }
    }

    method SetLoading(value: bool)
      modifies this
      ensures loading == value
      ensures products == old(products) && selectedProduct == old(selectedProduct)
      ensures error == old(error) && filters == old(filters)
    {
      loading := value;
    }

    method SetError(message: Option<string>)
      modifies this
      ensures error == message
      ensures products == old(products) && selectedProduct == old(selectedProduct)
      ensures loading == old(loading) && filters == old(filters)
    {
      error := message;
    }

    method SetFilters(patch: FiltersPatch)
      modifies this
      ensures filters == MergeFilters(old(filters), patch)
      ensures products == old(products) && selectedProduct == old(selectedProduct)
      ensures loading == old(loading) && error == old(error)
    {
      filters := MergeFilters(filters, patch);
    }

    method ClearFilters()
      modifies this
      ensures filters == Filters(None, None, None, "featured")
      ensures products == old(products) && selectedProduct == old(selectedProduct)
      ensures loading == old(loading) && error == old(error)
    {
      filters := InitialFilters;
    }

    /** Appends the review to the first product with that id and, separately,
      to the selected copy when its id matches; each recomputes its rating. */
    method AddReview(productId: int, review: Review)
      modifies this
      ensures products == ReviewedProducts(old(products), productId, review)
      ensures FindIndex(old(products), productId) == -1 ==> products == old(products)
      ensures FindIndex(old(products), productId) != -1 ==>
        var i := FindIndex(old(products), productId);
        products == old(products)[i := WithReview(old(products)[i], review)] &&
        products[i].reviews == old(products)[i].reviews + [review] &&
        products[i].rating == AverageRating(products[i].reviews)
      ensures old(selectedProduct).Some? && old(selectedProduct).value.id == productId ==>
        selectedProduct == Some(WithReview(old(selectedProduct).value, review))
      ensures !(old(selectedProduct).Some? && old(selectedProduct).value.id == productId) ==>
        selectedProduct == old(selectedProduct)
      ensures loading == old(loading) && error == old(error) && filters == old(filters)
      ensures old(MirrorCoherent()) ==> MirrorCoherent()
    {
      if Coherent(products, selectedProduct) {
        ReviewKeepsCoherent(products, selectedProduct, productId, review);
      }
      var index := FindIndex(products, productId);
      if index != -1 {
        products := products[index := WithReview(products[index], review)];
      }
      if selectedProduct.Some? && selectedProduct.value.id == productId {
        selectedProduct := Some(WithReview(selectedProduct.value, review));
      }
    }
  }
}
