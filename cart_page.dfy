/** The shopping cart page: a list of cart lines held as page state, two
    handlers that replace it, and the price summary derived from it.
    Money is exact: prices and totals are `real`. */
module CartPage {
  import opened Seqs

  datatype CartItem = CartItem(id: int, name: string, price: real, image: string, quantity: int)

  /** The page's initial lines: two of "Product 1" and one of "Product 2". */
  function InitialItems(): seq<CartItem> {
    [ CartItem(1, "Product 1", 99.99, "https://via.placeholder.com/100", 2),
      CartItem(2, "Product 2", 149.99, "https://via.placeholder.com/100", 1) ]
  }

  function Max(a: int, b: int): int {
    if a >= b then a else b
  }

  /** Every line holds at least one unit. */
  predicate QuantitiesPositive(items: seq<CartItem>) {
    forall i :: 0 <= i < |items| ==> items[i].quantity >= 1
  }

  // ---------------------------------------------------------------------
  // The two handlers, as functions of the previous lines
  // ---------------------------------------------------------------------

  /** The line with its quantity moved by `change`, never below 1. */
  function ChangeQuantity(item: CartItem, change: int): (r: CartItem)
    ensures r.quantity >= 1
    ensures r.quantity >= item.quantity + change
    ensures item.quantity + change >= 1 ==> r.quantity == item.quantity + change
    ensures item.quantity + change < 1 ==> r.quantity == 1
    ensures r == item.(quantity := r.quantity)
  {
    item.(quantity := Max(1, item.quantity + change))
  }

  /** Decrementing a single unit, or a change of -100 on one unit, leaves one
      unit; incrementing adds one. */
  lemma ClampExamples(item: CartItem)
    requires item.quantity == 1
    ensures ChangeQuantity(item, -1).quantity == 1
    ensures ChangeQuantity(item, -100).quantity == 1
    ensures ChangeQuantity(item, 1).quantity == 2
  {
  }

  /** `map` over the lines: each line with id `id` gets the clamped quantity,
      every other line is kept as it is. */
  function QuantityChanged(items: seq<CartItem>, id: int, change: int): (r: seq<CartItem>)
    ensures |r| == |items|
    ensures forall i :: 0 <= i < |items| ==>
      r[i] == if items[i].id == id then ChangeQuantity(items[i], change) else items[i]
  {
    if |items| == 0 then []
    else [if items[0].id == id then ChangeQuantity(items[0], change) else items[0]]
         + QuantityChanged(items[1..], id, change)
  }

  /** A quantity change keeps the lines, their ids and their order; only
      quantities move, and a matched line holds at least one unit afterwards. */
  lemma QuantityChangeKeepsLines(items: seq<CartItem>, id: int, change: int)
    ensures var r := QuantityChanged(items, id, change);
      |r| == |items| &&
      (forall i :: 0 <= i < |items| ==> r[i].id == items[i].id && r[i].price == items[i].price) &&
      (forall i :: 0 <= i < |items| && items[i].id == id ==> r[i].quantity >= 1)
  {
  }

  /** No line has the id: nothing changes, and no line is added. */
  lemma {:induction false} QuantityChangeAbsentId(items: seq<CartItem>, id: int, change: int)
    requires forall i :: 0 <= i < |items| ==> items[i].id != id
    ensures QuantityChanged(items, id, change) == items
  {
    var r := QuantityChanged(items, id, change);
    assert forall i :: 0 <= i < |items| ==> r[i] == items[i];
  }

  /** Positive quantities stay positive under any change, however negative. */
  lemma QuantityChangeKeepsPositive(items: seq<CartItem>, id: int, change: int)
    requires QuantitiesPositive(items)
    ensures QuantitiesPositive(QuantityChanged(items, id, change))
  {
  }

  /** `filter` on the lines: drops every line with id `id`. */
  function ItemsWithout(items: seq<CartItem>, id: int): seq<CartItem> {
    Filter(items, (item: CartItem) => item.id != id)
  }

  /** Removal drops exactly the lines with that id and keeps the rest in order. */
  lemma RemoveItemExactly(items: seq<CartItem>, id: int)
    ensures forall i :: 0 <= i < |ItemsWithout(items, id)| ==> ItemsWithout(items, id)[i].id != id
    ensures forall i :: 0 <= i < |items| && items[i].id != id ==> items[i] in ItemsWithout(items, id)
    ensures IsSubsequence(ItemsWithout(items, id), items)
    ensures (forall i :: 0 <= i < |items| ==> items[i].id != id) ==> ItemsWithout(items, id) == items
  {
    FilterIsSubsequence(items, (item: CartItem) => item.id != id);
    if forall i :: 0 <= i < |items| ==> items[i].id != id {
      FilterKeepsAll(items, (item: CartItem) => item.id != id);
    }
  }

  /** Removal keeps quantities positive. */
  lemma RemoveItemKeepsPositive(items: seq<CartItem>, id: int)
    requires QuantitiesPositive(items)
    ensures QuantitiesPositive(ItemsWithout(items, id))
  {
  }

  // ---------------------------------------------------------------------
  // Price summary
  // ---------------------------------------------------------------------

  function LineTotal(item: CartItem): real {
    item.price * item.quantity as real
  }

  /** `reduce` from 0, adding each line's price times quantity left to right. */
  function Subtotal(items: seq<CartItem>): real {
    if |items| == 0 then 0.0
    else Subtotal(items[..|items| - 1]) + LineTotal(items[|items| - 1])
  }

  /** Free shipping strictly above 50, a flat 5.99 otherwise. */
  function Shipping(subtotal: real): real {
    if subtotal > 50.0 then 0.0 else 5.99
  }

  /** Ten percent tax on the subtotal. */
  function Tax(subtotal: real): real {
    subtotal * 0.1
  }

  function Total(subtotal: real): real {
    subtotal + Shipping(subtotal) + Tax(subtotal)
  }

  /** The subtotal of two lists one after the other is the sum of their subtotals. */
  lemma {:induction false} SubtotalConcat(a: seq<CartItem>, b: seq<CartItem>)
    ensures Subtotal(a + b) == Subtotal(a) + Subtotal(b)
  {
    if |b| == 0 {
      assert a + b == a;
    } else {
      var b' := b[..|b| - 1];
      assert (a + b)[..|a + b| - 1] == a + b';
      SubtotalConcat(a, b');
    }
  }

  /** Summing from the front gives the same subtotal as the left-to-right `reduce`. */
  lemma SubtotalCons(items: seq<CartItem>)
    requires |items| > 0
    ensures Subtotal(items) == LineTotal(items[0]) + Subtotal(items[1..])
  {
    SubtotalConcat([items[0]], items[1..]);
    assert [items[0]] + items[1..] == items;
    assert [items[0]][..0] == [];
  }

  /** Removing the lines of one id lowers the subtotal by exactly their share. */
  lemma {:induction false} RemoveItemSubtotal(items: seq<CartItem>, id: int)
    ensures Subtotal(items) == Subtotal(ItemsWithout(items, id)) + Subtotal(Filter(items, (item: CartItem) => item.id == id))
  {
    var drop := (item: CartItem) => item.id != id;
    var keep := (item: CartItem) => item.id == id;
    if |items| > 0 {
      RemoveItemSubtotal(items[1..], id);
      SubtotalCons(items);
      var rest, matched := Filter(items[1..], drop), Filter(items[1..], keep);
      if items[0].id == id {
        SubtotalCons([items[0]] + matched);
        assert ([items[0]] + matched)[1..] == matched;
      } else {
        SubtotalCons([items[0]] + rest);
        assert ([items[0]] + rest)[1..] == rest;
      }
    }
  }

  /** With non-negative prices and quantities the subtotal is non-negative. */
  lemma {:induction false} SubtotalNonNegative(items: seq<CartItem>)
    requires forall i :: 0 <= i < |items| ==> items[i].price >= 0.0 && items[i].quantity >= 0
    ensures Subtotal(items) >= 0.0
  {
    if |items| > 0 {
      SubtotalNonNegative(items[..|items| - 1]);
    }
  }

  /** Shipping is free exactly above 50 and otherwise the flat 5.99; the
      total is 110% of the subtotal plus shipping. */
  lemma PricingRules(subtotal: real)
    ensures Shipping(subtotal) == 0.0 <==> subtotal > 50.0
    ensures Shipping(subtotal) != 0.0 ==> Shipping(subtotal) == 5.99
    ensures Tax(subtotal) == subtotal / 10.0
    ensures Total(subtotal) == subtotal * 1.1 + Shipping(subtotal)
  {
  }

  /** A cart whose subtotal is not negative never totals less than the flat
      shipping fee, although the total drops when the subtotal crosses 50. */
  lemma TotalFloor(items: seq<CartItem>)
    requires forall i :: 0 <= i < |items| ==> items[i].price >= 0.0 && items[i].quantity >= 0
    ensures Total(Subtotal(items)) >= 5.99
    ensures Total(50.0) > Total(50.01)
  {
    SubtotalNonNegative(items);
  }

  /** The initial cart: 99.99 x 2 + 149.99 x 1. */
  lemma InitialCartSummary()
    ensures Subtotal(InitialItems()) == 349.97
    ensures Shipping(Subtotal(InitialItems())) == 0.0
    ensures Tax(Subtotal(InitialItems())) == 34.997
    ensures Total(Subtotal(InitialItems())) == 384.967
  {
    var items := InitialItems();
    assert items[..1][..0] == [];
  }

  /** The empty cart still pays shipping, since 0 is not above 50. */
  lemma EmptyCartSummary()
    ensures Subtotal([]) == 0.0 && Shipping(0.0) == 5.99 && Tax(0.0) == 0.0 && Total(0.0) == 5.99
  {
  }

  // ---------------------------------------------------------------------
  // The page state
  // ---------------------------------------------------------------------

  /** The `items` state of the page and the two handlers that replace it. */
  class Cart {
    var items: seq<CartItem>

    predicate Valid()
      reads this
    {
      QuantitiesPositive(items)
    }

    constructor ()
      ensures items == InitialItems() && Valid()
    {
      items := InitialItems();
    }

    /** `handleQuantityChange`. */
    method HandleQuantityChange(id: int, change: int)
      modifies this
      ensures items == QuantityChanged(old(items), id, change)
      ensures |items| == |old(items)|
      ensures forall i :: 0 <= i < |items| && items[i].id == id ==> items[i].quantity >= 1
      ensures old(Valid()) ==> Valid()
    {
      items := QuantityChanged(items, id, change);
    }

    /** `handleRemoveItem`. */
    method HandleRemoveItem(id: int)
      modifies this
      ensures items == ItemsWithout(old(items), id)
      ensures forall i :: 0 <= i < |items| ==> items[i].id != id
      ensures IsSubsequence(items, old(items))
      ensures old(Valid()) ==> Valid()
    {
      RemoveItemExactly(items, id);
      items := ItemsWithout(items, id);
    }

  }
}
