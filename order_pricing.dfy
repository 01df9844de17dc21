/** `calculateTotals`: subtotal, 18% tax rounded to the nearest unit, zero
    discount and grand total, over integer minor currency units. */
module Pricing {
  import opened Model

  /** `items.reduce((sum, item) => sum + item.priceAtPurchase * item.quantity, 0)` */
  function SubTotal(items: seq<LineItem>): int
    decreases |items|
  {
    if |items| == 0 then 0
    else
      var last := items[|items| - 1];
      SubTotal(items[..|items| - 1]) + last.priceAtPurchase * last.quantity
  }

  /** The subtotal of two item lists put together is the sum of their
      subtotals. */
  lemma {:induction false} SubTotalConcat(a: seq<LineItem>, b: seq<LineItem>)
    ensures SubTotal(a + b) == SubTotal(a) + SubTotal(b)
    decreases |b|
  {
    if |b| == 0 {
      assert a + b == a;
    } else {
      assert (a + b)[..|a + b| - 1] == a + b[..|b| - 1];
      SubTotalConcat(a, b[..|b| - 1]);
    }
  }

  /** A non-empty list of items with positive prices and quantities has a
      positive subtotal. */
  lemma {:induction false} SubTotalPositive(items: seq<LineItem>)
    requires |items| > 0
    requires forall i :: 0 <= i < |items| ==> items[i].priceAtPurchase > 0 && items[i].quantity > 0
    ensures SubTotal(items) > 0
    decreases |items|
  {
    var last := items[|items| - 1];
    assert last.priceAtPurchase * last.quantity > 0;
    if |items| > 1 {
      SubTotalPositive(items[..|items| - 1]);
    }
  }

  /** `Math.round(subTotal * 0.18)` in exact arithmetic: the integer nearest
      to 18% of the subtotal, halves rounded up. */
  function Tax(subTotal: int): (t: int)
    ensures 18 * subTotal - 50 < 100 * t <= 18 * subTotal + 50
  {
    (18 * subTotal + 50) / 100
  }

  /** `calculateTotals` */
  function CalculateTotals(items: seq<LineItem>): (t: Totals)
    ensures t.subTotal == SubTotal(items)
    ensures t.discount == 0
    ensures 18 * t.subTotal - 50 < 100 * t.tax <= 18 * t.subTotal + 50
    ensures t.grandTotal == t.subTotal + t.tax - t.discount
  {
    var subTotal := SubTotal(items);
    var tax := Tax(subTotal);
    var discount := 0;
    Totals(subTotal, tax, discount, subTotal + tax - discount)
  }

  /** Orders of items with positive prices and quantities have a positive
      grand total, so they pass the "order total is invalid" check of
      payment processing. */
  lemma GrandTotalPositive(items: seq<LineItem>)
    requires |items| > 0
    requires forall i :: 0 <= i < |items| ==> items[i].priceAtPurchase > 0 && items[i].quantity > 0
    ensures CalculateTotals(items).grandTotal > 0
  {
    SubTotalPositive(items);
  }

  /** The worked example: two units at 1000 give subtotal 2000, tax 360 and
      grand total 2360. */
  lemma TwoUnitsAtOneThousand()
    ensures CalculateTotals([LineItem("P1", 2, 1000)]) == Totals(2000, 360, 0, 2360)
  {
    assert SubTotal([LineItem("P1", 2, 1000)]) == 2000 by {
      assert [LineItem("P1", 2, 1000)][..0] == [];
    }
  }
}
