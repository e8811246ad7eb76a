/**
 * The pricing engine: from an order's lines and its order-level discount
 * percentage to its subtotal, total discount and total. Lines are summed
 * exactly; only the three final amounts are rounded.
 */
module Pricing {
  import opened Schemas
  import opened Money

  /** The three derived amounts of an order. */
  datatype Totals = Totals(subtotal: real, discountTotal: real, total: real)

  /** quantity × unit price of one line. */
  function LineSubtotal(it: OrderItem): real {
    it.quantity as real * it.unitPrice
  }

  /** The line's own percentage discount on its line subtotal. */
  function LineDiscount(it: OrderItem): real {
    LineSubtotal(it) * (it.discountPercent / 100.0)
  }

  /** The sum of the line subtotals, accumulated from the first line to the last. */
  function Subtotal(items: seq<OrderItem>): real {
    if items == [] then 0.0
    else Subtotal(items[..|items| - 1]) + LineSubtotal(items[|items| - 1])
  }

  /** The sum of the line discounts, accumulated from the first line to the last. */
  function ItemDiscountTotal(items: seq<OrderItem>): real {
    if items == [] then 0.0
    else ItemDiscountTotal(items[..|items| - 1]) + LineDiscount(items[|items| - 1])
  }

  /**
   * The amounts before rounding: the order-level percentage applies to what
   * is left after the line discounts, and the total discount is the line
   * discounts plus the order discount.
   */
  function Unrounded(items: seq<OrderItem>, orderDiscountPercent: real): Totals {
    var afterItemDiscounts := Subtotal(items) - ItemDiscountTotal(items);
    var orderDiscount := afterItemDiscounts * (orderDiscountPercent / 100.0);
    Totals(Subtotal(items), ItemDiscountTotal(items) + orderDiscount, afterItemDiscounts - orderDiscount)
  }

  /** Each amount rounded to two decimals on its own. */
  function RoundTotals(t: Totals): Totals {
    Totals(Round2(t.subtotal), Round2(t.discountTotal), Round2(t.total))
  }

  /** What pricing an order yields. */
  function Priced(items: seq<OrderItem>, orderDiscountPercent: real): Totals {
    RoundTotals(Unrounded(items, orderDiscountPercent))
  }

  /**
   * Prices an order: one pass over the lines accumulates the subtotal and
   * the line discounts without rounding, and the three final amounts are
   * rounded once each at the end.
   */
  method ComputeTotals(items: seq<OrderItem>, orderDiscountPercent: real) returns (t: Totals)
    ensures t == RoundTotals(Unrounded(items, orderDiscountPercent))
  {
    var subtotal := 0.0;
    var itemDiscountTotal := 0.0;
    for i := 0 to |items|
      invariant subtotal == Subtotal(items[..i])
      invariant itemDiscountTotal == ItemDiscountTotal(items[..i])
    {
      var it := items[i];
      var lineSub := it.quantity as real * it.unitPrice;
      var lineDiscount := lineSub * (it.discountPercent / 100.0);
      assert items[..i + 1][..i] == items[..i];
      assert Subtotal(items[..i + 1]) == Subtotal(items[..i]) + LineSubtotal(it);
      assert ItemDiscountTotal(items[..i + 1]) == ItemDiscountTotal(items[..i]) + LineDiscount(it);
      subtotal := subtotal + lineSub;
      itemDiscountTotal := itemDiscountTotal + lineDiscount;
    }
    assert items[..|items|] == items;
    var afterItemDiscounts := subtotal - itemDiscountTotal;
    var orderDiscount := afterItemDiscounts * (orderDiscountPercent / 100.0);
    var totalDiscount := itemDiscountTotal + orderDiscount;
    var total := afterItemDiscounts - orderDiscount;
    assert Unrounded(items, orderDiscountPercent) == Totals(subtotal, totalDiscount, total);
    t := Totals(Round2(subtotal), Round2(totalDiscount), Round2(total));
  }

  /** No lines price to zero whatever the order discount. */
  lemma EmptyOrderPricesToZero(orderDiscountPercent: real)
    ensures Priced([], orderDiscountPercent) == Totals(0.0, 0.0, 0.0)
  {
  }

  /** Before rounding, the total is exactly the subtotal less the total discount. */
  lemma UnroundedBalances(items: seq<OrderItem>, orderDiscountPercent: real)
    ensures Unrounded(items, orderDiscountPercent).total
         == Unrounded(items, orderDiscountPercent).subtotal - Unrounded(items, orderDiscountPercent).discountTotal
  {
  }

  /** A valid line has a discount between 0 and its line subtotal. */
  lemma LineDiscountBounds(it: OrderItem)
    requires ItemValid(it)
    ensures 0.0 <= LineDiscount(it) <= LineSubtotal(it)
  {
    var s, f := LineSubtotal(it), it.discountPercent / 100.0;
    assert 0.0 <= s && 0.0 <= f <= 1.0;
    assert LineDiscount(it) == s * f;
    assert s - s * f == s * (1.0 - f);
  }

  /** Over valid lines, the line discounts add up to between 0 and the subtotal. */
  lemma {:induction false} ItemDiscountBounds(items: seq<OrderItem>)
    requires ItemsValid(items)
    ensures 0.0 <= ItemDiscountTotal(items) <= Subtotal(items)
  {
    if items != [] {
      var n := |items| - 1;
      assert ItemsValid(items[..n]);
      ItemDiscountBounds(items[..n]);
      LineDiscountBounds(items[n]);
    }
  }

  /**
   * With valid lines and an order discount that is a percentage, before
   * rounding the total lies between 0 and the subtotal and the total
   * discount between 0 and the subtotal.
   */
  lemma UnroundedBounds(items: seq<OrderItem>, orderDiscountPercent: real)
    requires ItemsValid(items) && PercentInRange(orderDiscountPercent)
    ensures var u := Unrounded(items, orderDiscountPercent);
      0.0 <= u.total <= u.subtotal && 0.0 <= u.discountTotal <= u.subtotal
  {
    ItemDiscountBounds(items);
    var after := Subtotal(items) - ItemDiscountTotal(items);
    var f := orderDiscountPercent / 100.0;
    assert 0.0 <= f <= 1.0;
    assert 0.0 <= after * f <= after * 1.0;
  }

  /** The same bounds hold of the rounded amounts an order stores. */
  lemma PricedBounds(items: seq<OrderItem>, orderDiscountPercent: real)
    requires ItemsValid(items) && PercentInRange(orderDiscountPercent)
    ensures var t := Priced(items, orderDiscountPercent);
      0.0 <= t.total <= t.subtotal && 0.0 <= t.discountTotal <= t.subtotal
  {
    var u := Unrounded(items, orderDiscountPercent);
    UnroundedBounds(items, orderDiscountPercent);
    Round2NonNegative(u.total);
    Round2NonNegative(u.discountTotal);
    Round2Monotone(u.total, u.subtotal);
    Round2Monotone(u.discountTotal, u.subtotal);
  }

  /**
   * Because the three amounts are rounded independently, the stored total
   * can differ from the stored subtotal less the stored discount, by at
   * most one hundredth.
   */
  lemma PricedBalanceWithinOneCent(items: seq<OrderItem>, orderDiscountPercent: real)
    ensures var t := Priced(items, orderDiscountPercent);
      -0.01 <= t.total - (t.subtotal - t.discountTotal) <= 0.01
  {
    var t := Priced(items, orderDiscountPercent);
    var a, b, c := (t.subtotal * 100.0).Floor, (t.discountTotal * 100.0).Floor, (t.total * 100.0).Floor;
    var k := c - (a - b);
    assert k as real == (t.total - (t.subtotal - t.discountTotal)) * 100.0;
    assert -1.5 <= k as real <= 1.5;
    assert -1 <= k <= 1;
  }

  /**
   * A one-line order whose stored total is not its stored subtotal less its
   * stored discount: 0.016 rounds up to 0.02, the discount 0.004 rounds down
   * to 0.00, and the total 0.012 rounds down to 0.01.
   */
  lemma StoredAmountsNeedNotBalance()
    ensures var t := Priced([OrderItem("sample", 1, 0.016, 25.0)], 0.0);
      t == Totals(0.02, 0.0, 0.01) && t.total != t.subtotal - t.discountTotal
  {
  }

  /** The sum of the lines' subtotals if each were rounded first, which pricing does not do. */
  function RoundedLineSum(items: seq<OrderItem>): real {
    if items == [] then 0.0
    else RoundedLineSum(items[..|items| - 1]) + Round2(LineSubtotal(items[|items| - 1]))
  }

  /** Rounding each line before summing gives a different subtotal than rounding the sum. */
  lemma RoundingLinesFirstDiffers()
    ensures var items := [OrderItem("a", 1, 0.004, 0.0), OrderItem("b", 1, 0.004, 0.0)];
      Round2(Subtotal(items)) == 0.01 && RoundedLineSum(items) == 0.0
  {
  }

  /** Two lots at 50.00 less 10%, then 5% off the order: 100.00, 14.50 and 85.50. */
  lemma WorkedExample()
    ensures Priced([OrderItem("widget", 2, 50.0, 10.0)], 5.0) == Totals(100.0, 14.5, 85.5)
  {
  }

  /**
   * The order discount is not range-checked where orders are created or
   * updated; 150% off a 10.00 order prices it at -5.00.
   */
  lemma OverHundredPercentGoesNegative()
    ensures Priced([OrderItem("widget", 1, 10.0, 0.0)], 150.0).total == -5.0
  {
  }
}
