/**
 * The partial-update rule for orders: which fields an update writes, and
 * when the derived amounts are priced again.
 */
module Mutation {
  import opened Wrappers
  import opened Schemas
  import opened Pricing

  /** A partial update: each field is either supplied or left out. */
  datatype OrderUpdate = OrderUpdate(
    status: Option<string>,
    orderDiscountPercent: Option<real>,
    items: Option<seq<OrderItem>>)

  /** The set of fields an update writes; the three amounts are always written together. */
  datatype UpdateFields = UpdateFields(
    status: Option<string>,
    items: Option<seq<OrderItem>>,
    orderDiscountPercent: Option<real>,
    totals: Option<Totals>)

  const NoUpdate := OrderUpdate(None, None, None)
  const NoFields := UpdateFields(None, None, None, None)

  /** An update prices the order again exactly when it supplies items or an order discount. */
  predicate Reprices(u: OrderUpdate) {
    u.items.Some? || u.orderDiscountPercent.Some?
  }

  /** The stored amounts of an order. */
  function StoredTotals(d: Order): Totals {
    Totals(d.subtotal, d.discountTotal, d.total)
  }

  /** The stored amounts are those pricing gives for the stored items and discount. */
  predicate Consistent(d: Order) {
    StoredTotals(d) == Priced(d.items, d.orderDiscountPercent)
  }

  /**
   * The order an update leaves behind: supplied fields replace stored ones,
   * the customer never changes, and the amounts are priced again from the
   * new-or-stored items and the new-or-stored discount when, and only when,
   * items or a discount were supplied.
   */
  function Merged(d: Order, u: OrderUpdate): Order {
    var items := u.items.GetOr(d.items);
    var pct := u.orderDiscountPercent.GetOr(d.orderDiscountPercent);
    var t := if Reprices(u) then Priced(items, pct) else StoredTotals(d);
    Order(d.customerId, u.status.GetOr(d.status), pct, items, t.subtotal, t.discountTotal, t.total)
  }

  /**
   * Collects the fields an update writes, one supplied field at a time,
   * pricing the order again when items or a discount are supplied; an
   * omitted one of the two is taken from the stored order.
   */
  method BuildUpdateFields(d: Order, u: OrderUpdate) returns (f: UpdateFields)
    ensures f.status == u.status && f.items == u.items && f.orderDiscountPercent == u.orderDiscountPercent
    ensures f.totals.Some? <==> Reprices(u)
    ensures Reprices(u) ==>
      f.totals == Some(Priced(u.items.GetOr(d.items), u.orderDiscountPercent.GetOr(d.orderDiscountPercent)))
    ensures f == NoFields <==> u == NoUpdate
    ensures SetFields(d, f) == Merged(d, u)
  {
    f := NoFields;
    if u.status.Some? {
      f := f.(status := u.status);
    }
    if u.items.Some? {
      f := f.(items := u.items);
    }
    if u.orderDiscountPercent.Some? {
      f := f.(orderDiscountPercent := u.orderDiscountPercent);
    }
    if u.items.Some? || u.orderDiscountPercent.Some? {
      var items := if u.items.Some? then u.items.value else d.items;
      var pct := if u.orderDiscountPercent.Some? then u.orderDiscountPercent.value else d.orderDiscountPercent;
      var t := ComputeTotals(items, pct);
      f := f.(totals := Some(t));
    }
  }

  /** Writes the given fields over a stored order and leaves every other field as it was. */
  function SetFields(d: Order, f: UpdateFields): (r: Order)
    ensures r.customerId == d.customerId
    ensures f == NoFields ==> r == d
  {
    var t := f.totals.GetOr(StoredTotals(d));
    Order(d.customerId, f.status.GetOr(d.status), f.orderDiscountPercent.GetOr(d.orderDiscountPercent),
          f.items.GetOr(d.items), t.subtotal, t.discountTotal, t.total)
  }

  /** An update that supplies nothing leaves the order as it was. */
  lemma EmptyUpdateKeepsOrder(d: Order)
    ensures Merged(d, NoUpdate) == d
  {
  }

  /**
   * A status-only update keeps the stored amounts, even when pricing the
   * stored items again would give different ones.
   */
  lemma StatusOnlyKeepsTotals(d: Order, status: string)
    ensures var r := Merged(d, OrderUpdate(Some(status), None, None));
      StoredTotals(r) == StoredTotals(d) && r.items == d.items && r.status == status
  {
  }

  /** A discount-only update prices the stored items with the new discount. */
  lemma DiscountOnlyUsesStoredItems(d: Order, pct: real)
    ensures var r := Merged(d, OrderUpdate(None, Some(pct), None));
      r.items == d.items && r.orderDiscountPercent == pct && StoredTotals(r) == Priced(d.items, pct)
  {
  }

  /** An items-only update prices the new items with the stored discount. */
  lemma ItemsOnlyUsesStoredDiscount(d: Order, items: seq<OrderItem>)
    ensures var r := Merged(d, OrderUpdate(None, None, Some(items)));
      r.items == items && r.orderDiscountPercent == d.orderDiscountPercent
      && StoredTotals(r) == Priced(items, d.orderDiscountPercent)
  {
  }

  /** Whatever an update supplies, the customer reference stays. */
  lemma UpdateKeepsCustomer(d: Order, u: OrderUpdate)
    ensures Merged(d, u).customerId == d.customerId
  {
  }

  /** An update keeps stored amounts equal to what pricing gives for the stored inputs. */
  lemma UpdateKeepsConsistent(d: Order, u: OrderUpdate)
    requires Consistent(d)
    ensures Consistent(Merged(d, u))
  {
  }

  /** Applying the same update twice is the same as applying it once. */
  lemma UpdateIdempotent(d: Order, u: OrderUpdate)
    ensures Merged(Merged(d, u), u) == Merged(d, u)
  {
  }

  /**
   * An update of a valid order with valid items and an order discount that
   * is a percentage leaves a valid order.
   */
  lemma UpdateKeepsValid(d: Order, u: OrderUpdate)
    requires OrderValid(d)
    requires u.items.Some? ==> ItemsValid(u.items.value)
    requires u.orderDiscountPercent.Some? ==> PercentInRange(u.orderDiscountPercent.value)
    ensures OrderValid(Merged(d, u))
  {
    if Reprices(u) {
      PricedBounds(u.items.GetOr(d.items), u.orderDiscountPercent.GetOr(d.orderDiscountPercent));
    }
  }
}
