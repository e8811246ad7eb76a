/**
 * The records kept in the customer and order collections, with the field
 * constraints and defaults their schemas declare.
 */
module Schemas {
  import opened Wrappers

  /** Document identifiers; the store hands out fresh ones. */
  type Id = nat

  /** A customer: name and email are required, the rest default to absent. */
  datatype Customer = Customer(
    name: string,
    email: string,
    phone: Option<string>,
    address: Option<string>,
    note: Option<string>)

  /** One line of an order; it exists only inside an order. */
  datatype OrderItem = OrderItem(
    name: string,
    quantity: int,
    unitPrice: real,
    discountPercent: real)

  /** A stored order: the customer it belongs to, its inputs and its three derived amounts. */
  datatype Order = Order(
    customerId: Id,
    status: string,
    orderDiscountPercent: real,
    items: seq<OrderItem>,
    subtotal: real,
    discountTotal: real,
    total: real)

  /** A field whose value breaks a declared constraint. */
  datatype FieldError =
    | QuantityBelowOne
    | NegativeUnitPrice
    | DiscountOutOfRange
    | NegativeAmount
    | InvalidItem(index: nat)

  predicate PercentInRange(p: real) {
    0.0 <= p <= 100.0
  }

  /** The constraints on an order line: quantity at least 1, price not negative, discount a percentage. */
  predicate ItemValid(it: OrderItem) {
    it.quantity >= 1 && it.unitPrice >= 0.0 && PercentInRange(it.discountPercent)
  }

  predicate ItemsValid(items: seq<OrderItem>) {
    forall i :: 0 <= i < |items| ==> ItemValid(items[i])
  }

  /** The constraints the order schema declares on its own fields and on its items. */
  predicate OrderValid(o: Order) {
    && PercentInRange(o.orderDiscountPercent)
    && ItemsValid(o.items)
    && o.subtotal >= 0.0
    && o.discountTotal >= 0.0
    && o.total >= 0.0
  }

  /**
   * Builds an order line from its fields as a request supplies them: an
   * omitted discount is 0, and each declared bound is checked.
   */
  function ParseItem(name: string, quantity: int, unitPrice: real, discountPercent: Option<real>): (r: Result<OrderItem, FieldError>)
    ensures r.Success? <==> quantity >= 1 && unitPrice >= 0.0 && PercentInRange(discountPercent.GetOr(0.0))
    ensures r.Success? ==> ItemValid(r.value)
    ensures r.Success? ==> r.value == OrderItem(name, quantity, unitPrice, discountPercent.GetOr(0.0))
  {
    var d := discountPercent.GetOr(0.0);
    if quantity < 1 then Failure(QuantityBelowOne)
    else if unitPrice < 0.0 then Failure(NegativeUnitPrice)
    else if !PercentInRange(d) then Failure(DiscountOutOfRange)
    else Success(OrderItem(name, quantity, unitPrice, d))
  }

  /** The index of the first line that breaks a constraint, if any. */
  function FirstInvalidItem(items: seq<OrderItem>): (r: Option<nat>)
    ensures r.None? <==> ItemsValid(items)
    ensures r.Some? ==> r.value < |items| && !ItemValid(items[r.value])
    ensures r.Some? ==> ItemsValid(items[..r.value])
  {
    if items == [] then None
    else if !ItemValid(items[0]) then Some(0)
    else
      match FirstInvalidItem(items[1..])
      case None => None
      case Some(j) =>
        assert items[..j + 1] == [items[0]] + items[1..][..j];
        Some(j + 1)
  }

  /**
   * Builds an order from the fields a request supplies: status defaults to
   * "Pending", the discount to 0, the items to none and the three amounts to 0;
   * the discount must be a percentage, the amounts not negative and every item valid.
   */
  function ParseOrder(
    customerId: Id,
    status: Option<string>,
    orderDiscountPercent: Option<real>,
    items: Option<seq<OrderItem>>,
    subtotal: Option<real>,
    discountTotal: Option<real>,
    total: Option<real>): (r: Result<Order, FieldError>)
    ensures r.Success? <==>
      && PercentInRange(orderDiscountPercent.GetOr(0.0))
      && ItemsValid(items.GetOr([]))
      && subtotal.GetOr(0.0) >= 0.0 && discountTotal.GetOr(0.0) >= 0.0 && total.GetOr(0.0) >= 0.0
    ensures r.Success? ==> OrderValid(r.value)
    ensures r.Success? ==> r.value == Order(customerId, status.GetOr("Pending"),
      orderDiscountPercent.GetOr(0.0), items.GetOr([]), subtotal.GetOr(0.0), discountTotal.GetOr(0.0), total.GetOr(0.0))
  {
    var o := Order(customerId, status.GetOr("Pending"), orderDiscountPercent.GetOr(0.0), items.GetOr([]),
                   subtotal.GetOr(0.0), discountTotal.GetOr(0.0), total.GetOr(0.0));
    if !PercentInRange(o.orderDiscountPercent) then Failure(DiscountOutOfRange)
    else if o.subtotal < 0.0 || o.discountTotal < 0.0 || o.total < 0.0 then Failure(NegativeAmount)
    else
      match FirstInvalidItem(o.items)
      case Some(i) => Failure(InvalidItem(i))
      case None => Success(o)
  }

  /** An order given only its customer takes every default, and the defaults are valid. */
  lemma DefaultOrderValid(customerId: Id)
    ensures ParseOrder(customerId, None, None, None, None, None, None)
         == Success(Order(customerId, "Pending", 0.0, [], 0.0, 0.0, 0.0))
  {
  }
}
