/**
 * The customer and order collections and the handlers that change or read
 * them: email uniqueness on customer creation, the customer-reference check
 * on order creation, not-found on delete and update, and the customer name
 * attached to orders that are read.
 */
module Store {
  import opened Wrappers
  import opened Schemas
  import opened Pricing
  import opened Mutation

  /** The errors the handlers raise. */
  datatype ApiError = DuplicateEmail | InvalidCustomerId | CustomerNotFound | OrderNotFound

  /** The request that creates an order, with its fields as parsed; an omitted status arrives as "Pending". */
  datatype OrderCreate = OrderCreate(
    customerId: Id,
    status: Option<string>,
    orderDiscountPercent: real,
    items: seq<OrderItem>)

  /** An order as it is read back: its id, the stored document and the customer's name, if the customer still exists. */
  datatype OrderView = OrderView(id: Id, order: Order, customerName: Option<string>)

  /** An absent or empty status is stored as "Pending". */
  function StatusOrPending(status: Option<string>): (s: string)
    ensures s != ""
    ensures status.Some? && status.value != "" ==> s == status.value
    ensures status.None? || status.value == "" ==> s == "Pending"
  {
    if status.Some? && status.value != "" then status.value else "Pending"
  }

  /** The order a successful creation stores: the request's fields with its priced amounts. */
  function InitialOrder(req: OrderCreate): Order {
    var t := Priced(req.items, req.orderDiscountPercent);
    Order(req.customerId, StatusOrPending(req.status), req.orderDiscountPercent, req.items,
          t.subtotal, t.discountTotal, t.total)
  }

  /** Some stored customer already has this email. */
  predicate EmailTaken(customers: map<Id, Customer>, email: string) {
    exists k :: k in customers && customers[k].email == email
  }

  /** No two stored customers share an email. */
  predicate EmailsUnique(customers: map<Id, Customer>) {
    forall k, k' :: k in customers && k' in customers && k != k' ==> customers[k].email != customers[k'].email
  }

  /** The referenced customer's name, or nothing when the reference no longer resolves. */
  function CustomerName(customers: map<Id, Customer>, customerId: Id): (r: Option<string>)
    ensures r.Some? <==> customerId in customers
    ensures r.Some? ==> r.value == customers[customerId].name
  {
    if customerId in customers then Some(customers[customerId].name) else None
  }

  /** The listing's filters; an absent or empty status filter matches every status. */
  predicate Matches(o: Order, status: Option<string>, customerId: Option<Id>) {
    && (status.None? || status.value == "" || o.status == status.value)
    && (customerId.None? || o.customerId == customerId.value)
  }

  /** A newly created order is priced consistently, and valid when its discount is a percentage. */
  lemma InitialOrderSound(req: OrderCreate)
    requires ItemsValid(req.items)
    ensures Consistent(InitialOrder(req))
    ensures PercentInRange(req.orderDiscountPercent) ==> OrderValid(InitialOrder(req))
  {
    if PercentInRange(req.orderDiscountPercent) {
      PricedBounds(req.items, req.orderDiscountPercent);
    }
  }

  /** Both collections, with the source of fresh document ids. */
  class OrderStore {
    var customers: map<Id, Customer>
    var orders: map<Id, Order>
    var nextId: Id

    /**
     * Every id in use lies below the next fresh id, emails are unique,
     * and every stored order has valid items and the amounts pricing gives.
     */
    ghost predicate Valid()
      reads this
    {
      && (forall k :: k in customers ==> k < nextId)
      && (forall k :: k in orders ==> k < nextId)
      && EmailsUnique(customers)
      && (forall k :: k in orders ==> ItemsValid(orders[k].items) && Consistent(orders[k]))
    }

    constructor ()
      ensures Valid()
      ensures customers == map[] && orders == map[]
    {
      customers, orders, nextId := map[], map[], 0;
    }

    /** Hands out an id that no stored document has. */
    method FreshId() returns (id: Id)
      requires Valid()
      modifies this`nextId
      ensures Valid()
      ensures id !in customers && id !in orders
      ensures id == old(nextId) && nextId == id + 1
    {
      id := nextId;
      nextId := nextId + 1;
    }

    /** Stores a new customer unless one with the same email exists. */
    method CreateCustomer(c: Customer) returns (r: Result<Id, ApiError>)
      requires Valid()
      modifies this
      ensures Valid()
      ensures orders == old(orders)
      ensures EmailTaken(old(customers), c.email) ==> r == Failure(DuplicateEmail) && customers == old(customers)
      ensures !EmailTaken(old(customers), c.email) ==>
        && r.Success?
        && r.value !in old(customers) && r.value !in old(orders)
        && customers == old(customers)[r.value := c]
    {
      if EmailTaken(customers, c.email) {
        return Failure(DuplicateEmail);
      }
      var id := FreshId();
      customers := customers[id := c];
      r := Success(id);
    }

    /** Removes a customer; orders that reference it stay as they are. */
    method DeleteCustomer(id: Id) returns (r: Result<(), ApiError>)
      requires Valid()
      modifies this
      ensures Valid()
      ensures orders == old(orders)
      ensures id in old(customers) ==> r == Success(()) && customers == old(customers) - {id}
      ensures id !in old(customers) ==> r == Failure(CustomerNotFound) && customers == old(customers)
    {
      if id !in customers {
        return Failure(CustomerNotFound);
      }
      customers := customers - {id};
      r := Success(());
    }

    /**
     * Stores a new order for an existing customer, with the status (or
     * "Pending"), the discount, the items and the priced amounts.
     */
    method CreateOrder(req: OrderCreate) returns (r: Result<Id, ApiError>)
      requires Valid()
      requires ItemsValid(req.items)
      modifies this
      ensures Valid()
      ensures customers == old(customers)
      ensures req.customerId !in old(customers) ==> r == Failure(InvalidCustomerId) && orders == old(orders)
      ensures req.customerId in old(customers) ==>
        && r.Success?
        && r.value !in old(orders) && r.value !in old(customers)
        && orders == old(orders)[r.value := InitialOrder(req)]
    {
      if req.customerId !in customers {
        return Failure(InvalidCustomerId);
      }
      var totals := ComputeTotals(req.items, req.orderDiscountPercent);
      var doc := Order(req.customerId, StatusOrPending(req.status), req.orderDiscountPercent, req.items,
                       totals.subtotal, totals.discountTotal, totals.total);
      var id := FreshId();
      orders := orders[id := doc];
      r := Success(id);
    }

    /** The view of a stored order, with its customer's name if the customer still exists. */
    function ViewOf(id: Id): (v: OrderView)
      reads this
      requires id in orders
      ensures v.id == id && v.order == orders[id]
      ensures v.customerName.Some? <==> orders[id].customerId in customers
    {
      OrderView(id, orders[id], CustomerName(customers, orders[id].customerId))
    }

    /** Reads one order; a missing id is not found, a missing customer only leaves the name absent. */
    method GetOrder(id: Id) returns (r: Result<OrderView, ApiError>)
      ensures id !in orders ==> r == Failure(OrderNotFound)
      ensures id in orders ==> r == Success(ViewOf(id))
    {
      if id !in orders {
        return Failure(OrderNotFound);
      }
      var d := orders[id];
      var name := if d.customerId in customers then Some(customers[d.customerId].name) else None;
      r := Success(OrderView(id, d, name));
    }

    /** Lists every order that matches the filters, once each, with its customer's name. */
    method ListOrders(status: Option<string>, customerId: Option<Id>) returns (out: seq<OrderView>)
      ensures forall i :: 0 <= i < |out| ==> out[i].id in orders && Matches(orders[out[i].id], status, customerId)
      ensures forall i :: 0 <= i < |out| ==> out[i] == ViewOf(out[i].id)
      ensures forall k :: k in orders && Matches(orders[k], status, customerId) ==> exists i :: 0 <= i < |out| && out[i].id == k
      ensures forall i, j :: 0 <= i < j < |out| ==> out[i].id != out[j].id
    {
      out := [];
      var todo := orders.Keys;
      while todo != {}
        invariant todo <= orders.Keys
        invariant forall i :: 0 <= i < |out| ==> out[i].id in orders && out[i].id !in todo
        invariant forall i :: 0 <= i < |out| ==> Matches(orders[out[i].id], status, customerId)
        invariant forall i :: 0 <= i < |out| ==> out[i] == ViewOf(out[i].id)
        invariant forall k :: k in orders && k !in todo && Matches(orders[k], status, customerId) ==>
          exists i :: 0 <= i < |out| && out[i].id == k
        invariant forall i, j :: 0 <= i < j < |out| ==> out[i].id != out[j].id
        decreases todo
      {
        var k :| k in todo;
        var d := orders[k];
        if Matches(d, status, customerId) {
          var name := if d.customerId in customers then Some(customers[d.customerId].name) else None;
          ghost var prev := out;
          out := out + [OrderView(k, d, name)];
          forall k' | k' in orders && k' !in todo - {k} && Matches(orders[k'], status, customerId)
            ensures exists i :: 0 <= i < |out| && out[i].id == k'
          {
            if k' == k {
              assert out[|out| - 1].id == k;
            } else {
              var i :| 0 <= i < |prev| && prev[i].id == k';
              assert out[i].id == k';
            }
          }
        }
        todo := todo - {k};
      }
    }

    /**
     * Applies a partial update to a stored order: a missing id is not
     * found, an update with no fields writes nothing, and otherwise the
     * supplied fields and, when items or a discount were supplied, freshly
     * priced amounts are written.
     */
    method UpdateOrder(id: Id, u: OrderUpdate) returns (r: Result<Order, ApiError>)
      requires Valid()
      requires u.items.Some? ==> ItemsValid(u.items.value)
      modifies this
      ensures Valid()
      ensures customers == old(customers)
      ensures id !in old(orders) ==> r == Failure(OrderNotFound) && orders == old(orders)
      ensures id in old(orders) ==>
        && r == Success(Merged(old(orders)[id], u))
        && orders == old(orders)[id := Merged(old(orders)[id], u)]
      ensures u == NoUpdate ==> orders == old(orders)
    {
      if id !in orders {
        return Failure(OrderNotFound);
      }
      var d := orders[id];
      var fields := BuildUpdateFields(d, u);
      if fields == NoFields {
        EmptyUpdateKeepsOrder(d);
        assert orders == orders[id := d];
        return Success(d);
      }
      UpdateKeepsConsistent(d, u);
      orders := orders[id := SetFields(d, fields)];
      r := Success(orders[id]);
    }

    /** Removes an order; a missing id is not found. */
    method DeleteOrder(id: Id) returns (r: Result<(), ApiError>)
      requires Valid()
      modifies this
      ensures Valid()
      ensures customers == old(customers)
      ensures id in old(orders) ==> r == Success(()) && orders == old(orders) - {id}
      ensures id !in old(orders) ==> r == Failure(OrderNotFound) && orders == old(orders)
    {
      if id !in orders {
        return Failure(OrderNotFound);
      }
      orders := orders - {id};
      r := Success(());
    }
  }

  /** Creating an order for a customer that does not exist fails and stores nothing. */
  method UnknownCustomerScenario() {
    var s := new OrderStore();
    var r := s.CreateOrder(OrderCreate(7, None, 0.0, []));
    assert r == Failure(InvalidCustomerId);
    assert s.orders == map[];
  }

  /** A second customer with the same email is refused and the first stays the only one. */
  method DuplicateEmailScenario() {
    var s := new OrderStore();
    var ann := Customer("Ann", "ann@example.com", None, None, None);
    var r1 := s.CreateCustomer(ann);
    assert !EmailTaken(map[], ann.email);
    var id := r1.value;
    assert EmailTaken(s.customers, "ann@example.com") by {
      assert s.customers[id].email == "ann@example.com";
    }
    var r2 := s.CreateCustomer(Customer("Other Ann", "ann@example.com", None, None, None));
    assert r2 == Failure(DuplicateEmail);
    assert s.customers == map[id := ann];
  }

  /**
   * Deleting a customer that an order references succeeds, and reading the
   * order afterwards still succeeds, with no customer name.
   */
  method OrphanedOrderScenario() {
    var s := new OrderStore();
    var r1 := s.CreateCustomer(Customer("Ann", "ann@example.com", None, None, None));
    assert !EmailTaken(map[], "ann@example.com");
    var cid := r1.value;
    var r2 := s.CreateOrder(OrderCreate(cid, Some(""), 5.0, [OrderItem("widget", 2, 50.0, 10.0)]));
    var oid := r2.value;
    var before := s.GetOrder(oid);
    assert before.value.customerName == Some("Ann");
    assert before.value.order.status == "Pending";
    var r3 := s.DeleteCustomer(cid);
    assert r3 == Success(());
    var after := s.GetOrder(oid);
    assert after.Success? && after.value.customerName == None;
    WorkedExample();
    assert after.value.order.total == 85.5;
  }
}
