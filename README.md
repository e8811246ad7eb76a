# Order pricing and consistency — a Dafny model

This project models the core of a small order-management service: the
pricing of an order from its lines and its order-level discount; the
partial-update rule that decides when an order is priced again; and the
customer and order collections with their guards. The guards are email
uniqueness, the customer reference checked at order creation, not-found
on update and delete, and the customer name attached to orders when they
are read.

Modules:

- `Wrappers` (wrappers.dfy): `Option` and `Result`.
- `Schemas` (schemas.dfy): `Customer`, `OrderItem` and `Order` as datatypes.
  Their declared constraints are `ItemValid`, `ItemsValid` and `OrderValid`.
  `ParseItem` and `ParseOrder` fill in the declared defaults and check the bounds.
- `Money` (money.dfy): `Round2`, rounding to two decimals on exact reals, with ties to the even hundredth.
- `Pricing` (pricing.dfy): the recursive specification sums `Subtotal` and `ItemDiscountTotal`.
  `Unrounded` gives the amounts before rounding and `Priced` gives them after.
  The imperative `ComputeTotals` has one loop, and its invariants tie the two accumulators to the specification sums.
- `Mutation` (mutation.dfy): the partial update `OrderUpdate`.
  `BuildUpdateFields` builds the field set of the update step by step.
  `SetFields` writes that field set over the stored order.
  `Merged` is an independent definition of the order an update leaves behind.
- `Store` (store.dfy): class `OrderStore` holds two maps (id → customer and id → order) and a counter that supplies fresh ids.
  Its handlers update the maps in place. `Valid()` states four invariants:
  - every id in use is below the counter;
  - emails are unique;
  - stored items are valid;
  - stored amounts are exactly what pricing gives for the stored items and discount.
  Three client methods, `UnknownCustomerScenario`, `DuplicateEmailScenario` and `OrphanedOrderScenario`, use only the handlers' contracts.

Amounts are Dafny `real`s, so sums are exact. `Round2` is applied only to the three final amounts.

Behaviour of the code that the model follows and that is easy to misread:

- The order-level discount range [0, 100] is declared only on the `Order` schema (schemas.py:44).
  The create and update requests (main.py:104, main.py:156) do not check it.
  So the bounds on the amounts (`Pricing.PricedBounds`, `Mutation.UpdateKeepsValid`) take that range as a precondition.
  `Pricing.OverHundredPercentGoesNegative` shows that a 150% discount stores a negative total.
- The three amounts are rounded independently (main.py:42-44).
  So the stored total need not equal the stored subtotal less the stored discount.
  `Pricing.StoredAmountsNeedNotBalance` gives such an order, and `Pricing.PricedBalanceWithinOneCent` bounds the gap by one hundredth.
- A customer's name is only required to be present, not to be non-empty (schemas.py:24).
- An order's status is free text. An absent or empty status becomes "Pending" (main.py:117).

## Model

| member | source | states |
|---|---|---|
| `Schemas.ParseItem` | schemas.py:30-35 | an order line is accepted exactly when quantity ≥ 1, unit price ≥ 0 and the discount, 0 when omitted, lies in [0,100]; the accepted line is valid and carries the given fields |
| `Schemas.ParseOrder` | schemas.py:37-48 | an order is accepted exactly when its discount is in [0,100], its items are valid and its three amounts are ≥ 0; omitted fields take the defaults "Pending", 0, no items and 0 |
| `Schemas.DefaultOrderValid` | schemas.py:43-48 | an order given only its customer is accepted with status "Pending", discount 0, no items and zero amounts |
| `Money.Round2` | main.py:42-44 | the result is a whole number of hundredths, at most half a hundredth from the input |
| `Money.Round2OfCents` | main.py:42-44 | rounding leaves an amount that is already in hundredths unchanged |
| `Money.Round2Monotone` | main.py:42-44 | rounding preserves order between amounts |
| `Money.Round2NonNegative` | main.py:42-44 | rounding keeps a non-negative amount non-negative |
| `Pricing.ComputeTotals` | main.py:29-45 | the result is the exact sum of the line subtotals, and the line discounts plus the order discount on what remains, each rounded once at the end and never per line |
| `Pricing.EmptyOrderPricesToZero` | main.py:29-45 | an order without lines prices to 0, 0, 0 for any order discount |
| `Pricing.UnroundedBalances` | main.py:37-40 | before rounding, total = subtotal − total discount |
| `Pricing.LineDiscountBounds` | main.py:33-34 | a valid line's discount lies between 0 and its line subtotal |
| `Pricing.ItemDiscountBounds` | main.py:30-36 | over valid lines, the summed line discounts lie between 0 and the subtotal |
| `Pricing.UnroundedBounds` | main.py:33-40 | with valid lines and an order discount in [0,100], before rounding 0 ≤ total ≤ subtotal and 0 ≤ total discount ≤ subtotal |
| `Pricing.PricedBounds` | main.py:29-45 | the same bounds hold of the three rounded amounts |
| `Pricing.PricedBalanceWithinOneCent` | main.py:42-44 | the rounded total differs from rounded subtotal − rounded discount by at most 0.01 |
| `Pricing.StoredAmountsNeedNotBalance` | main.py:42-44 | one line of 0.016 at a 25% discount stores 0.02, 0.00, 0.01, so total ≠ subtotal − discount |
| `Pricing.RoundingLinesFirstDiffers` | main.py:32-42 | two lines of 0.004: rounding the sum gives 0.01, rounding each line first would give 0.00 |
| `Pricing.WorkedExample` | main.py:29-45 | 2 × 50.00 at 10% with 5% off the order prices to 100.00, 14.50, 85.50 |
| `Pricing.OverHundredPercentGoesNegative` | main.py:38-40 | an unchecked 150% order discount on 10.00 prices the total at −5.00 |
| `Mutation.BuildUpdateFields` | main.py:165-178 | the fields written are exactly the supplied status, items and discount, plus the amounts iff items or a discount are supplied; the amounts are then priced from new-or-stored items and new-or-stored discount; no fields iff nothing is supplied; writing them gives `Merged` |
| `Mutation.SetFields` | main.py:179-181 | writing a field set never changes the customer reference, and an empty set changes nothing |
| `Mutation.EmptyUpdateKeepsOrder` | main.py:179-180 | an update that supplies nothing leaves the stored order as it was |
| `Mutation.StatusOnlyKeepsTotals` | main.py:166-178 | a status-only update keeps the stored amounts and items, whatever pricing would now give |
| `Mutation.DiscountOnlyUsesStoredItems` | main.py:170-177 | a discount-only update prices the stored items with the new discount |
| `Mutation.ItemsOnlyUsesStoredDiscount` | main.py:168-177 | an items-only update prices the new items with the stored discount |
| `Mutation.UpdateKeepsCustomer` | main.py:165-181 | no update changes the order's customer reference |
| `Mutation.UpdateKeepsConsistent` | main.py:173-178 | an order whose amounts are what pricing gives keeps that property through any update |
| `Mutation.UpdateIdempotent` | main.py:165-181 | applying the same update twice equals applying it once |
| `Mutation.UpdateKeepsValid` | main.py:173-178 | a valid order updated with valid items and an in-range discount stays valid |
| `Store.StatusOrPending` | main.py:117 | the stored status is the supplied status when that is non-empty, and "Pending" when it is absent or empty |
| `Store.CustomerName` | main.py:149-150 | the attached name is present iff the referenced customer exists, and is then that customer's name |
| `Store.InitialOrderSound` | main.py:114-121 | a newly created order's amounts are what pricing gives; with an in-range discount it is valid |
| `Store.OrderStore.CreateCustomer` | main.py:57-65 | an email already stored fails with a duplicate-email error and stores nothing; otherwise the customer is stored under a fresh id and emails stay unique |
| `Store.OrderStore.DeleteCustomer` | main.py:91-96 | a stored customer is removed with no effect on orders; a missing id is not found and changes nothing |
| `Store.OrderStore.CreateOrder` | main.py:108-124 | an unknown customer id fails and stores nothing; otherwise a fresh id holds the status (or "Pending"), discount, items and priced amounts |
| `Store.OrderStore.ViewOf` | main.py:149-150 | the view of an order carries its document and a name iff its customer still exists |
| `Store.OrderStore.GetOrder` | main.py:144-151 | a missing id is not found; otherwise the order with its customer's name, or none for an orphaned reference |
| `Store.OrderStore.ListOrders` | main.py:127-141 | every order matching the status and customer filters appears exactly once, with its customer name, and nothing else appears |
| `Store.OrderStore.UpdateOrder` | main.py:160-183 | a missing id is not found and writes nothing; otherwise the stored order becomes `Merged(old, update)`; an empty update writes nothing; customers are untouched |
| `Store.OrderStore.DeleteOrder` | main.py:186-191 | a stored order is removed; a missing id is not found and changes nothing |

## Left out

- HTTP routing, CORS, the root and diagnostics endpoints, and process startup (main.py:11-19, 50-52, 194-222) are web plumbing and not modelled.
- The database driver is not modelled, and database.py is not part of this model. Documents are map entries, and a counter stands for ObjectId generation. ObjectId parsing and string conversion (`to_str_id`, main.py:23-26) and `created_at` timestamps are left out.
- `Store.OrderStore.ListOrders`: does not state the newest-first order of the listing (main.py:134), because the timestamps it sorts by are not modelled.
- `Money.Round2`: rounds exact reals, ties to even. It does not reproduce IEEE-754 binary floats, nor Python's `round` on them. The amounts are exact reals, not floats.
- `Mutation.BuildUpdateFields`: takes the stored items and discount directly. The defaults in `d.get("items", [])` and `d.get("order_discount_percent", 0)` (main.py:175-176) are never reached, because every stored order in this model is written by order creation with both keys present. Re-validating stored items as `OrderItem` is also not modelled.
- The check-then-insert race on email uniqueness and on the customer reference (main.py:60-63, 111-122) is a concurrency gap and is not modelled; every handler runs alone.
- `update_customer`, `get_customer` and `list_customers` (main.py:68-88) are not modelled. `update_customer` is a full field replacement with only a not-found branch, and it does not re-check email uniqueness. So `EmailsUnique` is an invariant of the modelled handlers only.
- Customer ids are always present in stored orders, so the "no customer id" branch of the name lookup (main.py:138, 149) is never taken.
- An empty customer-id filter in `list_orders` is modelled as an absent filter.
- Request parsing is not modelled. Items arrive already validated as `OrderItem`, which is why `ItemsValid` is a precondition of the order handlers. The create request's defaults (order discount 0 and no items when omitted, main.py:104-105) are applied before `OrderCreate` is built, so its `orderDiscountPercent` and `items` are always given.
- The unused schemas `User` and `Product` (schemas.py:51-63) are not modelled.
