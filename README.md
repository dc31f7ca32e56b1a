# Order and payment lifecycle of a food-ordering backend

This project is a Dafny model of the order router of a food-ordering REST
backend. The router validates a cart against the food catalog and creates an
order. It records payments against the caller's open (`NEW`) order and moves
that order to `PAYED` when a payment completes. It answers order queries
scoped to the caller, and it serves admin mutations on order and payment
status. The database is modelled as two maps, `orders` and `payments`, inside
one object, `OrderRouter.OrderService`. The catalog is a third, read-only map
from product id to its `(size, price)` variants. Requests are handled one at a
time.

Modules:

- `OrderTypes` (types.dfy): ids, `Order`, `Payment`, `Item`, `Variant`, the
  status datatype `NEW | PAYED | Other(name)` with `ParseStatus`, the
  `Response` datatype (`Ok`, `BadRequest(msg)`, `NotFound`, `Unauthorized`),
  and the handlers' message strings.
- `CartValidation` (validation.dfy): the per-item checks of `/create` in their
  fixed order, `quantities.find`, the `filter(item => item.product)` pass, and
  `CheckCart`, the outcome of all checks.
- `OrderQueries` (queries.dfy): store filters as a `Filter` value and
  `Matches`. `Find` is the store's `find(...).sort('-createdAt')`, built as a
  loop with sorted insertion. `Count` is `countDocuments`. The read-only
  handlers (track, list, admin list, purchase count, open-order lookups,
  lookup by id) are defined on top of them.
- `OrderRouter` (service.dfy): the class `OrderService` with the handlers that
  change state (`Create`, `Pay`, `SetOrderStatus`, `SetPaymentStatus`,
  `Delete`). Beside it are the pure functions that specify them (`NewOrder`,
  `NewPayment`, `MarkPaid`, `Reconcile`) and a worked checkout
  (`CheckoutExample`).

Behaviour the model keeps because the code does it:

- `/create` spreads the whole request body into the new order and then sets
  `user` to the caller. A `status` or `paymentId` sent by the client is
  therefore stored, and the order is `NEW` only when the body names no status
  (`NewOrder`). The total price is the client's value. It is never recomputed
  from the items.
- The "No valid products in cart!" branch of `/create` is kept in `Create`.
  `CheckCart` proves that it is unreachable: every item that passes
  validation carries a product reference.
- `/pay` defaults `method` to `PayPal` and `status` to `COMPLETED`. It always
  records a payment. It changes the order and emits a receipt only for
  `COMPLETED`. The receipts are kept in the ghost log `OrderService.receipts`.
- The admin payment-status path marks the linked order `PAYED` from any
  status other than `PAYED`, not only from `NEW`. It emits no receipt.
- `/track/:orderId` answers a missing or foreign order with the
  unauthorized marker (`Unauthorized`), not with not-found.
- `DELETE /:id` is behind authentication only, with no admin check, so the
  model's `Delete` takes no caller.
- `GET /newOrderForCurrentUser` looks up an open order without sorting. The
  helper used by `/pay` sorts by `createdAt` descending. `CurrentOpenOrder`
  therefore promises some open order, and `LatestOpenOrder` promises the
  newest.

## Model

| member | source | states |
|---|---|---|
| `OrderTypes.ParseStatus` | backend/src/routers/order.router.js:196-198 | a status string is stored as a well-formed status whose name is that string |
| `OrderTypes.ParseStatusInjective` | backend/src/routers/order.router.js:158 | two status strings give the same stored status exactly when they are equal, so status filters compare what the database compares |
| `OrderTypes.ParseStatusName` | backend/src/routers/order.router.js:232 | every well-formed status is parsed back from its own name (the literal 'PAYED' selects PAYED orders) |
| `CartValidation.FindVariant` | backend/src/routers/order.router.js:33 | returns the variant at the first index whose size matches, and None exactly when no variant has that size |
| `CartValidation.ItemError` | backend/src/routers/order.router.js:31-35 | invalid product iff the reference is absent or unknown; invalid size iff no variant has the size; price mismatch iff the first variant of the size has another price; passes iff that price equals the claimed price |
| `CartValidation.FirstViolation` | backend/src/routers/order.router.js:30-36 | None iff every item passes; otherwise the error of an item all of whose predecessors pass (the first failing item) |
| `CartValidation.WithProduct` | backend/src/routers/order.router.js:38 | the result is a subsequence of the items, in their order, holding every item with a product reference as often as the input does and no item without one; it is the input itself when every item has a product |
| `CartValidation.CheckCart` | backend/src/routers/order.router.js:26-41 | an empty cart gives "Cart Is Empty!"; a non-empty cart gives the first item's error; it is accepted iff non-empty and every item passes; the second-pass filter then removes nothing, so "No valid products in cart!" never occurs |
| `CartValidation.PriceMismatchRefused` | backend/src/routers/order.router.js:35 | a cart with a mispriced item is refused, with "Price mismatch!" when no earlier item fails |
| `OrderQueries.Insert` | backend/src/routers/order.router.js:162 | inserting into the result adds exactly that entry (multiset) |
| `OrderQueries.InsertSorted` | backend/src/routers/order.router.js:162 | insertion keeps the result sorted by createdAt descending |
| `OrderQueries.SortedHeadIsNewest` | backend/src/routers/order.router.js:258 | the head of a newest-first result is at least as new as every element |
| `OrderQueries.Find` | backend/src/routers/order.router.js:160-162 | the result is sorted newest first and holds each order the filter selects exactly once, and nothing else |
| `OrderQueries.Count` | backend/src/routers/order.router.js:232 | the count equals the number of ids the filter selects |
| `OrderQueries.TrackFilter` | backend/src/routers/order.router.js:89-95 | selects exactly that id, and only the caller's order unless the caller is admin |
| `OrderQueries.Track` | backend/src/routers/order.router.js:97-102 | returns the stored order iff it exists and the caller is admin or its owner; otherwise the unauthorized marker |
| `OrderQueries.TrackIsFindOne` | backend/src/routers/order.router.js:97 | the track filter selects at most the requested order, and Track returns it exactly when it is selected |
| `OrderQueries.TrackKeepsOwnership` | backend/src/routers/order.router.js:93-95 | a non-admin asking for another user's order receives the unauthorized marker |
| `OrderQueries.ListFilter` | backend/src/routers/order.router.js:155-158 | selects an order iff the caller is admin or owns it, and it has the path status when one is given |
| `OrderQueries.List` | backend/src/routers/order.router.js:150-166 | lists every order the caller may see with the requested status, each once, newest first; a non-admin sees only their own orders |
| `OrderQueries.AdminFilter` | backend/src/routers/order.router.js:172-180 | selects an order iff it matches each given user, status, lower bound and upper bound, with both bounds inclusive |
| `OrderQueries.AdminList` | backend/src/routers/order.router.js:169-189 | lists every order the admin filter selects, each once, newest first, all inside the given createdAt range |
| `OrderQueries.AdminRangeInclusive` | backend/src/routers/order.router.js:176-180 | an order created exactly at either end of the range is selected |
| `OrderQueries.PurchaseFilter` | backend/src/routers/order.router.js:232 | selects exactly the caller's orders whose status is PAYED |
| `OrderQueries.PurchaseCount` | backend/src/routers/order.router.js:229-238 | the count equals the number of the caller's orders with status PAYED |
| `OrderQueries.OpenOrderFilter` | backend/src/routers/order.router.js:254-257 | selects exactly the caller's orders in NEW |
| `OrderQueries.LatestOpenOrder` | backend/src/routers/order.router.js:253-259 | None iff the caller has no NEW order; otherwise a stored NEW order of the caller with the greatest createdAt among them |
| `OrderQueries.CurrentOpenOrder` | backend/src/routers/order.router.js:119-142 | not found iff the caller has no NEW order; otherwise one of the caller's stored NEW orders |
| `OrderQueries.FindById` | backend/src/routers/order.router.js:240-250 | returns the stored order iff the id exists, whoever asks, and not found otherwise |
| `OrderRouter.PayStatus` | backend/src/routers/order.router.js:53 | the recorded payment status is the body's status, or COMPLETED when the body gives none |
| `OrderRouter.NewOrder` | backend/src/routers/order.router.js:43 | the created order is owned by the caller, has the input items, the client's total, the body's paymentId and createdAt equal to the creation time, and is NEW unless the body names a status |
| `OrderRouter.NewPayment` | backend/src/routers/order.router.js:59-66 | the payment links the order and the caller, has amount equal to the order's total, the body's payment id and status, and the body's method, or PayPal when the body gives none |
| `OrderRouter.MarkPaid` | backend/src/routers/order.router.js:71-72 | the order becomes PAYED with the payment id set, and no other field changes |
| `OrderRouter.Reconcile` | backend/src/routers/order.router.js:215-221 | only the linked order can change; nothing changes unless the status is COMPLETED and the order exists and is not PAYED, in which case it is marked paid with the payment's id |
| `OrderRouter.ReconcileIdempotent` | backend/src/routers/order.router.js:217 | applying the same admin payment status twice leaves the orders as applying it once |
| `OrderRouter.MarkPaidClosesOrder` | backend/src/routers/order.router.js:55-72 | marking an order paid removes exactly that order from every user's open orders and leaves the others open, so it is never again the order a later `/pay` targets |
| `OrderRouter.MarkPaidCountsAsPurchase` | backend/src/routers/order.router.js:70-73 | marking one of a user's unpaid orders paid raises that user's purchase count (line 232) by exactly one |
| `OrderRouter.OrderService.Create` | backend/src/routers/order.router.js:21-48 | fails with exactly CheckCart's message and changes no order; otherwise adds exactly one order under a fresh id, equal to NewOrder; payments never change |
| `OrderRouter.OrderService.Pay` | backend/src/routers/order.router.js:50-80 | with no NEW order for the caller, "Order Not Found!" and no store changes; otherwise targets the caller's newest NEW order, adds exactly one payment under a fresh id, and marks the order paid and emits one receipt iff the status is COMPLETED, leaving the orders untouched otherwise |
| `OrderRouter.OrderService.SetOrderStatus` | backend/src/routers/order.router.js:193-202 | not found iff the id is missing; otherwise only that order's status is overwritten, with any value, and an absent status leaves the order as it was |
| `OrderRouter.OrderService.SetPaymentStatus` | backend/src/routers/order.router.js:205-226 | not found iff the id is missing; otherwise only that payment's status is overwritten and the orders change as Reconcile says; an absent status changes neither the payment nor any order; no receipt is emitted |
| `OrderRouter.OrderService.Delete` | backend/src/routers/order.router.js:106-116 | not found iff the id is missing; the orders lose exactly that id and payments are untouched |

## Left out

- HTTP plumbing is not modelled: status codes, Express routing and the 500 paths (database errors, casts of malformed ids, a missing user record). `backend/src/server.js` is not part of this model.
- Route precedence is not modelled. `GET /:status?` is declared before `GET /orders` and `GET /user-purchase-count`, so in the running router it answers those paths itself (with status "orders" or "user-purchase-count"). `AdminList` and `PurchaseCount` model the shadowed handlers as written.
- `GET /allstatus` is not modelled: it lists the status enumeration, and the constants file holding it is not part of this model.
- The authentication and admin middleware are not modelled. The caller's id and admin flag are inputs.
- Sending the receipt email is not modelled. The model only appends the order to the ghost log `receipts`, with no delivery, retry or failure.
- `populate` is treated as the identity. The admin list's payment population is not modelled.
- Prices and totals are integers compared exactly, and timestamps are integers. JavaScript number semantics and `new Date(...)` parsing of `from` and `to` are not modelled.
- Absent and empty query or path values are both modelled as `None`. JavaScript truthiness on other values (for example `0`) is not modelled.
- Body fields of `/create` other than items, totalPrice, status and paymentId are not modelled, and `createdAt` is always the server time `now`. The client-supplied item quantity is carried but never checked, as in the code.
- Id generation is modelled by counters (`nextOrderId`, `nextPaymentId`), standing for the database's fresh ids.
- Concurrent requests are not modelled: the model runs one request at a time, so the race of two completed payments is out of scope.
- The "at most one NEW order per user" convention is not enforced by the code and is not assumed. `/pay` takes the newest NEW order.
- The status constants file is not part of this model. The model assumes that `OrderStatus.NEW` and `OrderStatus.PAYED` are the strings "NEW" and "PAYED", the same string the purchase count compares with the literal 'PAYED'.
- In both admin status handlers the body's `status` is optional. The model assumes that the store drops an update key whose value is undefined, so an absent status leaves the order or payment as it was, and the payment handler then does not reconcile the order, because its check compares the body's status with 'COMPLETED'.
