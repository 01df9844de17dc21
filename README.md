# Order lifecycle and payment settlement, modelled in Dafny

This project models the core of an e-commerce backend. That core is:

- the order services: checkout, lookup, status updates, cancellation, bulk checkout, the filtered listing and the summary statistics;
- the payment services: charge, refund, status read and the refund run on cancellation;
- the product services;
- the four in-memory stores they run on (products, orders, payments, users).

## How the model is built

**Stores.** Each store is a module-level array in the source. Here it is a class holding one `seq` field.
- Create and update are methods with `modifies this`. Their `ensures` give the whole new store.
- Lookups are functions with `reads this`.
- Lookups return the first match, as `Array.prototype.find` does (`Seqs.Find`, `Seqs.FirstIndex`).

**Services.** Each service is specified by a pure function. The function maps the store contents before the call to a `Result`, which holds either the error code or the stores after the call plus the record returned.
- The service functions are `Create` (checkout as written; `CreateCorrected` is the corrected checkout of the first finding), `UpdateStatus`, `Cancel`, `BulkCreate`, `Process`, `Refund`, `RefundIfPaid`, `UpdateProduct`, `DeleteProduct` and `UpdateStock`.
- A method runs each service against the store objects. The method's `ensures` states that it agrees with the function, and that on error the stores are unchanged (except bulk checkout, which is not atomic: orders placed before the failing payload stay).
- The lemmas state what the source promises about those functions: error cases, "only this entry changes", round trips, idempotence and preserved invariants.

**The store invariant.** `OrderService.Consistent` says two things:
- no product has negative stock;
- every stored order has at least one line, positive quantities, and totals computed from its own lines.

Status updates, cancellation and the corrected checkout keep it. Checkout and bulk checkout as written always keep the orders well formed, but keep stock non-negative only when each request names every product once.

**Inputs the model takes as parameters.**
- Identifiers (uuids, generated order ids, transaction references) and clock values (`new Date()`, `Date.now()`).
- The caller `{id, role}`, which is trusted.
- The results of `getPagination` (`page`, `limit`, `skip`).

**Money.** Prices and totals are integers in minor currency units. The 18% tax is rounded half up.

## Model

| member | source | states |
|---|---|---|
| Lifecycle.TransitionShortensRemaining | src/services/order.service.js:17-28 | every allowed transition leads to a status with strictly fewer remaining steps, so the table has no cycle and delivered/cancelled are final |
| Lifecycle.RunsNeverRevisit | src/services/order.service.js:17-28 | along any chain of allowed transitions, no status is visited twice |
| Lifecycle.RunsAreShort | src/services/order.service.js:17-28 | a chain of allowed transitions passes through at most five statuses, and at most Remaining(s)+1 from status s |
| Lifecycle.FulfilmentPath | src/services/order.service.js:17-28 | pending→confirmed→processing→shipped→delivered is accepted step by step; pending→shipped is rejected |
| Lifecycle.CancellableStatuses | src/services/order.service.js:240-249 | the table allows cancellation exactly from pending and confirmed, the statuses cancelOrderService accepts |
| Pricing.SubTotalConcat | src/services/order.service.js:31-34 | the subtotal of two item lists put together is the sum of their subtotals |
| Pricing.SubTotalPositive | src/services/order.service.js:31-34 | a non-empty list with positive prices and quantities has a positive subtotal |
| Pricing.Tax | src/services/order.service.js:35-36 | the tax is the integer nearest to 18% of the subtotal: 18·s − 50 < 100·t ≤ 18·s + 50 |
| Pricing.CalculateTotals | src/services/order.service.js:30-46 | subTotal is Σ price×quantity, tax is 18% rounded to the nearest unit, discount is 0, grandTotal = subTotal + tax − discount |
| Pricing.GrandTotalPositive | src/services/order.service.js:30-46 | orders of positive prices and quantities have a positive grand total, so payment never rejects them as "total is invalid" |
| Pricing.TwoUnitsAtOneThousand | src/services/order.service.js:30-46 | two units at 1000 give subtotal 2000, tax 360, discount 0, grand total 2360 |
| Reservation.CheckItem | src/services/order.service.js:60-91 | per item: ValidationError iff the product id is missing or the quantity is not a positive integer; NotFound iff the product is missing or inactive; InsufficientStock iff the stock is below the quantity (plus what earlier lines take, in the corrected check); otherwise the line with the product's current price |
| Reservation.ValidateAndPrepareItems | src/services/order.service.js:48-95 | the validation loop as written returns Prepared(store, items, false), reading the product store and changing nothing |
| Reservation.PrepareFromAsWritten | src/services/order.service.js:57-94 | as written, the items pass iff each passes its own check against the unchanged store |
| Reservation.PrepareFromAsWrittenLines | src/services/order.service.js:57-94 | as written, a successful preparation has one line per item, in request order, each the line that item's own check yields |
| Reservation.PrepareFromFirstError | src/services/order.service.js:59-92 | as written, the error raised is that of the first item that fails its check |
| Reservation.PrepareFromSnapshot | src/services/order.service.js:87-91 | every prepared line is the snapshot of its request: same product and quantity, the active product's price, same length and order as the request |
| Reservation.ValidateAndPrepareItemsCumulative | src/services/order.service.js:48-95 | the corrected validation loop returns Prepared(store, items, true): each item's stock check also counts the earlier lines for that product |
| Reservation.CumulativeCovers | src/services/order.service.js:79-85 | with the corrected check, the lines accepted for each product add up to no more than its stock |
| Reservation.DistinctPrepared | src/services/order.service.js:79-85 | a request naming each product once gets the same lines or the same error from the check as written and from the corrected one |
| Reservation.DistinctIdsAgree | src/services/order.service.js:79-85 | when no two lines name the same product, the corrected check and the check as written give the same result on every store |
| Reservation.AdjustAllEffect | src/services/order.service.js:97-113 | reserving (releasing) lines moves each product's stock down (up) by the total quantity the lines take of it, and changes no other field of any product |
| Reservation.ReleaseUndoesReserve | src/services/order.service.js:97-113 | incrementStock after decrementStock of the same lines gives every product its stock back; only update times differ |
| Reservation.ReserveKeepsStockNonNegative | src/services/order.service.js:97-104 | reserving lines that the stock covers keeps every stock non-negative |
| Reservation.ReleaseKeepsStockNonNegative | src/services/order.service.js:106-113 | releasing lines of positive quantity keeps every stock non-negative |
| Reservation.CumulativeReservationKeepsStock | src/services/order.service.js:79-104 | an order accepted by the corrected check can be reserved with no stock going negative |
| Reservation.DuplicateItemOverdrawsStock | src/services/order.service.js:79-104 | as written, stock 1 and two lines of one unit of the same product pass validation and leave stock −1; the corrected check answers InsufficientStock |
| Reservation.AdjustLine | src/services/order.service.js:99-103 | one loop iteration: a product found by id has its stock moved by the line's quantity and its update time set, exactly the step AdjustOne describes; an absent product leaves the store as it was |
| Reservation.DecrementStock | src/services/order.service.js:97-104 | the loop leaves the product store equal to AdjustAll(old store, lines, reserve) |
| Reservation.IncrementStock | src/services/order.service.js:106-113 | the loop leaves the product store equal to AdjustAll(old store, lines, release); absent products are skipped |
| OrderService.StatusUpdateKeepsWellFormed | src/repositories/order.repository.js:43-48 | an order update that rewrites neither lines nor totals keeps every order well formed |
| OrderService.Checkout | src/services/order.service.js:115-150 | an incomplete address or a missing payment method gives ValidationError; an item error is passed on; success iff all checks pass; then exactly one pending order with no payment, priced by calculateTotals, is appended and the stock is reserved. `Create` is checkout with the item check as written, `CreateCorrected` with the corrected one |
| OrderService.CheckoutKeepsWellFormed | src/services/order.service.js:115-150 | under either item check, the new order has one line per requested item, each a price snapshot, and every stored order stays well formed |
| OrderService.CreateKeepsConsistent | src/services/order.service.js:115-150 | checkout as written keeps every order well formed and gives one snapshot line per item; it keeps no stock negative when the request names each product once |
| OrderService.CreateDuplicateOverdraws | src/services/order.service.js:79-104 | checkout as written places an order of two one-pen lines against a stock of one, leaving stock −1 and breaking the store invariant; the corrected checkout rejects it with InsufficientStock |
| OrderService.CreateCorrectedKeepsConsistent | src/services/order.service.js:115-150 | the corrected checkout keeps no stock negative and every order well formed, for every request |
| OrderService.CreateOrderService | src/services/order.service.js:115-150 | the method, which calls validateAndPrepareItems as written, agrees with Create; on any error neither the product nor the order store changes (all checks precede the stock write) |
| OrderService.GetOrderById | src/services/order.service.js:196-207 | NotFound iff no order has the id; Forbidden iff a customer asks for another user's order; otherwise the first stored order with that id |
| OrderService.CreatedOrderReadsBack | src/services/order.service.js:196-207 | right after checkout with a fresh id, the customer reads back exactly the order placed |
| OrderService.UpdateStatus | src/services/order.service.js:209-228 | NotFound iff the order is missing; ValidationError iff the transition is not in the table; otherwise only that order's status (and update time) changes |
| OrderService.UpdateStatusChangesOnlyStatus | src/services/order.service.js:209-228 | after a successful update the order read back is the one returned, the store length and every other order are unchanged, and well-formedness is kept |
| OrderService.TerminalOrdersAreFinal | src/services/order.service.js:209-228 | every status update of a delivered or cancelled order is rejected with ValidationError |
| OrderService.UpdatesFollowRun | src/services/order.service.js:209-228 | the statuses an order goes through by successful updates form a chain of the table, so at most four updates of one order succeed |
| OrderService.UpdateOrderStatusService | src/services/order.service.js:209-228 | the method agrees with UpdateStatus; on error the order store is unchanged |
| OrderService.Cancel | src/services/order.service.js:230-259 | NotFound, Forbidden (customer, other's order) and ValidationError (status neither pending nor confirmed) exactly; on success the order's lines are released, a successful payment is refunded, and the order becomes cancelled |
| OrderService.CancelKeepsConsistent | src/services/order.service.js:230-259 | cancellation keeps the store invariant, leaves the order with no successful payment, and a second cancellation is rejected |
| OrderService.CreateThenCancelRestoresStock | src/services/order.service.js:230-259 | checkout followed by cancellation by the same caller gives every product its stock back |
| OrderService.CheckoutExample | src/services/order.service.js:115-150 | P1 at 1000 with stock 5, two units: totals 2000/360/0/2360, pending, no payment, stock 3; cancelling restores stock 5 |
| OrderService.CancelOrderService | src/services/order.service.js:230-259 | the method agrees with Cancel; on error the product, order and payment stores are unchanged |
| OrderService.StatusCancelKeepsStockReserved | src/services/order.service.js:209-228 | as written, a status update from pending to cancelled succeeds, keeps the reserved stock taken, and the order can no longer be cancelled |
| OrderService.UpdateStatusCompensated | src/services/order.service.js:209-228 | corrected status update: a move to cancelled is the cancellation with its compensations; any other move is the plain update |
| OrderService.CompensatedCancelRestoresStock | src/services/order.service.js:209-228 | with the corrected update, staff cancelling a fresh order through the status route gives every product its stock back |
| OrderService.BulkFromExtends | src/services/order.service.js:262-284 | bulk checkout only appends orders, whether it ends in success or in an error |
| OrderService.BulkFromAppends | src/services/order.service.js:262-284 | on success it returns one order per payload, in payload order, exactly those appended to the store |
| OrderService.BulkFromKeepsConsistent | src/services/order.service.js:262-284 | every step of bulk checkout keeps the orders well formed, whether the loop ends in success or in error; no stock goes negative when every payload names each product once |
| OrderService.BulkKeepsEarlierOrders | src/services/order.service.js:271-281 | when the first payload is placed and the second fails, the call reports the second error while the first order and its stock reservation stay |
| OrderService.BulkCreateOrdersService | src/services/order.service.js:262-284 | the loop agrees with BulkCreate: an empty payload list is a ValidationError, otherwise checkouts as written run in order until the first error |
| OrderQueries.Visible | src/services/order.service.js:162-180 | the listed orders are exactly the stored orders that match the query and that the caller may see (a customer only their own) |
| OrderQueries.GetOrdersForUser | src/services/order.service.js:152-194 | total is the filtered count, totalPages is max(1, ceil(total/limit)), items are the filtered orders from skip on, exactly min(limit, total − skip) of them (none past the end), each a customer's own |
| OrderQueries.StaffSeeEveryOrder | src/services/order.service.js:174-180 | staff with an empty query see the whole store, in store order |
| OrderQueries.StatusCountsAgree | src/services/order.service.js:295-298 | byStatus has a key exactly for each status that occurs, counting the orders in that status |
| OrderQueries.CountsSumToTotal | src/services/order.service.js:295-298 | the per-status counts add up to the number of orders |
| OrderQueries.GetSummaryStatsService | src/services/order.service.js:286-305 | totalOrders is the number of orders, totalRevenue the sum of grand totals, byStatus the per-status counts |
| OrderQueries.CheckoutUpdatesStats | src/services/order.service.js:286-305 | a checkout adds one order, its grand total to the revenue and one to the pending count, and no other count changes |
| Paging.TotalPages | src/services/order.service.js:191 | the fewest pages of `limit` items that hold `total` items, and 1 when there are none |
| Paging.Paginate | src/services/order.service.js:182-193 | meta is {page, limit, total, totalPages}; items are the slice [skip, skip+limit) clamped to the list, with its exact length |
| Paging.SecondPageOfTwentyFive | src/services/order.service.js:182-193 | 25 matches with limit 10: page 2 holds matches 11 to 20 and there are 3 pages |
| Orders.UpdatedOrders | src/repositories/order.repository.js:39-49 | an unknown id leaves the store as is; otherwise only the first order with the id is replaced by its merge with the updates, and the length is kept |
| Orders.UpdateKeepsOrderIds | src/repositories/order.repository.js:43-48 | an update without an id key keeps every order's id, so every lookup by id finds the same index afterwards |
| Orders.OrderRepository.constructor | src/repositories/order.repository.js:4 | the store starts empty |
| Orders.OrderRepository.CreateOrder | src/repositories/order.repository.js:14-33 | exactly one order with the given fields is appended; earlier orders are unchanged |
| Orders.OrderRepository.FindOrderById | src/repositories/order.repository.js:35-37 | none iff no order has the id; otherwise the first order with it |
| Orders.OrderRepository.UpdateOrder | src/repositories/order.repository.js:39-49 | null and no change for an unknown id; otherwise the store becomes UpdatedOrders and the merged record is returned |
| Orders.OrderRepository.FindOrdersByUserId | src/repositories/order.repository.js:51-53 | exactly the stored orders of that user that pass the filter |
| Orders.OrderRepository.FindAllOrders | src/repositories/order.repository.js:55-57 | exactly the stored orders that pass the filter |
| Orders.OrderRepository.FindAllOrdersDefault | src/repositories/order.repository.js:55-57 | with the default filter the result is the whole store in store order |
| Payments.UpdatedPayments | src/repositories/payment.repository.js:29-40 | an unknown id leaves the store as is; otherwise only the first payment with the id is replaced by its merge with the updates, and the length is kept |
| Payments.UpdateKeepsKeys | src/repositories/payment.repository.js:33-39 | an update without id or orderId keeps every id and order id, hence unique ids and one payment per order |
| Payments.PaymentRepository.constructor | src/repositories/payment.repository.js:5 | the store starts empty |
| Payments.PaymentRepository.CreatePayment | src/repositories/payment.repository.js:7-19 | exactly one payment with the given order, method, amount, status and reference is appended |
| Payments.PaymentRepository.FindPaymentById | src/repositories/payment.repository.js:21-23 | none iff no payment has the id; otherwise the first payment with it |
| Payments.PaymentRepository.FindPaymentByOrderId | src/repositories/payment.repository.js:25-27 | none iff no payment is for the order; otherwise the first payment for it |
| Payments.PaymentRepository.UpdatePayment | src/repositories/payment.repository.js:29-40 | null and no change for an unknown id; otherwise the store becomes UpdatedPayments and the merged record is returned |
| PaymentService.PaymentFollowsTable | src/services/payment.service.js:61-62 | payment changes the order status only from pending, to confirmed, which is an edge of the transition table |
| PaymentService.Rewrite | src/services/payment.service.js:52-57 | updating a payment taken from the store finds it, rewrites it in place and keeps its id |
| PaymentService.IdLeadsBack | src/services/payment.service.js:32 | with unique ids, the payment found for an order is the one its id leads back to |
| PaymentService.UpdateKeepsOrderLookup | src/services/payment.service.js:96-98 | an update without id or orderId keeps every lookup of a payment by order at the same index |
| PaymentService.Process | src/services/payment.service.js:17-70 | NotFound, Forbidden and ValidationError (total 0 or payment already successful) exactly; otherwise a successful payment for the grand total, new or overwriting the existing record with the same id, and the order gets its paymentId and pending→confirmed |
| PaymentService.ProcessRecordsPayment | src/services/payment.service.js:37-69 | after a charge the order holds the payment id and advanced status, and the payment found for the order is the one returned, successful, for the grand total |
| PaymentService.ProcessTwiceRejected | src/services/payment.service.js:32-35 | charging an already charged order again is a ValidationError: no double charge |
| PaymentService.ProcessKeepsPaymentKeys | src/services/payment.service.js:42-58 | a charge keeps payment ids unique and keeps at most one payment per order |
| PaymentService.ProcessPayment | src/services/payment.service.js:17-70 | the method agrees with Process; on error neither the order nor the payment store changes |
| PaymentService.Refund | src/services/payment.service.js:72-101 | NotFound (order or payment missing), Forbidden and ValidationError (payment not successful) exactly; otherwise only the payment found becomes refunded |
| PaymentService.RefundChangesOnlyThatPayment | src/services/payment.service.js:96-100 | a refund changes only the status and update time of the order's payment; every other payment is unchanged |
| PaymentService.RefundTwiceRejected | src/services/payment.service.js:88-94 | a second refund of the same order is a ValidationError |
| PaymentService.RefundAfterProcess | src/services/payment.service.js:72-101 | a charged order can be refunded by the same caller, and its payment is then refunded |
| PaymentService.RefundPayment | src/services/payment.service.js:72-101 | the method agrees with Refund, modifies only the payment store, and leaves it unchanged on error |
| PaymentService.GetPaymentStatus | src/services/payment.service.js:103-119 | NotFound iff the order or its payment is missing (for a caller allowed to see it); Forbidden iff a customer asks about another user's order; otherwise the order's first payment |
| PaymentService.StatusAfterProcess | src/services/payment.service.js:103-119 | right after a charge, the status read for the order is the payment the charge returned |
| PaymentService.RefundIfPaid | src/services/payment.service.js:122-133 | never an error: none without a payment, a successful payment becomes refunded, any other payment is returned unchanged with the store unchanged |
| PaymentService.RefundIfPaidIdempotent | src/services/payment.service.js:122-133 | running the compensation twice leaves the payment store as running it once |
| PaymentService.RefundIfPaidLeavesNoSuccess | src/services/payment.service.js:122-133 | after the compensation the order has no successful payment |
| PaymentService.RefundIfPaidForOrder | src/services/payment.service.js:122-133 | the method agrees with RefundIfPaid |
| Products.UpdatedProducts | src/repositories/product.repository.js:34-44 | an unknown id leaves the store as is; otherwise only the first product with the id is replaced by its merge with the updates, and the length is kept |
| Products.SoftDeleteTwice | src/repositories/product.repository.js:46-53 | soft-deleting twice finds the same product, leaves it inactive, and changes nothing but update times compared with deleting once |
| Products.ProductRepository.constructor | src/repositories/product.repository.js:5 | the store starts empty |
| Products.ProductRepository.CreateProduct | src/repositories/product.repository.js:7-24 | exactly one product is appended, active unless told otherwise |
| Products.ProductRepository.FindById | src/repositories/product.repository.js:26-28 | none iff no product has the id; otherwise the first product with it, active or not |
| Products.ProductRepository.FindAll | src/repositories/product.repository.js:30-32 | exactly the stored products that pass the filter |
| Products.ProductRepository.UpdateProduct | src/repositories/product.repository.js:34-44 | null and no change for an unknown id; otherwise the store becomes UpdatedProducts and the merged record is returned |
| Products.ProductRepository.SoftDeleteProduct | src/repositories/product.repository.js:46-53 | null and no change for an unknown id; otherwise only isActive (false) and the update time of the matched product change |
| ProductService.CreateProductService | src/services/product.service.js:7-16 | the stored product is active, with the given fields, appended to the store |
| Text.AccentedCapitalsFold | src/services/product.service.js:22 | lower-casing folds accented Latin-1 capitals as `toLowerCase` does: "École" and "ÉCOLE" both become "école" |
| ProductService.Listed | src/services/product.service.js:26-39 | the listed products are exactly the active stored products whose name or description contains the search term ignoring case and whose price is within the inclusive bounds |
| ProductService.ListProducts | src/services/product.service.js:18-53 | total is the filtered count, totalPages max(1, ceil(total/limit)), items the filtered products from skip on, exactly min(limit, total − skip) of them (none past the end) |
| ProductService.SearchIgnoresCase | src/services/product.service.js:29-33 | searching for a term and for its lower-case form lists the same products |
| ProductService.GetProductById | src/services/product.service.js:55-61 | NotFound iff the first product with the id is missing or inactive; otherwise that first product |
| ProductService.SafeUpdates | src/services/product.service.js:69-74 | the whitelist loop copies exactly name, description, price, stock and isActive when present, and never the id |
| ProductService.UpdateProduct | src/services/product.service.js:63-78 | NotFound iff the product is missing or inactive; otherwise the whitelisted keys are merged into the first product with the id, which keeps its id |
| ProductService.UpdateKeepsProductIds | src/services/product.service.js:69-76 | an update never changes a product id, so every lookup by id finds the same place afterwards |
| ProductService.UpdateProductService | src/services/product.service.js:63-78 | the method agrees with UpdateProduct; on error the store is unchanged |
| ProductService.DeleteProduct | src/services/product.service.js:80-88 | NotFound iff the product is missing or already inactive; otherwise it is deactivated in place |
| ProductService.DeletedProductIsGone | src/services/product.service.js:80-88 | after a delete, lookup, update, stock update and a second delete give NotFound, listings omit the record, and it keeps its stock, price and name |
| ProductService.DeleteProductService | src/services/product.service.js:80-88 | the method agrees with DeleteProduct; on error the store is unchanged |
| ProductService.UpdateStock | src/services/product.service.js:90-98 | NotFound iff the product is missing or inactive; otherwise only its stock (and update time) changes |
| ProductService.UpdateStockKeepsNonNegative | src/validations/product.validation.js:39-45 | a stock that the request validation admits (an integer ≥ 0) keeps every stock non-negative |
| ProductService.UpdateStockService | src/services/product.service.js:90-98 | the method agrees with UpdateStock; on error the store is unchanged |
| Users.SeededUsers | src/repositories/user.repository.js:9-22 | after seeding a user with the admin e-mail exists; a store that already has a user with that exact e-mail is returned unchanged, otherwise exactly the admin record is appended |
| Users.SeedAdminIdempotent | src/repositories/user.repository.js:9-22 | seeding twice leaves the store as seeding once |
| Users.UserRepository.constructor | src/repositories/user.repository.js:6 | the store starts empty |
| Users.UserRepository.SeedAdmin | src/repositories/user.repository.js:9-22 | the method leaves the store equal to SeededUsers |
| Users.UserRepository.CreateUser | src/repositories/user.repository.js:24-34 | exactly one user is appended, a customer unless a role is given; existing users are unchanged |
| Users.UserRepository.FindByEmail | src/repositories/user.repository.js:36-38 | none iff no e-mail equals the query ignoring case; otherwise the first such user |
| Users.UserRepository.FindById | src/repositories/user.repository.js:40-42 | none iff no user has the id; otherwise the first user with it |

## Left out

- HTTP plumbing (routes, controllers, response helpers, error middleware) is not part of this model. Role gating done by the routes is not modelled: the status update and bulk checkout routes are for admins and sellers, the refund route is for admins, and the statistics route is for admins. The model lets any caller role reach `UpdateStatus` and `BulkCreate`.
- Authentication (password hashing, tokens) is not part of this model. The caller `{id, role}` is a trusted input.
- The request validation chains are not modelled. Their bounds appear only as hypotheses where a property needs them: a stock update of at least 0 in `UpdateStockKeepsNonNegative`, and positive quantities via the item check.
- `getPagination` is not part of this model. `page`, `limit > 0` and `skip` are inputs.
- `getAllUsers` and the user-related services are not modelled. They are plain reads of the user store, outside the order and payment core.
- `getOrdersForSpecificUserService` and the invoice controller are not part of this model. Their code is not in the repository files.
- Identifier and timestamp generation are parameters: `uuid()`, `generateOrderId`, `generateTransactionRef` and `new Date()`. A bulk checkout uses one clock value for all of its orders.
- Payments.UniqueIds: uniqueness of payment ids is a hypothesis of the properties that need it, not a store invariant. In the source it rests on uuids.
- Pricing.Tax: models `Math.round(subTotal * 0.18)` in exact integer arithmetic, rounding halves up. It does not model floating-point error in `0.18`. Prices are integer minor units rather than arbitrary positive floats.
- Dynamic JavaScript values are not modelled: non-array item lists, `null` items, non-numeric query strings and `NaN`. A missing product id is the empty string. A missing or non-integer quantity is `None`.
- An unknown from-status cannot arise in the model, because statuses are a datatype.
- `o.totals?.grandTotal || 0` in the revenue sum: every modelled order has totals, so the fallback to 0 never applies.
- ProductService.CreateProductService: the description default `description || ''` is not modelled. The caller passes the description string.
- Text.ToLower: folds the ASCII capitals A to Z and the Latin-1 capitals À to Þ (but not ×) only, while `toLowerCase` folds all of Unicode. Greek, Cyrillic and other capitals, and letters whose lower case is longer, are left as they are, so the product search ("Σ" does not find "σ" in the model) and the e-mail lookup differ from the program on such text.
- ProductService.Listed: case-insensitive matching of the search term folds only what `Text.ToLower` folds.
- Users.UserRepository.FindByEmail: the e-mail comparison ignoring case folds only what `Text.ToLower` folds.
- OrderService.CreateKeepsConsistent: proves that no stock goes negative only when the request names each product once. With a repeated product, the program's checkout can overdraw (first finding, `OrderService.CreateDuplicateOverdraws`).
- OrderService.BulkFromKeepsConsistent: proves that no stock goes negative only when every payload names each product once, for the same reason.
- OrderService.BulkCreateOrdersService: follows the program's checkout, so a payload with a repeated product is placed and can overdraw stock; no invariant about stock is promised for such payloads.
- Concurrency is not modelled. Every operation runs to completion before the next one starts.
- In-place aliasing of returned records is not modelled: the source returns the stored object itself, while the model returns a value copy.

Where the code does not do what it is meant to do, the model follows the code:

- `incrementStock` skips only products that are absent from the store. Soft-deleted products are still found and get their stock back (`Reservation.IncrementStock`).
- Bulk checkout is not atomic across payloads. Orders placed before a failing payload stay committed (`OrderService.BulkKeepsEarlierOrders`).
- Payment rejects only a grand total of 0, the falsy case. It does not require the total to be positive.
- A cancelled order can still be charged. Its status is left as cancelled.
- Stock is meant never to go negative. As written, an order with a repeated product can overdraw it (first finding below).

## Findings

| source | as written | input that shows it | evidently intended | confidence | as-written member | corrected member |
|---|---|---|---|---|---|---|
| src/services/order.service.js:79-104 | each item is checked against the stock before the order, then every item is subtracted | product with stock 1; items `[{p1, 1}, {p1, 1}]` pass validation and leave stock −1 | check each item against what earlier lines of the same order already take, so that stock never goes negative | high, not executed | OrderService.CreateDuplicateOverdraws | OrderService.CreateCorrectedKeepsConsistent |
| src/services/order.service.js:209-228 | a status update to cancelled is a plain status write, with no stock release and no refund | checkout of 2 of 5 pens, then a status update pending→cancelled: stock stays 3, and the order can no longer be cancelled, so the pens are never released | moving to cancelled goes through the cancellation path with its compensations | medium, not executed | OrderService.StatusCancelKeepsStockReserved | OrderService.CompensatedCancelRestoresStock |
