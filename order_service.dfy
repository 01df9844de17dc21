/** The order services: checkout (`createOrderService`), lookup
    (`getOrderByIdService`), status changes (`updateOrderStatusService`),
    cancellation with its compensations (`cancelOrderService`) and bulk
    checkout (`bulkCreateOrdersService`).

    Each service is specified by a function from the store contents before
    the call to its result and the store contents after it; the methods run
    against the repositories and are proved to agree with those functions.
    `Consistent` is the invariant the services keep together: no stock is
    negative and every stored order is priced from its own lines. */
module OrderService {
  import opened Seqs
  import opened Model
  import opened Products
  import opened Orders
  import opened Payments
  import opened Lifecycle
  import opened Pricing
  import opened Reservation
  import opened PaymentService

  /** All four address fields present and non-empty. */
  predicate AddressComplete(a: Option<Address>)
  {
    a.Some? && a.value.line1 != "" && a.value.city != "" && a.value.postalCode != "" && a.value.country != ""
  }

  /** An order as checkout builds it: at least one line, positive
      quantities, and totals computed from its lines. */
  predicate OrderWellFormed(o: Order)
  {
    && |o.items| > 0
    && (forall i :: 0 <= i < |o.items| ==> o.items[i].quantity > 0)
    && o.totals == CalculateTotals(o.items)
  }

  predicate OrdersWellFormed(os: seq<Order>)
  {
    forall i :: 0 <= i < |os| ==> OrderWellFormed(os[i])
  }

  /** The invariant of the product and order stores. */
  predicate Consistent(ps: seq<Product>, os: seq<Order>)
  {
    NonNegStock(ps) && OrdersWellFormed(os)
  }

  /** An update that rewrites neither the lines nor the totals of an order
      keeps every order well formed. */
  lemma StatusUpdateKeepsWellFormed(os: seq<Order>, id: string, u: OrderPatch, now: int)
    requires u.items.None? && u.totals.None?
    requires OrdersWellFormed(os)
    ensures OrdersWellFormed(UpdatedOrders(os, id, u, now))
  {
    var r := UpdatedOrders(os, id, u, now);
    forall i | 0 <= i < |r| ensures OrderWellFormed(r[i]) {
      assert OrderWellFormed(os[i]);
      if OrderIndex(os, id) == Some(i) {
        assert r[i] == MergeOrder(os[i], u, now);
      }
    }
  }

  /** The order found for `orderId` when there is one. */
  lemma FoundIsStored(os: seq<Order>, orderId: string)
    requires Find(os, HasOrderId(orderId)).Some?
    ensures OrderIndex(os, orderId).Some?
    ensures Find(os, HasOrderId(orderId)).value == os[OrderIndex(os, orderId).value]
  {
  }

  // ----- createOrderService -----

  /** The stores after a successful checkout and the order returned. */
  datatype Placed = Placed(products: seq<Product>, orders: seq<Order>, order: Order)

  /** Checkout once the item check has given `prepared`: the address and
      the payment method are checked first, then an item error is passed
      on; otherwise the lines are reserved and the new pending order, priced
      from its lines, is appended. `newId` is the uuid the order gets. */
  function Checkout(ps: seq<Product>, os: seq<Order>, caller: Caller, prepared: Result<seq<LineItem>>,
                    shippingAddress: Option<Address>, paymentMethod: string, newId: string, now: int)
    : (r: Result<Placed>)
    ensures !AddressComplete(shippingAddress) || paymentMethod == "" ==> r == Err(ValidationError)
    ensures AddressComplete(shippingAddress) && paymentMethod != "" && prepared.Err? ==> r == Err(prepared.error)
    ensures r.Ok? <==> AddressComplete(shippingAddress) && paymentMethod != "" && prepared.Ok?
    ensures r.Ok? ==>
      var lines := prepared.value;
      && r.value.order == Order(newId, caller.id, lines, Pending, CalculateTotals(lines),
                                shippingAddress.value, None, now, now)
      && r.value.orders == os + [r.value.order]
      && r.value.products == AdjustAll(ps, lines, false, now)
  {
    if !AddressComplete(shippingAddress) then Err(ValidationError)
    else if paymentMethod == "" then Err(ValidationError)
    else match prepared
      case Err(e) => Err(e)
      case Ok(lines) =>
        var order := Order(newId, caller.id, lines, Pending, CalculateTotals(lines),
                           shippingAddress.value, None, now, now);
        Ok(Placed(AdjustAll(ps, lines, false, now), os + [order], order))
  }

  /** `createOrderService` as written: each item is checked on its own
      against the store (validateAndPrepareItems). */
  function Create(ps: seq<Product>, os: seq<Order>, caller: Caller, items: seq<ItemRequest>,
                  shippingAddress: Option<Address>, paymentMethod: string, newId: string, now: int)
    : Result<Placed>
  {
    Checkout(ps, os, caller, Prepared(ps, items, false), shippingAddress, paymentMethod, newId, now)
  }

  /** `createOrderService` with the item check corrected to count the
      earlier lines of the same order. */
  function CreateCorrected(ps: seq<Product>, os: seq<Order>, caller: Caller, items: seq<ItemRequest>,
                           shippingAddress: Option<Address>, paymentMethod: string, newId: string, now: int)
    : Result<Placed>
  {
    Checkout(ps, os, caller, Prepared(ps, items, true), shippingAddress, paymentMethod, newId, now)
  }

  /** Under either item check, a placed order has one line per requested
      item, each the snapshot of its request, and the stored orders stay
      well formed. */
  lemma CheckoutKeepsWellFormed(ps: seq<Product>, os: seq<Order>, caller: Caller, items: seq<ItemRequest>,
                                shippingAddress: Option<Address>, paymentMethod: string, newId: string,
                                now: int, cumulative: bool)
    requires OrdersWellFormed(os)
    requires Checkout(ps, os, caller, Prepared(ps, items, cumulative), shippingAddress, paymentMethod, newId, now).Ok?
    ensures var pl := Checkout(ps, os, caller, Prepared(ps, items, cumulative), shippingAddress, paymentMethod, newId, now).value;
            && OrdersWellFormed(pl.orders)
            && |pl.order.items| == |items|
            && forall i :: 0 <= i < |items| ==> Snapshot(ps, items[i], pl.order.items[i])
  {
    var prepared := Prepared(ps, items, cumulative);
    var pl := Checkout(ps, os, caller, prepared, shippingAddress, paymentMethod, newId, now).value;
    var v := prepared.value;
    assert |items| > 0 && prepared == PrepareFrom(ps, items, [], cumulative);
    PrepareFromSnapshot(ps, items, [], cumulative);
    assert pl.order.items == v && pl.order.totals == CalculateTotals(v);
    forall i | 0 <= i < |items| ensures Snapshot(ps, items[i], v[i]) && v[i].quantity > 0 {
      assert 0 + i == i;
    }
    assert OrderWellFormed(pl.order);
    assert OrdersWellFormed(pl.orders) by {
      forall i | 0 <= i < |pl.orders| ensures OrderWellFormed(pl.orders[i]) {
        if i < |os| {
          assert pl.orders[i] == os[i];
        }
      }
    }
  }

  /** Checkout as written keeps the orders well formed, and gives one line
      per requested item with the product's current price. No stock goes
      negative when the request names each product once; with a repeated
      product it can (CreateDuplicateOverdraws). */
  lemma CreateKeepsConsistent(ps: seq<Product>, os: seq<Order>, caller: Caller, items: seq<ItemRequest>,
                              shippingAddress: Option<Address>, paymentMethod: string, newId: string, now: int)
    requires Consistent(ps, os)
    requires Create(ps, os, caller, items, shippingAddress, paymentMethod, newId, now).Ok?
    ensures var pl := Create(ps, os, caller, items, shippingAddress, paymentMethod, newId, now).value;
            && OrdersWellFormed(pl.orders)
            && |pl.order.items| == |items|
            && (forall i :: 0 <= i < |items| ==> Snapshot(ps, items[i], pl.order.items[i]))
            && (DistinctProducts(items) ==> Consistent(pl.products, pl.orders))
  {
    CheckoutKeepsWellFormed(ps, os, caller, items, shippingAddress, paymentMethod, newId, now, false);
    if DistinctProducts(items) {
      DistinctPrepared(ps, items);
      CumulativeReservationKeepsStock(ps, items, now);
    }
  }

  /** The first finding at checkout level: one pen in stock, an order of
      two one-pen lines is placed and leaves the stock at -1, so the store
      invariant is broken; the corrected checkout rejects the order. */
  lemma CreateDuplicateOverdraws()
    ensures var ps := [Product("p1", "Pen", "", 1000, 1, true, 0, 0)];
            var addr := Some(Address("1 Main St", "Springfield", "12345", "US"));
            var items := [ItemRequest("p1", Some(1)), ItemRequest("p1", Some(1))];
            var c := Create(ps, [], Caller("U1", Customer), items, addr, "card", "O1", 0);
            && Consistent(ps, [])
            && c.Ok?
            && |c.value.products| == 1 && c.value.products[0].stock == -1
            && !Consistent(c.value.products, c.value.orders)
            && CreateCorrected(ps, [], Caller("U1", Customer), items, addr, "card", "O1", 0) == Err(InsufficientStock)
  {
    DuplicateItemOverdrawsStock();
  }

  /** The corrected checkout keeps the store invariant for every request:
      no stock goes negative and the new order is well formed. */
  lemma CreateCorrectedKeepsConsistent(ps: seq<Product>, os: seq<Order>, caller: Caller, items: seq<ItemRequest>,
                                       shippingAddress: Option<Address>, paymentMethod: string, newId: string, now: int)
    requires Consistent(ps, os)
    requires CreateCorrected(ps, os, caller, items, shippingAddress, paymentMethod, newId, now).Ok?
    ensures var pl := CreateCorrected(ps, os, caller, items, shippingAddress, paymentMethod, newId, now).value;
            && Consistent(pl.products, pl.orders)
            && |pl.order.items| == |items|
            && forall i :: 0 <= i < |items| ==> Snapshot(ps, items[i], pl.order.items[i])
  {
    CheckoutKeepsWellFormed(ps, os, caller, items, shippingAddress, paymentMethod, newId, now, true);
    CumulativeReservationKeepsStock(ps, items, now);
  }

  /** `createOrderService` against the stores. Every check runs before any
      stock is touched, so an error leaves both stores as they were. */
  method CreateOrderService(products: ProductRepository, orders: OrderRepository, caller: Caller,
                            items: seq<ItemRequest>, shippingAddress: Option<Address>,
                            paymentMethod: string, newId: string, now: int) returns (r: Result<Order>)
    modifies products, orders
    ensures var c := Create(old(products.products), old(orders.orders), caller, items,
                            shippingAddress, paymentMethod, newId, now);
            && (c.Err? ==> r == Err(c.error) && products.products == old(products.products)
                           && orders.orders == old(orders.orders))
            && (c.Ok? ==> r == Ok(c.value.order) && products.products == c.value.products
                          && orders.orders == c.value.orders)
  {
    if shippingAddress.None? || shippingAddress.value.line1 == "" || shippingAddress.value.city == ""
       || shippingAddress.value.postalCode == "" || shippingAddress.value.country == "" {
      return Err(ValidationError);
    }
    if paymentMethod == "" {
      return Err(ValidationError);
    }
    var prepared := ValidateAndPrepareItems(products, items);
    if prepared.Err? {
      return Err(prepared.error);
    }
    var totals := CalculateTotals(prepared.value);
    DecrementStock(products, prepared.value, now);
    var order := orders.CreateOrder(newId, caller.id, prepared.value, totals, shippingAddress.value,
                                    None, Pending, now);
    return Ok(order);
  }

  // ----- getOrderByIdService -----

  /** `getOrderByIdService`: the order, if it exists and the caller may see
      it. */
  function GetOrderById(os: seq<Order>, caller: Caller, orderId: string): (r: Result<Order>)
    ensures r == Err(NotFound) <==> Find(os, HasOrderId(orderId)).None?
    ensures r == Err(Forbidden) <==>
      Find(os, HasOrderId(orderId)).Some? && !MayAccess(caller, Find(os, HasOrderId(orderId)).value.userId)
    ensures r.Ok? ==> r.value in os && r.value.id == orderId && MayAccess(caller, r.value.userId)
    ensures r.Ok? ==> OrderIndex(os, orderId).Some? && r.value == os[OrderIndex(os, orderId).value]
  {
    match Find(os, HasOrderId(orderId))
    case None => Err(NotFound)
    case Some(order) => if !MayAccess(caller, order.userId) then Err(Forbidden) else Ok(order)
  }

  /** Right after checkout the customer reads back the order they placed. */
  lemma CreatedOrderReadsBack(ps: seq<Product>, os: seq<Order>, caller: Caller, items: seq<ItemRequest>,
                              shippingAddress: Option<Address>, paymentMethod: string, newId: string, now: int)
    requires forall j :: 0 <= j < |os| ==> os[j].id != newId
    requires Create(ps, os, caller, items, shippingAddress, paymentMethod, newId, now).Ok?
    ensures var pl := Create(ps, os, caller, items, shippingAddress, paymentMethod, newId, now).value;
            GetOrderById(pl.orders, caller, newId) == Ok(pl.order)
  {
    var pl := Create(ps, os, caller, items, shippingAddress, paymentMethod, newId, now).value;
    FirstIndexUnique(pl.orders, HasOrderId(newId), |os|);
  }

  // ----- updateOrderStatusService -----

  /** `updateOrderStatusService`: the new order store and the updated
      order. Who may call it is decided by the route (admins and sellers). */
  function UpdateStatus(os: seq<Order>, orderId: string, to: OrderStatus, now: int)
    : (r: Result<(seq<Order>, Order)>)
    ensures r == Err(NotFound) <==> Find(os, HasOrderId(orderId)).None?
    ensures r == Err(ValidationError) <==>
      Find(os, HasOrderId(orderId)).Some? && !CanTransition(Find(os, HasOrderId(orderId)).value.status, to)
    ensures r.Ok? ==>
      && CanTransition(Find(os, HasOrderId(orderId)).value.status, to)
      && r.value.0 == UpdatedOrders(os, orderId, NoOrderChange.(status := Some(to)), now)
      && r.value.1 == Find(os, HasOrderId(orderId)).value.(status := to, updatedAt := now)
  {
    match Find(os, HasOrderId(orderId))
    case None => Err(NotFound)
    case Some(order) =>
      if !CanTransition(order.status, to) then Err(ValidationError)
      else
        var k := OrderIndex(os, orderId).value;
        var after := UpdatedOrders(os, orderId, NoOrderChange.(status := Some(to)), now);
        Ok((after, after[k]))
  }

  /** A successful status update changes that order's status and update
      time only: the order read back is the one returned, every other order
      is untouched, and the store invariant is kept. */
  lemma UpdateStatusChangesOnlyStatus(os: seq<Order>, orderId: string, to: OrderStatus, now: int)
    requires UpdateStatus(os, orderId, to, now).Ok?
    ensures var r := UpdateStatus(os, orderId, to, now).value;
            && Find(r.0, HasOrderId(orderId)) == Some(r.1)
            && |r.0| == |os|
            && (forall j :: 0 <= j < |os| && j != OrderIndex(os, orderId).value ==> r.0[j] == os[j])
            && (OrdersWellFormed(os) ==> OrdersWellFormed(r.0))
  {
    var u := NoOrderChange.(status := Some(to));
    UpdateKeepsOrderIds(os, orderId, u, now);
    if OrdersWellFormed(os) {
      StatusUpdateKeepsWellFormed(os, orderId, u, now);
    }
  }

  /** Delivered and cancelled orders are final: every status update of
      them is rejected. */
  lemma TerminalOrdersAreFinal(os: seq<Order>, orderId: string, to: OrderStatus, now: int)
    requires Find(os, HasOrderId(orderId)).Some?
    requires Find(os, HasOrderId(orderId)).value.status in {Delivered, Cancelled}
    ensures UpdateStatus(os, orderId, to, now) == Err(ValidationError)
  {
  }

  /** The statuses an order passes through by successful updates form a
      run of the transition table, so at most four updates of one order can
      succeed. */
  lemma {:induction false} UpdatesFollowRun(os: seq<Order>, orderId: string, tos: seq<OrderStatus>, now: int)
    requires Find(os, HasOrderId(orderId)).Some?
    requires UpdatesSucceed(os, orderId, tos, now)
    ensures IsRun([Find(os, HasOrderId(orderId)).value.status] + tos)
    ensures |tos| <= 4
    decreases |tos|
  {
    var path := [Find(os, HasOrderId(orderId)).value.status] + tos;
    if |tos| > 0 {
      var r := UpdateStatus(os, orderId, tos[0], now).value;
      UpdateStatusChangesOnlyStatus(os, orderId, tos[0], now);
      UpdatesFollowRun(r.0, orderId, tos[1..], now);
      assert [r.1.status] + tos[1..] == path[1..];
      forall i | 0 <= i < |path| - 1 ensures CanTransition(path[i], path[i + 1]) {
        if i > 0 {
          assert path[i] == path[1..][i - 1] && path[i + 1] == path[1..][i];
        }
      }
    }
    RunsAreShort(path);
  }

  /** Each status in `tos`, applied in turn to the order, is accepted. */
  predicate UpdatesSucceed(os: seq<Order>, orderId: string, tos: seq<OrderStatus>, now: int)
    decreases |tos|
  {
    |tos| == 0 ||
    (UpdateStatus(os, orderId, tos[0], now).Ok? &&
     UpdatesSucceed(UpdateStatus(os, orderId, tos[0], now).value.0, orderId, tos[1..], now))
  }

  /** `updateOrderStatusService` against the order store. */
  method UpdateOrderStatusService(orders: OrderRepository, orderId: string, to: OrderStatus, now: int)
    returns (r: Result<Order>)
    modifies orders
    ensures var u := UpdateStatus(old(orders.orders), orderId, to, now);
            && (u.Err? ==> r == Err(u.error) && orders.orders == old(orders.orders))
            && (u.Ok? ==> r == Ok(u.value.1) && orders.orders == u.value.0)
  {
    var order := orders.FindOrderById(orderId);
    if order.None? {
      return Err(NotFound);
    }
    if !CanTransition(order.value.status, to) {
      return Err(ValidationError);
    }
    var updated := orders.UpdateOrder(orderId, NoOrderChange.(status := Some(to)), now);
    return Ok(updated.value);
  }

  // ----- cancelOrderService -----

  /** The stores after a successful cancellation and the order returned. */
  datatype Reversal = Reversal(products: seq<Product>, orders: seq<Order>, payments: seq<Payment>, order: Order)

  /** `cancelOrderService`: release the order's stock, refund a successful
      payment, then mark the order cancelled. */
  function Cancel(ps: seq<Product>, os: seq<Order>, pays: seq<Payment>, caller: Caller, orderId: string, now: int)
    : (r: Result<Reversal>)
    ensures r == Err(NotFound) <==> Find(os, HasOrderId(orderId)).None?
    ensures r == Err(Forbidden) <==>
      Find(os, HasOrderId(orderId)).Some? && !MayAccess(caller, Find(os, HasOrderId(orderId)).value.userId)
    ensures r == Err(ValidationError) <==>
      && Find(os, HasOrderId(orderId)).Some?
      && MayAccess(caller, Find(os, HasOrderId(orderId)).value.userId)
      && !CanTransition(Find(os, HasOrderId(orderId)).value.status, Cancelled)
    ensures r.Ok? ==>
      var order := Find(os, HasOrderId(orderId)).value;
      && (order.status == Pending || order.status == Confirmed)
      && r.value.products == AdjustAll(ps, order.items, true, now)
      && r.value.payments == RefundIfPaid(pays, orderId, now).0
      && r.value.orders == UpdatedOrders(os, orderId, NoOrderChange.(status := Some(Cancelled)), now)
      && r.value.order == order.(status := Cancelled, updatedAt := now)
  {
    match Find(os, HasOrderId(orderId))
    case None => Err(NotFound)
    case Some(order) =>
      if !MayAccess(caller, order.userId) then Err(Forbidden)
      else if order.status != Pending && order.status != Confirmed then Err(ValidationError)
      else
        var k := OrderIndex(os, orderId).value;
        var after := UpdatedOrders(os, orderId, NoOrderChange.(status := Some(Cancelled)), now);
        Ok(Reversal(AdjustAll(ps, order.items, true, now), after, RefundIfPaid(pays, orderId, now).0, after[k]))
  }

  /** Cancellation keeps the store invariant, leaves the order with no
      successful payment, and cannot be repeated. */
  lemma CancelKeepsConsistent(ps: seq<Product>, os: seq<Order>, pays: seq<Payment>, caller: Caller,
                              orderId: string, now: int, now2: int)
    requires Consistent(ps, os) && UniqueIds(pays)
    requires Cancel(ps, os, pays, caller, orderId, now).Ok?
    ensures var c := Cancel(ps, os, pays, caller, orderId, now).value;
            && Consistent(c.products, c.orders)
            && (Find(c.payments, ForOrder(orderId)).None? || Find(c.payments, ForOrder(orderId)).value.status != Success)
            && Cancel(c.products, c.orders, c.payments, caller, orderId, now2) == Err(ValidationError)
  {
    var order := Find(os, HasOrderId(orderId)).value;
    var u := NoOrderChange.(status := Some(Cancelled));
    FoundIsStored(os, orderId);
    assert OrderWellFormed(order);
    ReleaseKeepsStockNonNegative(ps, order.items, now);
    StatusUpdateKeepsWellFormed(os, orderId, u, now);
    RefundIfPaidLeavesNoSuccess(pays, orderId, now);
    UpdateKeepsOrderIds(os, orderId, u, now);
  }

  /** Checkout followed by cancellation by the same customer gives every
      product its stock back. */
  lemma CreateThenCancelRestoresStock(ps: seq<Product>, os: seq<Order>, pays: seq<Payment>, caller: Caller,
                                      items: seq<ItemRequest>, shippingAddress: Option<Address>,
                                      paymentMethod: string, newId: string, now: int, now2: int)
    requires forall j :: 0 <= j < |os| ==> os[j].id != newId
    requires Create(ps, os, caller, items, shippingAddress, paymentMethod, newId, now).Ok?
    ensures var pl := Create(ps, os, caller, items, shippingAddress, paymentMethod, newId, now).value;
            var c := Cancel(pl.products, pl.orders, pays, caller, newId, now2);
            && c.Ok?
            && |c.value.products| == |ps|
            && forall k :: 0 <= k < |ps| ==> c.value.products[k] == ps[k].(updatedAt := c.value.products[k].updatedAt)
  {
    var pl := Create(ps, os, caller, items, shippingAddress, paymentMethod, newId, now).value;
    FirstIndexUnique(pl.orders, HasOrderId(newId), |os|);
    ReleaseUndoesReserve(ps, pl.order.items, now, now2);
  }

  /** The worked example: P1 at price 1000 with stock 5; an order of two
      units is priced 2000 + 360 tax = 2360 and leaves stock 3; cancelling it
      restores stock 5. */
  lemma CheckoutExample(pays: seq<Payment>)
    ensures var ps := [Product("P1", "Pen", "", 1000, 5, true, 0, 0)];
            var addr := Some(Address("1 Main St", "Springfield", "12345", "US"));
            var c := Create(ps, [], Caller("U1", Customer), [ItemRequest("P1", Some(2))], addr, "card", "O1", 1);
            && c.Ok?
            && c.value.order.totals == Totals(2000, 360, 0, 2360)
            && c.value.order.status == Pending && c.value.order.paymentId.None?
            && |c.value.products| == 1 && c.value.products[0].stock == 3
            && Cancel(c.value.products, c.value.orders, pays, Caller("U1", Customer), "O1", 2).Ok?
            && Cancel(c.value.products, c.value.orders, pays, Caller("U1", Customer), "O1", 2).value.products[0].stock == 5
  {
    var ps := [Product("P1", "Pen", "", 1000, 5, true, 0, 0)];
    var addr := Some(Address("1 Main St", "Springfield", "12345", "US"));
    var items := [ItemRequest("P1", Some(2))];
    var li := LineItem("P1", 2, 1000);
    assert HasProductId("P1")(ps[0]);
    assert Find(ps, HasProductId("P1")) == Some(ps[0]);
    assert CheckItem(ps, items[0], 0) == Ok(li);
    assert items[1..] == [] && [] + [li] == [li];
    assert Prepared(ps, items, false) == Ok([li]);
    TwoUnitsAtOneThousand();
    AdjustAllEffect(ps, [li], false, 1);
    assert IsFirst(ps, 0);
    assert [li][..0] == [];
    assert QtyFor([li], "P1") == 2;
    CreateThenCancelRestoresStock(ps, [], pays, Caller("U1", Customer), items, addr, "card", "O1", 1, 2);
  }

  /** `cancelOrderService` against the stores. */
  method CancelOrderService(products: ProductRepository, orders: OrderRepository, payments: PaymentRepository,
                            caller: Caller, orderId: string, now: int) returns (r: Result<Order>)
    modifies products, orders, payments
    ensures var c := Cancel(old(products.products), old(orders.orders), old(payments.payments), caller, orderId, now);
            && (c.Err? ==> r == Err(c.error) && products.products == old(products.products)
                           && orders.orders == old(orders.orders) && payments.payments == old(payments.payments))
            && (c.Ok? ==> r == Ok(c.value.order) && products.products == c.value.products
                          && orders.orders == c.value.orders && payments.payments == c.value.payments)
  {
    var order := orders.FindOrderById(orderId);
    if order.None? {
      return Err(NotFound);
    }
    if caller.role == Customer && order.value.userId != caller.id {
      return Err(Forbidden);
    }
    if order.value.status != Pending && order.value.status != Confirmed {
      return Err(ValidationError);
    }
    IncrementStock(products, order.value.items, now);
    var _ := RefundIfPaidForOrder(payments, orderId, now);
    var updated := orders.UpdateOrder(orderId, NoOrderChange.(status := Some(Cancelled)), now);
    return Ok(updated.value);
  }

  // ----- cancelling through a status update -----

  /** The defect as written: the status route may move a pending order to
      cancelled, but that path neither releases its stock nor refunds it.
      After checkout of two pens out of five and a status update to
      cancelled, the stock stays at 3 and the order can no longer be
      cancelled, so the two pens are never released. */
  lemma StatusCancelKeepsStockReserved()
    ensures var ps := [Product("P1", "Pen", "", 1000, 5, true, 0, 0)];
            var addr := Some(Address("1 Main St", "Springfield", "12345", "US"));
            var c := Create(ps, [], Caller("U1", Customer), [ItemRequest("P1", Some(2))], addr, "card", "O1", 1);
            && c.Ok?
            && UpdateStatus(c.value.orders, "O1", Cancelled, 2).Ok?
            && c.value.products[0].stock == 3
            && Cancel(c.value.products, UpdateStatus(c.value.orders, "O1", Cancelled, 2).value.0, [],
                      Caller("U1", Customer), "O1", 3) == Err(ValidationError)
  {
    CheckoutExample([]);
    var ps := [Product("P1", "Pen", "", 1000, 5, true, 0, 0)];
    var addr := Some(Address("1 Main St", "Springfield", "12345", "US"));
    var c := Create(ps, [], Caller("U1", Customer), [ItemRequest("P1", Some(2))], addr, "card", "O1", 1);
    FirstIndexUnique(c.value.orders, HasOrderId("O1"), 0);
    UpdateStatusChangesOnlyStatus(c.value.orders, "O1", Cancelled, 2);
  }

  /** A status update as evidently intended: moving to cancelled goes
      through the cancellation path with its compensations; every other
      status is a plain update. */
  function UpdateStatusCompensated(ps: seq<Product>, os: seq<Order>, pays: seq<Payment>, caller: Caller,
                                   orderId: string, to: OrderStatus, now: int): (r: Result<Reversal>)
    ensures to == Cancelled ==> r == Cancel(ps, os, pays, caller, orderId, now)
    ensures to != Cancelled ==>
      && (r.Err? <==> UpdateStatus(os, orderId, to, now).Err?)
      && (r.Ok? ==> r.value == Reversal(ps, UpdateStatus(os, orderId, to, now).value.0, pays,
                                        UpdateStatus(os, orderId, to, now).value.1))
  {
    if to == Cancelled then Cancel(ps, os, pays, caller, orderId, now)
    else match UpdateStatus(os, orderId, to, now)
      case Err(e) => Err(e)
      case Ok(u) => Ok(Reversal(ps, u.0, pays, u.1))
  }

  /** With the corrected update, cancelling a fresh order through the status
      route by a caller allowed to act on it gives every product its stock
      back. */
  lemma CompensatedCancelRestoresStock(ps: seq<Product>, os: seq<Order>, pays: seq<Payment>, caller: Caller,
                                       staff: Caller, items: seq<ItemRequest>, shippingAddress: Option<Address>,
                                       paymentMethod: string, newId: string, now: int, now2: int)
    requires staff.role != Customer
    requires forall j :: 0 <= j < |os| ==> os[j].id != newId
    requires Create(ps, os, caller, items, shippingAddress, paymentMethod, newId, now).Ok?
    ensures var pl := Create(ps, os, caller, items, shippingAddress, paymentMethod, newId, now).value;
            var c := UpdateStatusCompensated(pl.products, pl.orders, pays, staff, newId, Cancelled, now2);
            && c.Ok?
            && |c.value.products| == |ps|
            && forall k :: 0 <= k < |ps| ==> c.value.products[k] == ps[k].(updatedAt := c.value.products[k].updatedAt)
  {
    var pl := Create(ps, os, caller, items, shippingAddress, paymentMethod, newId, now).value;
    FirstIndexUnique(pl.orders, HasOrderId(newId), |os|);
    ReleaseUndoesReserve(ps, pl.order.items, now, now2);
  }

  // ----- bulkCreateOrdersService -----

  /** One entry of a bulk checkout request. */
  datatype OrderPayload = OrderPayload(items: seq<ItemRequest>, shippingAddress: Option<Address>, paymentMethod: string)

  /** The stores after a bulk checkout and its result. */
  datatype BulkOutcome = BulkOutcome(products: seq<Product>, orders: seq<Order>, result: Result<seq<Order>>)

  /** The rest of the bulk loop once the orders in `created` are placed:
      each payload is checked out in turn on the stores the previous one
      left; the first error stops the loop and what was placed stays. */
  function BulkFrom(ps: seq<Product>, os: seq<Order>, caller: Caller, payloads: seq<OrderPayload>,
                    ids: seq<string>, now: int, created: seq<Order>): BulkOutcome
    requires |ids| == |payloads|
    decreases |payloads|
  {
    if |payloads| == 0 then BulkOutcome(ps, os, Ok(created))
    else
      var p := payloads[0];
      match Create(ps, os, caller, p.items, p.shippingAddress, p.paymentMethod, ids[0], now)
      case Err(e) => BulkOutcome(ps, os, Err(e))
      case Ok(pl) => BulkFrom(pl.products, pl.orders, caller, payloads[1..], ids[1..], now, created + [pl.order])
  }

  /** `bulkCreateOrdersService`; `ids[i]` is the uuid the i-th order gets. */
  function BulkCreate(ps: seq<Product>, os: seq<Order>, caller: Caller, payloads: seq<OrderPayload>,
                      ids: seq<string>, now: int): BulkOutcome
    requires |ids| == |payloads|
  {
    if |payloads| == 0 then BulkOutcome(ps, os, Err(ValidationError))
    else BulkFrom(ps, os, caller, payloads, ids, now, [])
  }

  /** Bulk checkout only appends orders, whether it ends in success or in
      an error. */
  lemma {:induction false} BulkFromExtends(ps: seq<Product>, os: seq<Order>, caller: Caller,
                                           payloads: seq<OrderPayload>, ids: seq<string>, now: int,
                                           created: seq<Order>)
    requires |ids| == |payloads|
    ensures os <= BulkFrom(ps, os, caller, payloads, ids, now, created).orders
    decreases |payloads|
  {
    if |payloads| > 0 {
      var p := payloads[0];
      var c := Create(ps, os, caller, p.items, p.shippingAddress, p.paymentMethod, ids[0], now);
      if c.Ok? {
        var pl := c.value;
        assert BulkFrom(ps, os, caller, payloads, ids, now, created)
            == BulkFrom(pl.products, pl.orders, caller, payloads[1..], ids[1..], now, created + [pl.order]);
        BulkFromExtends(pl.products, pl.orders, caller, payloads[1..], ids[1..], now, created + [pl.order]);
      }
    }
  }

  /** One step of the bulk loop on sequences: if the results so far extend
      `created + [o]` and the store extends `os + [o]` by the same orders,
      then they extend `created` and `os` by `o` followed by those orders. */
  lemma AppendStep<T>(os: seq<T>, o: T, created: seq<T>, v: seq<T>, orders: seq<T>)
    requires |v| >= |created| + 1
    requires v[..|created| + 1] == created + [o]
    requires orders == (os + [o]) + v[|created| + 1..]
    ensures v[..|created|] == created
    ensures orders == os + v[|created|..]
  {
    assert v[..|created| + 1][..|created|] == v[..|created|];
    assert v[|created|..] == [o] + v[|created| + 1..];
  }

  /** On success bulk checkout returns the new orders, one per payload in
      payload order, exactly as they were appended to the store. */
  lemma {:induction false} BulkFromAppends(ps: seq<Product>, os: seq<Order>, caller: Caller,
                                           payloads: seq<OrderPayload>, ids: seq<string>, now: int,
                                           created: seq<Order>)
    requires |ids| == |payloads|
    requires BulkFrom(ps, os, caller, payloads, ids, now, created).result.Ok?
    ensures var out := BulkFrom(ps, os, caller, payloads, ids, now, created);
            && |out.result.value| == |created| + |payloads|
            && out.result.value[..|created|] == created
            && out.orders == os + out.result.value[|created|..]
    decreases |payloads|
  {
    if |payloads| > 0 {
      var p := payloads[0];
      var pl := Create(ps, os, caller, p.items, p.shippingAddress, p.paymentMethod, ids[0], now).value;
      var out := BulkFrom(pl.products, pl.orders, caller, payloads[1..], ids[1..], now, created + [pl.order]);
      assert BulkFrom(ps, os, caller, payloads, ids, now, created) == out;
      BulkFromAppends(pl.products, pl.orders, caller, payloads[1..], ids[1..], now, created + [pl.order]);
      AppendStep(os, pl.order, created, out.result.value, out.orders);
    } else {
      assert created[|created|..] == [];
    }
  }

  /** Every step of bulk checkout keeps the orders well formed, whether the
      loop ends in success or in an error; no stock goes negative when none
      was and every payload names each product once. */
  lemma {:induction false} BulkFromKeepsConsistent(ps: seq<Product>, os: seq<Order>, caller: Caller,
                                                   payloads: seq<OrderPayload>, ids: seq<string>, now: int,
                                                   created: seq<Order>)
    requires |ids| == |payloads|
    requires OrdersWellFormed(os)
    ensures var out := BulkFrom(ps, os, caller, payloads, ids, now, created);
            && OrdersWellFormed(out.orders)
            && (NonNegStock(ps) && (forall i :: 0 <= i < |payloads| ==> DistinctProducts(payloads[i].items)) ==>
                Consistent(out.products, out.orders))
    decreases |payloads|
  {
    if |payloads| > 0 {
      var p := payloads[0];
      var c := Create(ps, os, caller, p.items, p.shippingAddress, p.paymentMethod, ids[0], now);
      if c.Ok? {
        var pl := c.value;
        assert BulkFrom(ps, os, caller, payloads, ids, now, created)
            == BulkFrom(pl.products, pl.orders, caller, payloads[1..], ids[1..], now, created + [pl.order]);
        CheckoutKeepsWellFormed(ps, os, caller, p.items, p.shippingAddress, p.paymentMethod, ids[0], now, false);
        if NonNegStock(ps) && DistinctProducts(p.items) {
          CreateKeepsConsistent(ps, os, caller, p.items, p.shippingAddress, p.paymentMethod, ids[0], now);
        }
        BulkFromKeepsConsistent(pl.products, pl.orders, caller, payloads[1..], ids[1..], now, created + [pl.order]);
        assert forall i :: 0 <= i < |payloads[1..]| ==> payloads[1..][i] == payloads[i + 1];
      }
    }
  }

  /** A later failure leaves the earlier orders committed: if the first
      payload is placed and the second fails, the bulk call reports the
      second payload's error while the first order stays in the store with
      its stock taken. */
  lemma BulkKeepsEarlierOrders(ps: seq<Product>, os: seq<Order>, caller: Caller,
                               p1: OrderPayload, p2: OrderPayload, id1: string, id2: string, now: int)
    requires Create(ps, os, caller, p1.items, p1.shippingAddress, p1.paymentMethod, id1, now).Ok?
    requires var pl := Create(ps, os, caller, p1.items, p1.shippingAddress, p1.paymentMethod, id1, now).value;
             Create(pl.products, pl.orders, caller, p2.items, p2.shippingAddress, p2.paymentMethod, id2, now).Err?
    ensures var pl := Create(ps, os, caller, p1.items, p1.shippingAddress, p1.paymentMethod, id1, now).value;
            var out := BulkCreate(ps, os, caller, [p1, p2], [id1, id2], now);
            && out.result == Err(Create(pl.products, pl.orders, caller, p2.items, p2.shippingAddress,
                                        p2.paymentMethod, id2, now).error)
            && out.orders == os + [pl.order]
            && out.products == pl.products
  {
    var pl := Create(ps, os, caller, p1.items, p1.shippingAddress, p1.paymentMethod, id1, now).value;
    assert [p1, p2][1..] == [p2] && [id1, id2][1..] == [id2];
    var none: seq<Order> := [];
    assert none + [pl.order] == [pl.order];
    assert BulkFrom(ps, os, caller, [p1, p2], [id1, id2], now, none)
        == BulkFrom(pl.products, pl.orders, caller, [p2], [id2], now, [pl.order]);
    assert BulkFrom(pl.products, pl.orders, caller, [p2], [id2], now, [pl.order])
        == BulkOutcome(pl.products, pl.orders,
                       Err(Create(pl.products, pl.orders, caller, p2.items, p2.shippingAddress,
                                  p2.paymentMethod, id2, now).error));
  }

  /** `bulkCreateOrdersService` against the stores. */
  method BulkCreateOrdersService(products: ProductRepository, orders: OrderRepository, caller: Caller,
                                 payloads: seq<OrderPayload>, ids: seq<string>, now: int)
    returns (r: Result<seq<Order>>)
    requires |ids| == |payloads|
    modifies products, orders
    ensures var out := BulkCreate(old(products.products), old(orders.orders), caller, payloads, ids, now);
            r == out.result && products.products == out.products && orders.orders == out.orders
  {
    if |payloads| == 0 {
      return Err(ValidationError);
    }
    var created: seq<Order> := [];
    var i := 0;
    while i < |payloads|
      invariant 0 <= i <= |payloads|
      invariant BulkFrom(products.products, orders.orders, caller, payloads[i..], ids[i..], now, created)
             == BulkFrom(old(products.products), old(orders.orders), caller, payloads, ids, now, [])
    {
      assert payloads[i..][0] == payloads[i] && payloads[i..][1..] == payloads[i + 1..];
      assert ids[i..][0] == ids[i] && ids[i..][1..] == ids[i + 1..];
      var p := payloads[i];
      var order := CreateOrderService(products, orders, caller, p.items, p.shippingAddress, p.paymentMethod, ids[i], now);
      if order.Err? {
        return Err(order.error);
      }
      created := created + [order.value];
      i := i + 1;
    }
    assert payloads[|payloads|..] == [] && ids[|ids|..] == [];
    return Ok(created);
  }
}
