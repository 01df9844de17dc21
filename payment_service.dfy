/** Payment settlement: charging an order (`processPaymentService`),
    refunding it (`refundPaymentService`), reading its payment
    (`getPaymentStatusService`) and the refund that order cancellation
    triggers (`refundIfPaidForOrder`).

    Each service is specified by a function from the store contents before
    the call to its result and the store contents after it; the methods run
    against the repositories and are proved to agree with those functions.
    Payment ids are uuids, so several properties take `UniqueIds` as a hypothesis. */
module PaymentService {
  import opened Seqs
  import opened Model
  import opened Orders
  import opened Payments
  import opened Lifecycle

  /** The order status a successful payment writes: a pending order becomes
      confirmed, any other keeps its status. */
  function StatusAfterPayment(s: OrderStatus): OrderStatus
  {
    if s == Pending then Confirmed else s
  }

  /** Paying either leaves the status alone or moves it along an edge of the
      transition table. */
  lemma PaymentFollowsTable(s: OrderStatus)
    ensures StatusAfterPayment(s) == s || CanTransition(s, StatusAfterPayment(s))
    ensures StatusAfterPayment(s) != s <==> s == Pending
  {
  }

  /** `updatePayment(p.id, u)` for a payment `p` taken from the store: the new
      store and the merged record it returns (never null, since `p` is
      there). */
  function Rewrite(ps: seq<Payment>, p: Payment, u: PaymentPatch, now: int): (r: (seq<Payment>, Payment))
    requires p in ps
    ensures PaymentIndex(ps, p.id).Some?
    ensures r.0 == UpdatedPayments(ps, p.id, u, now)
    ensures r.1 == MergePayment(ps[PaymentIndex(ps, p.id).value], u, now)
    ensures r.1 == r.0[PaymentIndex(ps, p.id).value]
    ensures u.id.None? ==> r.1.id == p.id
  {
    assert HasPaymentId(p.id)(p);
    var k := PaymentIndex(ps, p.id).value;
    (UpdatedPayments(ps, p.id, u, now), MergePayment(ps[k], u, now))
  }

  /** With unique ids, the record found for an order is the one its id
      leads back to. */
  lemma IdLeadsBack(ps: seq<Payment>, orderId: string)
    requires UniqueIds(ps)
    requires Find(ps, ForOrder(orderId)).Some?
    ensures PaymentIndex(ps, Find(ps, ForOrder(orderId)).value.id) == FirstIndex(ps, ForOrder(orderId))
  {
    var k := FirstIndex(ps, ForOrder(orderId)).value;
    FirstIndexUnique(ps, HasPaymentId(ps[k].id), k);
  }

  /** An update carrying neither `id` nor `orderId` leaves every lookup of a
      payment by order where it was. */
  lemma UpdateKeepsOrderLookup(ps: seq<Payment>, id: string, u: PaymentPatch, now: int, orderId: string)
    requires u.id.None? && u.orderId.None?
    ensures FirstIndex(UpdatedPayments(ps, id, u, now), ForOrder(orderId)) == FirstIndex(ps, ForOrder(orderId))
  {
    UpdateKeepsKeys(ps, id, u, now);
    FirstIndexSameKeys(UpdatedPayments(ps, id, u, now), ForOrder(orderId), ps, ForOrder(orderId));
  }

  // ----- processPaymentService -----

  /** The stores after a successful charge and the payment returned. */
  datatype Settlement = Settlement(orders: seq<Order>, payments: seq<Payment>, payment: Payment)

  /** The keys written into an existing payment when the order is charged
      again. */
  function SettlePatch(paymentMethod: string, amount: int, txnRef: string): PaymentPatch
  {
    PaymentPatch(None, None, Some(paymentMethod), Some(amount), Some(Success), Some(Some(txnRef)))
  }

  /** `processPaymentService`. `newId` is the uuid a new payment record gets
      and `txnRef` the generated transaction reference. An order total of 0
      is the falsy total the service rejects. */
  function Process(os: seq<Order>, ps: seq<Payment>, caller: Caller, orderId: string,
                   paymentMethod: string, newId: string, txnRef: string, now: int): (r: Result<Settlement>)
    ensures r == Err(NotFound) <==> Find(os, HasOrderId(orderId)).None?
    ensures r == Err(Forbidden) <==>
      Find(os, HasOrderId(orderId)).Some? && !MayAccess(caller, Find(os, HasOrderId(orderId)).value.userId)
    ensures r == Err(ValidationError) <==>
      && Find(os, HasOrderId(orderId)).Some?
      && MayAccess(caller, Find(os, HasOrderId(orderId)).value.userId)
      && (|| Find(os, HasOrderId(orderId)).value.totals.grandTotal == 0
          || (Find(ps, ForOrder(orderId)).Some? && Find(ps, ForOrder(orderId)).value.status == Success))
    ensures r.Ok? ==>
      var order := Find(os, HasOrderId(orderId)).value;
      var existing := Find(ps, ForOrder(orderId));
      && r.value.payment.status == Success
      && r.value.payment.amount == order.totals.grandTotal != 0
      && r.value.payment.paymentMethod == paymentMethod
      && r.value.payment.transactionRef == Some(txnRef)
      && (existing.None? ==>
            && r.value.payment == Payment(newId, orderId, paymentMethod, order.totals.grandTotal,
                                          Success, Some(txnRef), now, now)
            && r.value.payments == ps + [r.value.payment])
      && (existing.Some? ==>
            && existing.value.status != Success
            && r.value.payment.id == existing.value.id
            && r.value.payments == UpdatedPayments(ps, existing.value.id,
                                     SettlePatch(paymentMethod, order.totals.grandTotal, txnRef), now))
      && r.value.orders == UpdatedOrders(os, orderId,
           NoOrderChange.(paymentId := Some(Some(r.value.payment.id)),
                          status := Some(StatusAfterPayment(order.status))), now)
  {
    match Find(os, HasOrderId(orderId))
    case None => Err(NotFound)
    case Some(order) =>
      if !MayAccess(caller, order.userId) then Err(Forbidden)
      else if order.totals.grandTotal == 0 then Err(ValidationError)
      else
        var existing := Find(ps, ForOrder(orderId));
        if existing.Some? && existing.value.status == Success then Err(ValidationError)
        else
          var amount := order.totals.grandTotal;
          var written :=
            if existing.None? then
              var p := Payment(newId, orderId, paymentMethod, amount, Success, Some(txnRef), now, now);
              (ps + [p], p)
            else Rewrite(ps, existing.value, SettlePatch(paymentMethod, amount, txnRef), now);
          var orderPatch := NoOrderChange.(paymentId := Some(Some(written.1.id)),
                                           status := Some(StatusAfterPayment(order.status)));
          Ok(Settlement(UpdatedOrders(os, orderId, orderPatch, now), written.0, written.1))
  }

  /** After a successful charge the order records the payment and its
      advanced status (keeping its owner and totals), and the payment found
      for the order is the one returned, successful, for the order's grand
      total. */
  lemma ProcessRecordsPayment(os: seq<Order>, ps: seq<Payment>, caller: Caller, orderId: string,
                              paymentMethod: string, newId: string, txnRef: string, now: int)
    requires UniqueIds(ps)
    requires Process(os, ps, caller, orderId, paymentMethod, newId, txnRef, now).Ok?
    ensures var order := Find(os, HasOrderId(orderId)).value;
            var s := Process(os, ps, caller, orderId, paymentMethod, newId, txnRef, now).value;
            && Find(s.orders, HasOrderId(orderId)).Some?
            && Find(s.orders, HasOrderId(orderId)).value
                 == order.(paymentId := Some(s.payment.id), status := StatusAfterPayment(order.status), updatedAt := now)
            && Find(s.payments, ForOrder(orderId)) == Some(s.payment)
            && s.payment.orderId == orderId
            && s.payment.status == Success
            && s.payment.amount == order.totals.grandTotal
  {
    var order := Find(os, HasOrderId(orderId)).value;
    var s := Process(os, ps, caller, orderId, paymentMethod, newId, txnRef, now).value;
    var orderPatch := NoOrderChange.(paymentId := Some(Some(s.payment.id)),
                                     status := Some(StatusAfterPayment(order.status)));
    UpdateKeepsOrderIds(os, orderId, orderPatch, now);
    var existing := Find(ps, ForOrder(orderId));
    if existing.None? {
      FirstIndexUnique(s.payments, ForOrder(orderId), |ps|);
    } else {
      var patch := SettlePatch(paymentMethod, order.totals.grandTotal, txnRef);
      IdLeadsBack(ps, orderId);
      UpdateKeepsOrderLookup(ps, existing.value.id, patch, now, orderId);
    }
  }

  /** "Payment already completed": once an order is charged, charging it
      again with the same caller fails with a validation error and changes
      nothing. */
  lemma ProcessTwiceRejected(os: seq<Order>, ps: seq<Payment>, caller: Caller, orderId: string,
                             paymentMethod: string, newId: string, txnRef: string, now: int,
                             paymentMethod2: string, newId2: string, txnRef2: string, now2: int)
    requires UniqueIds(ps)
    requires Process(os, ps, caller, orderId, paymentMethod, newId, txnRef, now).Ok?
    ensures var s := Process(os, ps, caller, orderId, paymentMethod, newId, txnRef, now).value;
            Process(s.orders, s.payments, caller, orderId, paymentMethod2, newId2, txnRef2, now2)
              == Err(ValidationError)
  {
    ProcessRecordsPayment(os, ps, caller, orderId, paymentMethod, newId, txnRef, now);
  }

  /** A charge keeps payment ids unique and at most one payment per order,
      provided the id a new record would get is not taken. */
  lemma ProcessKeepsPaymentKeys(os: seq<Order>, ps: seq<Payment>, caller: Caller, orderId: string,
                                paymentMethod: string, newId: string, txnRef: string, now: int)
    requires UniqueIds(ps)
    requires forall j :: 0 <= j < |ps| ==> ps[j].id != newId
    requires Process(os, ps, caller, orderId, paymentMethod, newId, txnRef, now).Ok?
    ensures var s := Process(os, ps, caller, orderId, paymentMethod, newId, txnRef, now).value;
            UniqueIds(s.payments) && (OnePerOrder(ps) ==> OnePerOrder(s.payments))
  {
    var order := Find(os, HasOrderId(orderId)).value;
    var existing := Find(ps, ForOrder(orderId));
    if existing.Some? {
      UpdateKeepsKeys(ps, existing.value.id, SettlePatch(paymentMethod, order.totals.grandTotal, txnRef), now);
    }
  }

  /** `processPaymentService` against the stores: the payment or the error
      of Process, with the stores changed as Process says, and unchanged on
      error. */
  method ProcessPayment(orders: OrderRepository, payments: PaymentRepository, caller: Caller,
                        orderId: string, paymentMethod: string, newId: string, txnRef: string, now: int)
    returns (r: Result<Payment>)
    modifies orders, payments
    ensures var s := Process(old(orders.orders), old(payments.payments), caller, orderId,
                             paymentMethod, newId, txnRef, now);
            && (s.Err? ==> r == Err(s.error) && orders.orders == old(orders.orders)
                           && payments.payments == old(payments.payments))
            && (s.Ok? ==> r == Ok(s.value.payment) && orders.orders == s.value.orders
                          && payments.payments == s.value.payments)
  {
    var order := orders.FindOrderById(orderId);
    if order.None? {
      return Err(NotFound);
    }
    if caller.role == Customer && order.value.userId != caller.id {
      return Err(Forbidden);
    }
    if order.value.totals.grandTotal == 0 {
      return Err(ValidationError);
    }
    var existing := payments.FindPaymentByOrderId(orderId);
    if existing.Some? && existing.value.status == Success {
      return Err(ValidationError);
    }
    var amount := order.value.totals.grandTotal;
    var payment: Payment;
    if existing.None? {
      payment := payments.CreatePayment(newId, orderId, paymentMethod, amount, Success, Some(txnRef), now);
    } else {
      var updated := payments.UpdatePayment(existing.value.id, SettlePatch(paymentMethod, amount, txnRef), now);
      assert HasPaymentId(existing.value.id)(existing.value);
      payment := updated.value;
    }
    var newOrderStatus := if order.value.status == Pending then Confirmed else order.value.status;
    var _ := orders.UpdateOrder(orderId, NoOrderChange.(paymentId := Some(Some(payment.id)),
                                                        status := Some(newOrderStatus)), now);
    return Ok(payment);
  }

  // ----- refundPaymentService -----

  const RefundPatch := NoPaymentChange.(status := Some(Refunded))

  /** `refundPaymentService`: the new payments store and the refunded
      record. */
  function Refund(os: seq<Order>, ps: seq<Payment>, caller: Caller, orderId: string, now: int)
    : (r: Result<(seq<Payment>, Payment)>)
    ensures r == Err(NotFound) <==>
      Find(os, HasOrderId(orderId)).None?
      || (MayAccess(caller, Find(os, HasOrderId(orderId)).value.userId) && Find(ps, ForOrder(orderId)).None?)
    ensures r == Err(Forbidden) <==>
      Find(os, HasOrderId(orderId)).Some? && !MayAccess(caller, Find(os, HasOrderId(orderId)).value.userId)
    ensures r == Err(ValidationError) <==>
      && Find(os, HasOrderId(orderId)).Some?
      && MayAccess(caller, Find(os, HasOrderId(orderId)).value.userId)
      && Find(ps, ForOrder(orderId)).Some? && Find(ps, ForOrder(orderId)).value.status != Success
    ensures r.Ok? ==>
      && Find(ps, ForOrder(orderId)).Some? && Find(ps, ForOrder(orderId)).value.status == Success
      && r.value.0 == UpdatedPayments(ps, Find(ps, ForOrder(orderId)).value.id, RefundPatch, now)
      && r.value.1.status == Refunded
      && r.value.1.id == Find(ps, ForOrder(orderId)).value.id
  {
    match Find(os, HasOrderId(orderId))
    case None => Err(NotFound)
    case Some(order) =>
      if !MayAccess(caller, order.userId) then Err(Forbidden)
      else match Find(ps, ForOrder(orderId))
        case None => Err(NotFound)
        case Some(p) =>
          if p.status != Success then Err(ValidationError)
          else Ok(Rewrite(ps, p, RefundPatch, now))
  }

  /** With unique ids, a refund rewrites exactly the payment found for the
      order, only in its status and update time. */
  lemma RefundChangesOnlyThatPayment(os: seq<Order>, ps: seq<Payment>, caller: Caller, orderId: string, now: int)
    requires UniqueIds(ps)
    requires Refund(os, ps, caller, orderId, now).Ok?
    ensures var k := FirstIndex(ps, ForOrder(orderId)).value;
            var after := Refund(os, ps, caller, orderId, now).value.0;
            && |after| == |ps|
            && after[k] == ps[k].(status := Refunded, updatedAt := now)
            && Refund(os, ps, caller, orderId, now).value.1 == after[k]
            && forall j :: 0 <= j < |ps| && j != k ==> after[j] == ps[j]
  {
    IdLeadsBack(ps, orderId);
  }

  /** A payment is refunded at most once: a second refund is rejected as
      "only successful payments can be refunded". */
  lemma RefundTwiceRejected(os: seq<Order>, ps: seq<Payment>, caller: Caller, orderId: string, now: int, now2: int)
    requires UniqueIds(ps)
    requires Refund(os, ps, caller, orderId, now).Ok?
    ensures Refund(os, Refund(os, ps, caller, orderId, now).value.0, caller, orderId, now2) == Err(ValidationError)
  {
    var p := Find(ps, ForOrder(orderId)).value;
    IdLeadsBack(ps, orderId);
    UpdateKeepsOrderLookup(ps, p.id, RefundPatch, now, orderId);
  }

  /** A charged order can be refunded by the same caller, and a refunded
      order can be charged again: the second charge rewrites the same
      record. */
  lemma RefundAfterProcess(os: seq<Order>, ps: seq<Payment>, caller: Caller, orderId: string,
                           paymentMethod: string, newId: string, txnRef: string, now: int, now2: int)
    requires UniqueIds(ps)
    requires forall j :: 0 <= j < |ps| ==> ps[j].id != newId
    requires Process(os, ps, caller, orderId, paymentMethod, newId, txnRef, now).Ok?
    ensures var s := Process(os, ps, caller, orderId, paymentMethod, newId, txnRef, now).value;
            && Refund(s.orders, s.payments, caller, orderId, now2).Ok?
            && Refund(s.orders, s.payments, caller, orderId, now2).value.1.id == s.payment.id
            && Find(Refund(s.orders, s.payments, caller, orderId, now2).value.0, ForOrder(orderId)).Some?
            && Find(Refund(s.orders, s.payments, caller, orderId, now2).value.0, ForOrder(orderId)).value.status == Refunded
  {
    var s := Process(os, ps, caller, orderId, paymentMethod, newId, txnRef, now).value;
    ProcessRecordsPayment(os, ps, caller, orderId, paymentMethod, newId, txnRef, now);
    ProcessKeepsPaymentKeys(os, ps, caller, orderId, paymentMethod, newId, txnRef, now);
    IdLeadsBack(s.payments, orderId);
    UpdateKeepsOrderLookup(s.payments, s.payment.id, RefundPatch, now2, orderId);
  }

  /** `refundPaymentService` against the stores. */
  method RefundPayment(orders: OrderRepository, payments: PaymentRepository, caller: Caller,
                       orderId: string, now: int) returns (r: Result<Payment>)
    modifies payments
    ensures var s := Refund(orders.orders, old(payments.payments), caller, orderId, now);
            && (s.Err? ==> r == Err(s.error) && payments.payments == old(payments.payments))
            && (s.Ok? ==> r == Ok(s.value.1) && payments.payments == s.value.0)
  {
    var order := orders.FindOrderById(orderId);
    if order.None? {
      return Err(NotFound);
    }
    if caller.role == Customer && order.value.userId != caller.id {
      return Err(Forbidden);
    }
    var payment := payments.FindPaymentByOrderId(orderId);
    if payment.None? {
      return Err(NotFound);
    }
    if payment.value.status != Success {
      return Err(ValidationError);
    }
    assert HasPaymentId(payment.value.id)(payment.value);
    var updated := payments.UpdatePayment(payment.value.id, RefundPatch, now);
    return Ok(updated.value);
  }

  // ----- getPaymentStatusService -----

  /** `getPaymentStatusService`: the payment found for an order the caller
      may see. */
  function GetPaymentStatus(os: seq<Order>, ps: seq<Payment>, caller: Caller, orderId: string): (r: Result<Payment>)
    ensures r == Err(NotFound) <==>
      Find(os, HasOrderId(orderId)).None?
      || (MayAccess(caller, Find(os, HasOrderId(orderId)).value.userId) && Find(ps, ForOrder(orderId)).None?)
    ensures r == Err(Forbidden) <==>
      Find(os, HasOrderId(orderId)).Some? && !MayAccess(caller, Find(os, HasOrderId(orderId)).value.userId)
    ensures r.Ok? ==> r.value in ps && r.value.orderId == orderId && r.value == Find(ps, ForOrder(orderId)).value
    ensures r.Err? ==> r.error != ValidationError && r.error != InsufficientStock
  {
    match Find(os, HasOrderId(orderId))
    case None => Err(NotFound)
    case Some(order) =>
      if !MayAccess(caller, order.userId) then Err(Forbidden)
      else match Find(ps, ForOrder(orderId))
        case None => Err(NotFound)
        case Some(p) => Ok(p)
  }

  /** Right after a charge, the status read back for the order is the
      payment the charge returned. */
  lemma StatusAfterProcess(os: seq<Order>, ps: seq<Payment>, caller: Caller, orderId: string,
                           paymentMethod: string, newId: string, txnRef: string, now: int)
    requires UniqueIds(ps)
    requires Process(os, ps, caller, orderId, paymentMethod, newId, txnRef, now).Ok?
    ensures var s := Process(os, ps, caller, orderId, paymentMethod, newId, txnRef, now).value;
            GetPaymentStatus(s.orders, s.payments, caller, orderId) == Ok(s.payment)
  {
    ProcessRecordsPayment(os, ps, caller, orderId, paymentMethod, newId, txnRef, now);
  }

  // ----- refundIfPaidForOrder -----

  /** `refundIfPaidForOrder`: the new payments store and the result (none
      when the order has no payment; the refunded record when it was paid;
      the payment unchanged otherwise). */
  function RefundIfPaid(ps: seq<Payment>, orderId: string, now: int): (r: (seq<Payment>, Option<Payment>))
    ensures r.1.None? <==> Find(ps, ForOrder(orderId)).None?
    ensures Find(ps, ForOrder(orderId)).None? ==> r.0 == ps
    ensures Find(ps, ForOrder(orderId)).Some? && Find(ps, ForOrder(orderId)).value.status != Success ==>
      r == (ps, Find(ps, ForOrder(orderId)))
    ensures Find(ps, ForOrder(orderId)).Some? && Find(ps, ForOrder(orderId)).value.status == Success ==>
      && r.0 == UpdatedPayments(ps, Find(ps, ForOrder(orderId)).value.id, RefundPatch, now)
      && r.1.value.status == Refunded
  {
    match Find(ps, ForOrder(orderId))
    case None => (ps, None)
    case Some(p) =>
      if p.status == Success then
        var w := Rewrite(ps, p, RefundPatch, now);
        (w.0, Some(w.1))
      else (ps, Some(p))
  }

  /** Refunding on cancellation is idempotent: a second call finds the
      payment refunded and changes nothing. */
  lemma RefundIfPaidIdempotent(ps: seq<Payment>, orderId: string, now: int, now2: int)
    requires UniqueIds(ps)
    ensures var once := RefundIfPaid(ps, orderId, now).0;
            RefundIfPaid(once, orderId, now2).0 == once
  {
    var p := Find(ps, ForOrder(orderId));
    if p.Some? && p.value.status == Success {
      IdLeadsBack(ps, orderId);
      UpdateKeepsOrderLookup(ps, p.value.id, RefundPatch, now, orderId);
    }
  }

  /** After the refund on cancellation, the order has no successful
      payment left to collect. */
  lemma RefundIfPaidLeavesNoSuccess(ps: seq<Payment>, orderId: string, now: int)
    requires UniqueIds(ps)
    ensures var after := RefundIfPaid(ps, orderId, now).0;
            Find(after, ForOrder(orderId)).None? || Find(after, ForOrder(orderId)).value.status != Success
  {
    var p := Find(ps, ForOrder(orderId));
    if p.Some? && p.value.status == Success {
      IdLeadsBack(ps, orderId);
      UpdateKeepsOrderLookup(ps, p.value.id, RefundPatch, now, orderId);
    }
  }

  /** `refundIfPaidForOrder` against the payment store. */
  method RefundIfPaidForOrder(payments: PaymentRepository, orderId: string, now: int) returns (r: Option<Payment>)
    modifies payments
    ensures (payments.payments, r) == RefundIfPaid(old(payments.payments), orderId, now)
  {
    var payment := payments.FindPaymentByOrderId(orderId);
    if payment.None? {
      return None;
    }
    if payment.value.status == Success {
      assert HasPaymentId(payment.value.id)(payment.value);
      r := payments.UpdatePayment(payment.value.id, RefundPatch, now);
      return r;
    }
    return payment;
  }
}
