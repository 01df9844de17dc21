/** The payment store: a module-level array of payments, appended to on
    create, looked up by first match (by id or by order id) and replaced at
    one index on update. Payments are never removed. */
module Payments {
  import opened Seqs
  import opened Model

  function HasPaymentId(id: string): Payment -> bool
  {
    (p: Payment) => p.id == id
  }

  function ForOrder(orderId: string): Payment -> bool
  {
    (p: Payment) => p.orderId == orderId
  }

  /** The index `payments.findIndex(p => p.id === id)` yields. */
  function PaymentIndex(ps: seq<Payment>, id: string): Option<nat>
  {
    FirstIndex(ps, HasPaymentId(id))
  }

  /** Payment ids are uuids: no two records share one. */
  predicate UniqueIds(ps: seq<Payment>)
  {
    forall i, j :: 0 <= i < j < |ps| ==> ps[i].id != ps[j].id
  }

  /** At most one payment record per order. */
  predicate OnePerOrder(ps: seq<Payment>)
  {
    forall i, j :: 0 <= i < j < |ps| ==> ps[i].orderId != ps[j].orderId
  }

  /** The store after `updatePayment(id, updates)`: only the first payment
      with that id changes, to the merge of it with `updates`. */
  function UpdatedPayments(ps: seq<Payment>, id: string, u: PaymentPatch, now: int): (r: seq<Payment>)
    ensures |r| == |ps|
    ensures PaymentIndex(ps, id).None? ==> r == ps
    ensures PaymentIndex(ps, id).Some? ==>
      var k := PaymentIndex(ps, id).value;
      && r[k] == MergePayment(ps[k], u, now)
      && forall j :: 0 <= j < |ps| && j != k ==> r[j] == ps[j]
  {
    match PaymentIndex(ps, id)
    case None => ps
    case Some(k) => ps[k := MergePayment(ps[k], u, now)]
  }

  /** An update that carries neither `id` nor `orderId` keeps every record's
      id and order id, hence keeps both "unique ids" and "one payment per
      order". */
  lemma {:induction false} UpdateKeepsKeys(ps: seq<Payment>, id: string, u: PaymentPatch, now: int)
    requires u.id.None? && u.orderId.None?
    ensures var r := UpdatedPayments(ps, id, u, now);
            forall j :: 0 <= j < |ps| ==> r[j].id == ps[j].id && r[j].orderId == ps[j].orderId
    ensures UniqueIds(ps) ==> UniqueIds(UpdatedPayments(ps, id, u, now))
    ensures OnePerOrder(ps) ==> OnePerOrder(UpdatedPayments(ps, id, u, now))
  {
    var r := UpdatedPayments(ps, id, u, now);
    forall j | 0 <= j < |ps|
      ensures r[j].id == ps[j].id && r[j].orderId == ps[j].orderId
    {
      if PaymentIndex(ps, id) == Some(j) {
        assert r[j] == MergePayment(ps[j], u, now);
      }
    }
  }

  class PaymentRepository {
    var payments: seq<Payment>

    constructor()
      ensures payments == []
    {
      payments := [];
    }

    /** `createPayment`: appends exactly one payment built from the
        arguments; the earlier payments are untouched. */
    method CreatePayment(id: string, orderId: string, paymentMethod: string, amount: int,
                         status: PaymentStatus, transactionRef: Option<string>, now: int)
      returns (p: Payment)
      modifies this
      ensures p == Payment(id, orderId, paymentMethod, amount, status, transactionRef, now, now)
      ensures payments == old(payments) + [p]
    {
      p := Payment(id, orderId, paymentMethod, amount, status, transactionRef, now, now);
      payments := payments + [p];
    }

    /** `findPaymentById`: the first payment with the id, or none. */
    function FindPaymentById(id: string): (r: Option<Payment>)
      reads this
      ensures r.None? <==> forall j :: 0 <= j < |payments| ==> payments[j].id != id
      ensures r.Some? ==> PaymentIndex(payments, id).Some?
                          && r.value == payments[PaymentIndex(payments, id).value]
                          && r.value.id == id
    {
      Find(payments, HasPaymentId(id))
    }

    /** `findPaymentByOrderId`: the first payment for the order, or none. */
    function FindPaymentByOrderId(orderId: string): (r: Option<Payment>)
      reads this
      ensures r.None? <==> forall j :: 0 <= j < |payments| ==> payments[j].orderId != orderId
      ensures r.Some? ==> FirstIndex(payments, ForOrder(orderId)).Some?
                          && r.value == payments[FirstIndex(payments, ForOrder(orderId)).value]
                          && r.value.orderId == orderId
    {
      Find(payments, ForOrder(orderId))
    }

    /** `updatePayment`: null and no change for an unknown id; otherwise the
        merged record, written back at the matched index only. */
    method UpdatePayment(id: string, updates: PaymentPatch, now: int) returns (r: Option<Payment>)
      modifies this
      ensures payments == UpdatedPayments(old(payments), id, updates, now)
      ensures r.None? <==> PaymentIndex(old(payments), id).None?
      ensures r.Some? ==> r.value == payments[PaymentIndex(old(payments), id).value]
    {
      var index := PaymentIndex(payments, id);
      if index.None? {
        return None;
      }
      payments := payments[index.value := MergePayment(payments[index.value], updates, now)];
      r := Some(payments[index.value]);
    }
  }
}
