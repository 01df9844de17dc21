/** The order store: a module-level array of orders, appended to on create,
    looked up by first match and replaced at one index on update. Orders are
    never removed. */
module Orders {
  import opened Seqs
  import opened Model

  function HasOrderId(id: string): Order -> bool
  {
    (o: Order) => o.id == id
  }

  /** `() => true`, the default filter of the listing functions. */
  function AnyOrder(): Order -> bool
  {
    (o: Order) => true
  }

  function OwnedAnd(userId: string, f: Order -> bool): Order -> bool
  {
    (o: Order) => o.userId == userId && f(o)
  }

  /** The index `orders.findIndex(o => o.id === id)` yields. */
  function OrderIndex(os: seq<Order>, id: string): Option<nat>
  {
    FirstIndex(os, HasOrderId(id))
  }

  /** The store after `updateOrder(id, updates)`: only the first order with
      that id changes, to the merge of it with `updates`. */
  function UpdatedOrders(os: seq<Order>, id: string, u: OrderPatch, now: int): (r: seq<Order>)
    ensures |r| == |os|
    ensures OrderIndex(os, id).None? ==> r == os
    ensures OrderIndex(os, id).Some? ==>
      var k := OrderIndex(os, id).value;
      && r[k] == MergeOrder(os[k], u, now)
      && forall j :: 0 <= j < |os| && j != k ==> r[j] == os[j]
  {
    match OrderIndex(os, id)
    case None => os
    case Some(k) => os[k := MergeOrder(os[k], u, now)]
  }

  /** An update that carries no `id` keeps every order's id, so every
      lookup by id finds the same index afterwards. */
  lemma UpdateKeepsOrderIds(os: seq<Order>, id: string, u: OrderPatch, now: int)
    requires u.id.None?
    ensures forall j :: 0 <= j < |os| ==> UpdatedOrders(os, id, u, now)[j].id == os[j].id
    ensures forall x :: OrderIndex(UpdatedOrders(os, id, u, now), x) == OrderIndex(os, x)
  {
    var r := UpdatedOrders(os, id, u, now);
    forall j | 0 <= j < |os|
      ensures r[j].id == os[j].id
    {
      if OrderIndex(os, id) == Some(j) {
        assert r[j] == MergeOrder(os[j], u, now);
      }
    }
    forall x
      ensures OrderIndex(r, x) == OrderIndex(os, x)
    {
      FirstIndexSameKeys(r, HasOrderId(x), os, HasOrderId(x));
    }
  }

  class OrderRepository {
    var orders: seq<Order>

    constructor()
      ensures orders == []
    {
      orders := [];
    }

    /** `createOrder`: appends exactly one order built from the arguments;
        the earlier orders are untouched. */
    method CreateOrder(id: string, userId: string, items: seq<LineItem>, totals: Totals,
                       shippingAddress: Address, paymentId: Option<string>,
                       status: OrderStatus, now: int) returns (o: Order)
      modifies this
      ensures o == Order(id, userId, items, status, totals, shippingAddress, paymentId, now, now)
      ensures orders == old(orders) + [o]
    {
      o := Order(id, userId, items, status, totals, shippingAddress, paymentId, now, now);
      orders := orders + [o];
    }

    /** `findOrderById`: the first order with the id, or none. */
    function FindOrderById(id: string): (r: Option<Order>)
      reads this
      ensures r.None? <==> forall j :: 0 <= j < |orders| ==> orders[j].id != id
      ensures r.Some? ==> OrderIndex(orders, id).Some?
                          && r.value == orders[OrderIndex(orders, id).value]
                          && r.value.id == id
    {
      Find(orders, HasOrderId(id))
    }

    /** `updateOrder`: null and no change for an unknown id; otherwise the
        merged record, written back at the matched index only. */
    method UpdateOrder(id: string, updates: OrderPatch, now: int) returns (r: Option<Order>)
      modifies this
      ensures orders == UpdatedOrders(old(orders), id, updates, now)
      ensures r.None? <==> OrderIndex(old(orders), id).None?
      ensures r.Some? ==> r.value == orders[OrderIndex(old(orders), id).value]
    {
      var index := OrderIndex(orders, id);
      if index.None? {
        return None;
      }
      orders := orders[index.value := MergeOrder(orders[index.value], updates, now)];
      r := Some(orders[index.value]);
    }

    /** `findOrdersByUserId`: the orders of the user that pass the filter, in
        store order. */
    function FindOrdersByUserId(userId: string, f: Order -> bool): (r: seq<Order>)
      reads this
      ensures forall i :: 0 <= i < |r| ==> r[i] in orders && r[i].userId == userId && f(r[i])
      ensures forall j :: 0 <= j < |orders| && orders[j].userId == userId && f(orders[j]) ==> orders[j] in r
    {
      Filter(orders, OwnedAnd(userId, f))
    }

    /** `findAllOrders`: the orders that pass the filter, in store order. */
    function FindAllOrders(f: Order -> bool): (r: seq<Order>)
      reads this
      ensures forall i :: 0 <= i < |r| ==> r[i] in orders && f(r[i])
      ensures forall j :: 0 <= j < |orders| && f(orders[j]) ==> orders[j] in r
    {
      Filter(orders, f)
    }

    /** With the default filter, `findAllOrders()` is the whole store in
        store order. */
    lemma FindAllOrdersDefault()
      ensures FindAllOrders(AnyOrder()) == orders
    {
      FilterAll(orders, AnyOrder());
    }
  }
}
