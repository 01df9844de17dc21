/** The read-only order services: the filtered, paginated listing
    (`getOrdersForUserService`) and the summary statistics
    (`getSummaryStatsService`). */
module OrderQueries {
  import opened Seqs
  import opened Model
  import opened Orders
  import opened Paging
  import opened Reservation
  import opened OrderService

  /** The listing's query parameters; None is an absent (or empty)
      parameter. Dates are clock values like `createdAt`. */
  datatype OrderQuery = OrderQuery(
    status: Option<OrderStatus>, dateFrom: Option<int>, dateTo: Option<int>,
    minTotal: Option<int>, maxTotal: Option<int>)

  /** `filterFn`: status by equality, creation time and grand total within
      inclusive bounds. */
  predicate MatchesQuery(q: OrderQuery, o: Order)
  {
    && (q.status.Some? ==> o.status == q.status.value)
    && (q.dateFrom.Some? ==> o.createdAt >= q.dateFrom.value)
    && (q.dateTo.Some? ==> o.createdAt <= q.dateTo.value)
    && (q.minTotal.Some? ==> o.totals.grandTotal >= q.minTotal.value)
    && (q.maxTotal.Some? ==> o.totals.grandTotal <= q.maxTotal.value)
  }

  function QueryFilter(q: OrderQuery): Order -> bool
  {
    (o: Order) => MatchesQuery(q, o)
  }

  /** The orders the listing counts, in store order: a customer's own
      matching orders, or every matching order for staff. */
  function Visible(os: seq<Order>, caller: Caller, q: OrderQuery): (r: seq<Order>)
    ensures forall i :: 0 <= i < |r| ==> r[i] in os && MatchesQuery(q, r[i]) && MayAccess(caller, r[i].userId)
    ensures forall j :: 0 <= j < |os| && MatchesQuery(q, os[j]) && MayAccess(caller, os[j].userId) ==> os[j] in r
  {
    if caller.role == Customer then Filter(os, OwnedAnd(caller.id, QueryFilter(q)))
    else Filter(os, QueryFilter(q))
  }

  /** `getOrdersForUserService`, once `getPagination` has produced `page`,
      `limit` and `skip`. */
  function GetOrdersForUser(os: seq<Order>, caller: Caller, q: OrderQuery, page: nat, limit: nat, skip: nat)
    : (r: Page<Order>)
    requires limit > 0
    ensures r.meta == Meta(page, limit, |Visible(os, caller, q)|, TotalPages(|Visible(os, caller, q)|, limit))
    ensures var n := |Visible(os, caller, q)|;
            |r.items| == if skip >= n then 0 else if skip + limit <= n then limit else n - skip
    ensures forall i :: 0 <= i < |r.items| ==>
      && skip + i < |Visible(os, caller, q)|
      && r.items[i] == Visible(os, caller, q)[skip + i]
      && r.items[i] in os && MatchesQuery(q, r.items[i])
      && (caller.role == Customer ==> r.items[i].userId == caller.id)
  {
    Paginate(Visible(os, caller, q), page, limit, skip)
  }

  /** Staff with the empty query see the whole store: the total is the
      number of orders and the pages walk the store in order. */
  lemma StaffSeeEveryOrder(os: seq<Order>, caller: Caller)
    requires caller.role != Customer
    ensures Visible(os, caller, OrderQuery(None, None, None, None, None)) == os
  {
    FilterAll(os, QueryFilter(OrderQuery(None, None, None, None, None)));
  }

  // ----- getSummaryStatsService -----

  /** `all.reduce((sum, o) => sum + (o.totals?.grandTotal || 0), 0)` */
  function Revenue(os: seq<Order>): int
    decreases |os|
  {
    if |os| == 0 then 0 else Revenue(os[..|os| - 1]) + os[|os| - 1].totals.grandTotal
  }

  /** The number of orders in status `s`. */
  function CountOf(os: seq<Order>, s: OrderStatus): nat
    decreases |os|
  {
    if |os| == 0 then 0 else CountOf(os[..|os| - 1], s) + (if os[|os| - 1].status == s then 1 else 0)
  }

  /** The `byStatus` dictionary the loop builds: one key per status that
      occurs, counting its orders. */
  function StatusCounts(os: seq<Order>): map<OrderStatus, nat>
    decreases |os|
  {
    if |os| == 0 then map[]
    else
      var m := StatusCounts(os[..|os| - 1]);
      var s := os[|os| - 1].status;
      m[s := (if s in m then m[s] else 0) + 1]
  }

  /** `byStatus` has a key exactly for the statuses that occur, and each
      key counts the orders in that status. */
  lemma {:induction false} StatusCountsAgree(os: seq<Order>)
    ensures forall s :: s in StatusCounts(os) <==> CountOf(os, s) > 0
    ensures forall s :: s in StatusCounts(os) ==> StatusCounts(os)[s] == CountOf(os, s)
    decreases |os|
  {
    if |os| > 0 {
      StatusCountsAgree(os[..|os| - 1]);
    }
  }

  /** The per-status counts add up to the number of orders. */
  lemma {:induction false} CountsSumToTotal(os: seq<Order>)
    ensures CountOf(os, Pending) + CountOf(os, Confirmed) + CountOf(os, Processing)
          + CountOf(os, Shipped) + CountOf(os, Delivered) + CountOf(os, Cancelled) == |os|
    decreases |os|
  {
    if |os| > 0 {
      CountsSumToTotal(os[..|os| - 1]);
    }
  }

  /** The statistics `getSummaryStatsService` returns. */
  datatype Summary = Summary(totalOrders: nat, totalRevenue: int, byStatus: map<OrderStatus, nat>)

  /** `getSummaryStatsService`: reads the order store and changes nothing. */
  method GetSummaryStatsService(orders: OrderRepository) returns (r: Summary)
    ensures r.totalOrders == |orders.orders|
    ensures r.totalRevenue == Revenue(orders.orders)
    ensures r.byStatus == StatusCounts(orders.orders)
  {
    var all := orders.FindAllOrders(AnyOrder());
    orders.FindAllOrdersDefault();
    var byStatus: map<OrderStatus, nat> := map[];
    var i := 0;
    while i < |all|
      invariant 0 <= i <= |all|
      invariant byStatus == StatusCounts(all[..i])
    {
      var s := all[i].status;
      assert all[..i + 1][..i] == all[..i];
      byStatus := byStatus[s := (if s in byStatus then byStatus[s] else 0) + 1];
      i := i + 1;
    }
    assert all[..|all|] == all;
    return Summary(|all|, Revenue(all), byStatus);
  }

  /** A checkout adds one order, its grand total to the revenue and one
      pending order to the counts. */
  lemma CheckoutUpdatesStats(ps: seq<Product>, os: seq<Order>, caller: Caller, items: seq<ItemRequest>,
                             shippingAddress: Option<Address>, paymentMethod: string, newId: string, now: int)
    requires Create(ps, os, caller, items, shippingAddress, paymentMethod, newId, now).Ok?
    ensures var pl := Create(ps, os, caller, items, shippingAddress, paymentMethod, newId, now).value;
            && |pl.orders| == |os| + 1
            && Revenue(pl.orders) == Revenue(os) + pl.order.totals.grandTotal
            && CountOf(pl.orders, Pending) == CountOf(os, Pending) + 1
            && forall s :: s != Pending ==> CountOf(pl.orders, s) == CountOf(os, s)
  {
    var pl := Create(ps, os, caller, items, shippingAddress, paymentMethod, newId, now).value;
    assert pl.orders[..|pl.orders| - 1] == os;
  }
}
