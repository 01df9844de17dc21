/** The order status state machine: the `allowedTransitions` table and the
    `canTransition` check that status updates go through. */
module Lifecycle {
  import opened Model

  /** `allowedTransitions[from]`: the statuses an order may move to. */
  function AllowedTransitions(from: OrderStatus): seq<OrderStatus>
  {
    match from
    case Pending => [Confirmed, Cancelled]
    case Confirmed => [Processing, Cancelled]
    case Processing => [Shipped]
    case Shipped => [Delivered]
    case Delivered => []
    case Cancelled => []
  }

  /** `canTransition(from, to)` */
  predicate CanTransition(from: OrderStatus, to: OrderStatus)
  {
    to in AllowedTransitions(from)
  }

  /** The length of the longest chain of transitions still open to an order
      in status `s`. */
  function Remaining(s: OrderStatus): nat
  {
    match s
    case Pending => 4
    case Confirmed => 3
    case Processing => 2
    case Shipped => 1
    case Delivered => 0
    case Cancelled => 0
  }

  /** Every allowed transition strictly shortens what remains, so the graph
      has no cycle and delivered and cancelled are final. */
  lemma TransitionShortensRemaining(from: OrderStatus, to: OrderStatus)
    requires CanTransition(from, to)
    ensures Remaining(to) < Remaining(from)
  {
  }

  /** A sequence of statuses an order passes through by allowed transitions. */
  predicate IsRun(path: seq<OrderStatus>)
  {
    forall i :: 0 <= i < |path| - 1 ==> CanTransition(path[i], path[i + 1])
  }

  /** Along a run, every later status has less remaining than every earlier
      one: an order never returns to a status it has left. */
  lemma {:induction false} RunsNeverRevisit(path: seq<OrderStatus>, i: nat, j: nat)
    requires IsRun(path)
    requires i < j < |path|
    ensures Remaining(path[j]) < Remaining(path[i])
    ensures path[i] != path[j]
    decreases j - i
  {
    TransitionShortensRemaining(path[j - 1], path[j]);
    if i < j - 1 {
      RunsNeverRevisit(path, i, j - 1);
    }
  }

  /** No order passes through more than five statuses, and from status `s` at
      most `Remaining(s)` updates can succeed. */
  lemma {:induction false} RunsAreShort(path: seq<OrderStatus>)
    requires IsRun(path) && |path| > 0
    ensures |path| <= Remaining(path[0]) + 1
    ensures |path| <= 5
    decreases |path|
  {
    if |path| > 1 {
      assert IsRun(path[1..]) by {
        forall i | 0 <= i < |path[1..]| - 1
          ensures CanTransition(path[1..][i], path[1..][i + 1])
        {
          assert CanTransition(path[i + 1], path[i + 2]);
        }
      }
      RunsAreShort(path[1..]);
      TransitionShortensRemaining(path[0], path[1]);
    }
  }

  /** The fulfilment path is accepted step by step; skipping from pending to
      shipped is not. */
  lemma FulfilmentPath()
    ensures IsRun([Pending, Confirmed, Processing, Shipped, Delivered])
    ensures !CanTransition(Pending, Shipped)
  {
  }

  /** Cancellation is a transition exactly from pending and confirmed: the
      status guard of cancelOrderService agrees with the table. */
  lemma CancellableStatuses(s: OrderStatus)
    ensures CanTransition(s, Cancelled) <==> s == Pending || s == Confirmed
  {
  }
}
