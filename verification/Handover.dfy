/** A call on its way from the owner that waits for its route to the queue of a lane. */
module Handover {
  import opened Common
  import opened Requests
  import opened WaitQueueSpec
  import opened WaitQueues
  import opened RouteWaitingCalls
  import opened PendingCalls
  import ScanSpec
  import TargetWaiting

  /** What the lane's queue makes of a call whose first wait fixed `deadline`. */
  ghost predicate KeepsDeadline(deadline: Moment, later: Moment, refused: Option<RequestError>,
                                before: seq<Waiting>, after: seq<Waiting>, request: Request)
  {
    && (refused == Some(EXPIRED) <==> deadline <= later)
    && refused != Some(DeadlineOverflow)
    && after == before + (if refused.None? then [Held(request, deadline)] else [])
  }

  /** The push of a call that has a deadline already: it is queued with it or ended by it, at whatever moment. */
  method Push(pending: PendingRequests, request: Request, later: Moment) returns (refused: Option<RequestError>)
    requires pending.Valid() && request.absolute.Some?
    modifies pending, pending.requests
    ensures pending.Valid()
    ensures KeepsDeadline(request.absolute.value, later, refused, old(pending.Items()), pending.Items(), request)
  {
    hide PendingRequests.Valid, Establish;
    DeadlineFixed(request, later, later);
    refused := pending.Push(request, later);
  }

  /**
   * A call popped for its route keeps the deadline of its first wait when it is queued again at any later moment,
   * and is ended as expired there exactly when that deadline has passed.
   */
  method RouteToLane(waiting: RouteWaiting, pending: PendingRequests, now: Moment, later: Moment, observed: Option<Stamp>)
    returns (outcome: PopOutcome, refused: Option<RequestError>)
    requires waiting.Valid() && pending.Valid() && waiting.calls != pending.requests
    modifies waiting, waiting.calls, pending, pending.requests
    ensures waiting.Valid() && pending.Valid()
    ensures outcome.Ready? <==> old(waiting.Items()) != [] && old(waiting.Items())[0].deadline > now
    ensures outcome.Ready? ==>
      var first := old(waiting.Items())[0];
      KeepsDeadline(first.deadline, later, refused, old(pending.Items()), pending.Items(), first.value.request)
    ensures !outcome.Ready? ==> refused.None? && pending.Items() == old(pending.Items())
  {
    hide PendingRequests.Valid, KeepsDeadline, WaitQueue.Valid, WaitQueue.View;
    refused := None;
    ghost var items := waiting.Items();
    assert items != [] ==> Fixed(items[0]);
    outcome := waiting.Pop(now, observed);
    if outcome.Ready? {
      refused := Push(pending, outcome.request, later);
    }
  }

  /** The request comes from an entry that was not due at `now`, and carries the deadline of that entry. */
  ghost predicate CarriedFrom<K>(items: seq<WaitEntry<ScanSpec.Waiting<K>>>, request: Request, now: Moment) {
    exists i :: 0 <= i < |items| && items[i].value.request == request && request.absolute == Some(items[i].deadline)
      && items[i].deadline > now
  }

  /** What the routed calls that were not refused put into the lane's queue. */
  function Queued<K>(routed: seq<ScanSpec.RoutedCall<K>>, refusals: seq<Option<RequestError>>): seq<Waiting>
    requires |refusals| <= |routed| && forall j :: 0 <= j < |routed| ==> routed[j].request.absolute.Some?
  {
    if refusals == [] then []
    else
      var n := |refusals| - 1;
      Queued(routed, refusals[..n])
        + if refusals[n].None? then [Held(routed[n].request, routed[n].request.absolute.value)] else []
  }

  /** The calls of `items` that a turn routes on, with the deadline of each. */
  lemma {:induction false} DepartedKeep<K>(items: seq<WaitEntry<ScanSpec.Waiting<K>>>, stands: K -> ScanSpec.Standing,
                                           now: Moment, j: nat)
    requires TargetWaiting.AllKept(items) && j < |ScanSpec.Departed(items, stands, now)|
    ensures CarriedFrom(items, ScanSpec.Departed(items, stands, now)[j].request, now)
  {
    var first := ScanSpec.DepartureOf(items[0], stands, now);
    if j >= |first| {
      DepartedKeep(items[1..], stands, now, j - |first|);
      var r := ScanSpec.Departed(items[1..], stands, now)[j - |first|].request;
      var i :| 0 <= i < |items[1..]| && items[1..][i].value.request == r && r.absolute == Some(items[1..][i].deadline)
        && items[1..][i].deadline > now;
      assert items[i + 1].value.request == r;
    } else {
      assert TargetWaiting.Kept(items[0]);
    }
  }

  lemma CarriedFromFront<K>(items: seq<WaitEntry<ScanSpec.Waiting<K>>>, n: nat, request: Request, now: Moment)
    requires n <= |items| && CarriedFrom(items[..n], request, now)
    ensures CarriedFrom(items, request, now) && request.absolute.Some? && request.absolute.value > now
  {
    var i :| 0 <= i < |items[..n]| && items[..n][i].value.request == request && request.absolute == Some(items[..n][i].deadline)
      && items[..n][i].deadline > now;
    assert items[i] == items[..n][i];
  }

  /**
   * The calls a scan routes on: each was queued with the deadline it carries, was not due, and keeps that deadline in
   * the lane's queue at any later moment.
   */
  method ScanToLane<K>(waiters: TargetWaiting.TargetWaiters<K>, pending: PendingRequests, stands: K -> ScanSpec.Standing,
                       now: Moment, budget: nat, later: Moment)
    returns (routed: seq<ScanSpec.RoutedCall<K>>, refusals: seq<Option<RequestError>>)
    requires waiters.Valid() && pending.Valid() && budget > 0
    modifies waiters, waiters.calls, pending, pending.requests
    ensures waiters.Valid() && pending.Valid() && |refusals| == |routed|
    ensures forall j :: 0 <= j < |routed| ==>
      && CarriedFrom(old(waiters.Items()), routed[j].request, now) && routed[j].request.absolute.Some?
      && (refusals[j] == Some(EXPIRED) <==> routed[j].request.absolute.value <= later)
    ensures pending.Items() == old(pending.Items()) + Queued(routed, refusals)
  {
    hide PendingRequests.Valid, WaitQueue.Valid, WaitQueue.View, ScanSpec.Departed, ScanSpec.Ended, ScanSpec.Turned, CarriedFrom;
    ghost var items := waiters.Items();
    ghost var n := ScanSpec.Least(waiters.scanRemaining, budget);
    assert TargetWaiting.AllKept(items);
    var examined, more;
    routed, examined, more := waiters.Scan(stands, now, budget);
    forall j | 0 <= j < |routed|
      ensures CarriedFrom(items, routed[j].request, now) && routed[j].request.absolute.Some?
    {
      DepartedKeep(items[..n], stands, now, j);
      CarriedFromFront(items, n, routed[j].request, now);
    }
    refusals := [];
    for j := 0 to |routed|
      invariant waiters.Valid() && pending.Valid() && |refusals| == j
      invariant forall k :: 0 <= k < j ==> (refusals[k] == Some(EXPIRED) <==> routed[k].request.absolute.value <= later)
      invariant pending.Items() == old(pending.Items()) + Queued(routed, refusals)
    {
      ghost var before := pending.Items();
      var refused := Push(pending, routed[j].request, later);
      assert (refusals + [refused])[..j] == refusals;
      refusals := refusals + [refused];
    }
  }
}
