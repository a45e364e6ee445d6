/** `RouteWaiting` of src/reactor/route_waiting.rs: calls held before any physical admission. */
module RouteWaitingCalls {
  import opened Common
  import opened OrderedKeys
  import opened WaitQueueSpec
  import opened WaitQueues
  import opened Requests
  import opened Filters

  datatype WaitingCall = WaitingCall(request: Request, bytes: nat)

  type Waiting = WaitEntry<WaitingCall>

  function Charge(e: Waiting): nat { e.value.bytes }

  predicate OptedIn(e: Waiting) { e.value.request.rejects }

  predicate Default(e: Waiting) { !OptedIn(e) }

  function Weight(e: Waiting): nat { if OptedIn(e) then 1 else 0 }

  /** What the byte counter, the opt-in counter and the scan cursor say about the queue. */
  ghost predicate Accounted(q: Fifo<WaitingCall>, bytes: nat, rejecting: nat) {
    // Compared with true, here and below, so that the conjunction is proved as one obligation.
    true == (
      && q.scanned <= |q.items|
      && bytes == Sum(Charge, q.items)
      && rejecting == Sum(Weight, q.items)
      && (forall i :: 0 <= i < q.scanned ==> Default(q.items[i]))
      && (forall i :: 0 <= i < |q.items| ==> Fixed(q.items[i])))
  }

  /** The deadline a call is queued with is the one it carries on to its next owner. */
  predicate Fixed(e: Waiting) { e.value.request.absolute == Some(e.deadline) }

  lemma AccountedWithout(q: Fifo<WaitingCall>, bytes: nat, rejecting: nat, i: nat)
    requires Accounted(q, bytes, rejecting) && i < |q.items|
    ensures bytes >= Charge(q.items[i]) && rejecting >= Weight(q.items[i])
    ensures Accounted(Without(q, i), bytes - Charge(q.items[i]), rejecting - Weight(q.items[i]))
  {
    SumWithout(Charge, q.items, i);
    SumWithout(Weight, q.items, i);
  }

  lemma AccountedInsert(q: Fifo<WaitingCall>, capacity: nat, e: Waiting, bytes: nat, rejecting: nat)
    requires Accounted(q, bytes, rejecting) && |q.items| != capacity && Fixed(e)
    ensures Accounted(Insert(q, capacity, e).0, bytes + Charge(e), rejecting + Weight(e))
  {
    SumConcat(Charge, q.items, [e]);
    SumConcat(Weight, q.items, [e]);
    SumOne(Charge, e);
    SumOne(Weight, e);
  }

  /** While opted-in calls remain, the next examined call lies above the cursor: the scan cannot wrap. */
  lemma NoWrap(q: Fifo<WaitingCall>, bytes: nat, rejecting: nat)
    requires Accounted(q, bytes, rejecting) && rejecting != 0
    ensures q.scanned < |q.items|
  {
    if q.scanned == |q.items| {
      NothingOptedIn(q.items);
    }
  }

  lemma {:induction false} NothingOptedIn(items: seq<Waiting>)
    requires forall i :: 0 <= i < |items| ==> Default(items[i])
    ensures Sum(Weight, items) == 0
  {
    if items != [] {
      NothingOptedIn(items[1..]);
    }
  }

  lemma {:induction false} NoneLeftMeansDefault(items: seq<Waiting>)
    requires Sum(Weight, items) == 0
    ensures forall i :: 0 <= i < |items| ==> Default(items[i])
  {
    if items != [] {
      NoneLeftMeansDefault(items[1..]);
      assert forall i :: 1 <= i < |items| ==> items[i] == items[1..][i - 1];
    }
  }

  function RouteFailure(e: Waiting, now: Moment): RequestError {
    if e.deadline <= now then EXPIRED else Rejected(NotReady, NotSent)
  }

  function RejectedBy(items: seq<Waiting>, now: Moment, observed: Stamp): seq<Settlement> {
    if items == [] then []
    else [Fail(items[0].value.request.call, RouteFailure(items[0], now), Some(observed))]
         + RejectedBy(items[1..], now, observed)
  }

  lemma {:induction false} RejectedByConcat(a: seq<Waiting>, b: seq<Waiting>, now: Moment, observed: Stamp)
    ensures RejectedBy(a + b, now, observed) == RejectedBy(a, now, observed) + RejectedBy(b, now, observed)
  {
    if a == [] {
      assert a + b == b;
    } else {
      assert (a + b)[1..] == a[1..] + b;
      RejectedByConcat(a[1..], b, now, observed);
    }
  }

  function CallOf(e: Waiting): CallId { e.value.request.call }

  datatype PopOutcome = Empty | Settled | Ready(request: Request)

  class RouteWaiting {
    const calls: WaitQueue<WaitingCall>
    const callLimit: nat
    const byteLimit: nat
    const turnBudget: nat
    var retainedBytes: nat
    var rejectingCalls: nat

    /** Every completion handed to a caller, oldest first. */
    var settled: seq<Settlement>

    ghost predicate Valid()
      reads this, calls
    {
      true == (
        && calls.Valid()
        && calls.capacity == callLimit
        && retainedBytes <= byteLimit <= USIZE_MAX
        && Accounted(calls.View(), retainedBytes, rejectingCalls))
    }

    ghost function Items(): seq<Waiting>
      requires Valid()
      reads this, calls
    {
      calls.View().items
    }

    constructor (callLimit: nat, byteLimit: nat, turnBudget: nat)
      requires 1 <= callLimit <= USIZE_MAX && 1 <= byteLimit <= USIZE_MAX && 1 <= turnBudget
      ensures Valid() && Items() == [] && settled == [] && fresh(calls)
      ensures this.callLimit == callLimit && this.byteLimit == byteLimit && this.turnBudget == turnBudget
    {
      calls := new WaitQueue<WaitingCall>(callLimit);
      this.callLimit, this.byteLimit, this.turnBudget := callLimit, byteLimit, turnBudget;
      retainedBytes, rejectingCalls, settled := 0, 0, [];
    }

    method Admit(request: Request, now: Moment) returns (admitted: bool)
      requires Valid()
      modifies this, calls
      ensures Valid()
      ensures var refusal := Refusal(request, request.bytes, now, |old(Items())|, old(retainedBytes), callLimit, byteLimit);
        if refusal.Some?
        then !admitted && Items() == old(Items())
             && settled == old(settled) + [Fail(request.call, refusal.value, None)]
        else admitted && settled == old(settled)
             && Items() == old(Items()) + [Held(request, Establish(request, now).value)]
    {
      hide Consistent, ViewOf, Sum, Keep;
      var deadline := Establish(request, now);
      if deadline.None? {
        settled := settled + [Fail(request.call, DeadlineOverflow, None)];
        return false;
      }
      if deadline.value <= now {
        settled := settled + [Fail(request.call, EXPIRED, None)];
        return false;
      }
      var total := CheckedAdd(retainedBytes, request.bytes);
      if total.None? || calls.Len() == callLimit || total.value > byteLimit {
        settled := settled + [Fail(request.call, RouteCapacityReached(callLimit, byteLimit), None)];
        return false;
      }
      var held := Held(request, deadline.value);
      AccountedInsert(calls.View(), callLimit, held, retainedBytes, rejectingCalls);
      admitted := calls.Push(held.value, held.deadline);
      retainedBytes := total.value;
      rejectingCalls := rejectingCalls + Weight(held);
    }

    /** Takes a departed call off both counters. */
    method Release(e: Waiting)
      requires retainedBytes >= Charge(e) && rejectingCalls >= Weight(e)
      modifies this`retainedBytes, this`rejectingCalls
      ensures retainedBytes == old(retainedBytes) - Charge(e)
      ensures rejectingCalls == old(rejectingCalls) - Weight(e)
    {
      retainedBytes := retainedBytes - e.value.bytes;
      rejectingCalls := rejectingCalls - (if e.value.request.rejects then 1 else 0);
    }

    method Pop(now: Moment, observed: Option<Stamp>) returns (outcome: PopOutcome)
      requires Valid()
      modifies this, calls
      ensures Valid()
      ensures if old(Items()) == [] then outcome == Empty && Items() == [] && settled == old(settled)
        else
          var first := old(Items())[0];
          && Items() == old(Items())[1..]
          && (if first.deadline <= now
              then outcome == Settled && settled == old(settled) + [Fail(first.value.request.call, EXPIRED, observed)]
              else outcome == Ready(first.value.request) && settled == old(settled))
    {
      hide Consistent, ViewOf, Sum, Keep;
      ghost var q := calls.View();
      var taken := calls.PopFront();
      if taken.None? {
        return Empty;
      }
      AccountedWithout(q, retainedBytes, rejectingCalls, 0);
      Release(taken.value);
      if taken.value.deadline <= now {
        settled := settled + [Fail(taken.value.value.request.call, EXPIRED, observed)];
        return Settled;
      }
      return Ready(taken.value.value.request);
    }

    /** One call is examined for each true answer; a call that did not opt in counts and stays. */
    method RejectFailedRouteOne(now: Moment, observed: Stamp) returns (examined: bool)
      requires Valid()
      modifies this, calls
      ensures Valid()
      ensures examined <==> old(rejectingCalls) != 0
      ensures !examined ==> calls.View() == old(calls.View()) && settled == old(settled)
      ensures examined ==>
        var q := old(calls.View());
        var at := q.scanned;
        && at < |q.items|
        && (if OptedIn(q.items[at])
            then calls.View() == Without(q.(scanned := at + 1), at)
                 && settled == old(settled) + RejectedBy([q.items[at]], now, observed)
            else calls.View() == q.(scanned := at + 1) && settled == old(settled))
    {
      hide Consistent, ViewOf, Sum, Keep;
      if rejectingCalls == 0 {
        return false;
      }
      ghost var q := calls.View();
      NoWrap(q, retainedBytes, rejectingCalls);
      var taken := calls.ScanOne((waiting: WaitingCall) => waiting.request.rejects);
      if taken.Some? {
        AccountedWithout(q, retainedBytes, rejectingCalls, q.scanned);
        Release(taken.value);
        settled := settled + [Fail(taken.value.value.request.call, RouteFailure(taken.value, now), Some(observed))];
      }
      examined := true;
    }

    /** Settles the earliest due call, if any. */
    method ExpireOne(now: Moment, observed: Option<Stamp>) returns (taken: Option<Waiting>)
      requires Valid()
      modifies this, calls
      ensures Valid()
      ensures var r := TakeDue(old(calls.View()), now); calls.View() == r.0 && taken == r.1
      ensures settled == old(settled) + if taken.Some? then FailedWith(CallOf, [taken.value], EXPIRED, observed) else []
    {
      hide Consistent, ViewOf, Sum, Keep, Earliest;
      ghost var here := calls.View();
      taken := calls.TakeDue(now);
      if taken.Some? {
        AccountedWithout(here, retainedBytes, rejectingCalls, Earliest(here.items));
        Release(taken.value);
        settled := settled + [Fail(taken.value.value.request.call, EXPIRED, observed)];
      }
    }

    method ExpireDueBounded(now: Moment, observed: Option<Stamp>, budget: nat) returns (count: nat)
      requires Valid()
      modifies this, calls
      ensures Valid()
      ensures var n := if budget < turnBudget then budget else turnBudget;
        var (rest, taken) := Expire(old(calls.View()), now, n);
        && calls.View() == rest
        && count == |taken|
        && settled == old(settled) + FailedWith(CallOf, taken, EXPIRED, observed)
    {
      hide Accounted, WaitQueue.Valid, WaitQueue.View, Earliest, FailedWith, DropAt, Without;
      var n := if budget < turnBudget then budget else turnBudget;
      ghost var q := calls.View();
      ghost var taken: seq<Waiting> := [];
      count := 0;
      NothingFailed(EXPIRED, observed, Expire(q, now, n).1);
      while count < n
        invariant Valid() && count == |taken| <= n
        invariant Expire(q, now, n).0 == Expire(calls.View(), now, n - count).0
        invariant Expire(q, now, n).1 == taken + Expire(calls.View(), now, n - count).1
        invariant settled == old(settled) + FailedWith(CallOf, taken, EXPIRED, observed)
      {
        var due := ExpireOne(now, observed);
        if due.None? {
          break;
        }
        FailedWithSnoc(CallOf, taken, due.value, EXPIRED, observed);
        Regroup(taken, due.value, Expire(calls.View(), now, n - count - 1).1);
        taken := taken + [due.value];
        count := count + 1;
      }
      assert Expire(calls.View(), now, n - count) == (calls.View(), []);
      assert taken + [] == taken;
    }

    /** Settles the oldest call, if any. */
    method FailFront(error: RequestError, observed: Option<Stamp>) returns (taken: Option<Waiting>)
      requires Valid()
      modifies this, calls
      ensures Valid()
      ensures var r := PopFront(old(calls.View())); calls.View() == r.0 && taken == r.1
      ensures settled == old(settled) + if taken.Some? then FailedWith(CallOf, [taken.value], error, observed) else []
    {
      hide Consistent, ViewOf, Sum;
      ghost var here := calls.View();
      taken := calls.PopFront();
      if taken.Some? {
        AccountedWithout(here, retainedBytes, rejectingCalls, 0);
        Release(taken.value);
        settled := settled + [Fail(taken.value.value.request.call, error, observed)];
      }
    }

    method FailBounded(error: RequestError, observed: Option<Stamp>, budget: nat) returns (count: nat)
      requires Valid()
      modifies this, calls
      ensures Valid()
      ensures var items := old(Items());
        && count == (if budget < |items| then budget else |items|)
        && Items() == items[count..]
        && settled == old(settled) + FailedWith(CallOf, items[..count], error, observed)
    {
      hide Accounted, WaitQueue.Valid, WaitQueue.View, FailedWith, DropAt;
      count := 0;
      ghost var items, done: seq<Waiting> := Items(), [];
      NothingFailed(error, observed, items);
      while count < budget
        invariant Valid() && count == |done| <= budget
        invariant done + Items() == items
        invariant settled == old(settled) + FailedWith(CallOf, done, error, observed)
      {
        ghost var here := Items();
        var taken := FailFront(error, observed);
        if taken.None? {
          break;
        }
        FailedWithSnoc(CallOf, done, taken.value, error, observed);
        FirstMoves(done, here);
        done := done + [taken.value];
        count := count + 1;
      }
    }

    /**
     * Repeating the one-call rejection until it reports no work: at most one examination per queued
     * call, exactly the opted-in calls settled, survivors in admission order.
     */
    method RejectFailedRoute(now: Moment, observed: Stamp) returns (examinations: nat)
      requires Valid()
      modifies this, calls
      ensures Valid()
      ensures examinations <= |old(Items())|
      ensures rejectingCalls == 0
      ensures Items() == Keep(Default, old(Items()))
      ensures settled == old(settled) + RejectedBy(Keep(OptedIn, old(Items())), now, observed)
    {
      hide WaitQueue.Valid, WaitQueue.View, Keep, Sum, RejectedBy;
      ghost var items, start := Items(), calls.View().scanned;
      examinations := 0;
      SweepBegins(items, start, now, observed);
      var more := true;
      while more
        invariant Valid() && start + examinations <= |items|
        invariant Swept(items, start + examinations, calls.View(), settled, old(settled), now, observed)
        invariant !more ==> rejectingCalls == 0
        decreases more, |items| - examinations
      {
        ghost var here, before := calls.View(), settled;
        more := RejectFailedRouteOne(now, observed);
        if more {
          SweepStep(items, start + examinations, here, before, old(settled), now, observed);
          examinations := examinations + 1;
        }
      }
      SweepEnds(items, start + examinations, calls.View(), settled, old(settled), now, observed);
    }
  }

  /** The first `i` of the original calls examined, the others untouched. */
  ghost predicate Swept(items: seq<Waiting>, i: nat, q: Fifo<WaitingCall>, settled: seq<Settlement>,
                        before: seq<Settlement>, now: Moment, observed: Stamp)
    requires i <= |items|
  {
    && q.items == Keep(Default, items[..i]) + items[i..]
    && q.scanned == |Keep(Default, items[..i])|
    && settled == before + RejectedBy(Keep(OptedIn, items[..i]), now, observed)
  }

  lemma SweepBegins(items: seq<Waiting>, start: nat, now: Moment, observed: Stamp)
    requires start <= |items| && forall i :: 0 <= i < start ==> Default(items[i])
    ensures Keep(Default, items[..start]) == items[..start]
    ensures items[..start] + items[start..] == items
    ensures RejectedBy(Keep(OptedIn, items[..start]), now, observed) == []
  {
    KeepAll(Default, items[..start]);
    KeepNone(OptedIn, items[..start]);
  }

  lemma SweepStep(items: seq<Waiting>, i: nat, q: Fifo<WaitingCall>, settled: seq<Settlement>,
                  before: seq<Settlement>, now: Moment, observed: Stamp)
    requires i <= |items| && Swept(items, i, q, settled, before, now, observed) && q.scanned < |q.items|
    ensures i < |items| && q.items[q.scanned] == items[i]
    ensures if OptedIn(items[i])
            then Swept(items, i + 1, Without(q.(scanned := q.scanned + 1), q.scanned),
                       settled + RejectedBy([items[i]], now, observed), before, now, observed)
            else Swept(items, i + 1, q.(scanned := q.scanned + 1), settled, before, now, observed)
  {
    hide Keep, RejectedBy;
    KeepTake(Default, items, i);
    KeepTake(OptedIn, items, i);
    var kept := Keep(Default, items[..i]);
    assert items[i..] == [items[i]] + items[i + 1..];
    if OptedIn(items[i]) {
      assert DropAt(q.items, |kept|) == kept + items[i + 1..];
      assert Keep(Default, items[..i + 1]) == kept;
      RejectedByConcat(Keep(OptedIn, items[..i]), [items[i]], now, observed);
    } else {
      assert q.items == (kept + [items[i]]) + items[i + 1..];
      assert Keep(OptedIn, items[..i + 1]) == Keep(OptedIn, items[..i]);
    }
  }

  lemma SweepEnds(items: seq<Waiting>, i: nat, q: Fifo<WaitingCall>, settled: seq<Settlement>,
                  before: seq<Settlement>, now: Moment, observed: Stamp)
    requires i <= |items| && Swept(items, i, q, settled, before, now, observed)
    requires Sum(Weight, q.items) == 0
    ensures q.items == Keep(Default, items)
    ensures settled == before + RejectedBy(Keep(OptedIn, items), now, observed)
  {
    hide Keep, Sum;
    NoneLeftMeansDefault(q.items);
    assert forall j :: 0 <= j < |items[i..]| ==> items[i..][j] == q.items[|Keep(Default, items[..i])| + j];
    KeepAll(Default, items[i..]);
    KeepNone(OptedIn, items[i..]);
    assert items[..i] + items[i..] == items;
    KeepConcat(Default, items[..i], items[i..]);
    KeepConcat(OptedIn, items[..i], items[i..]);
    assert Keep(OptedIn, items) == Keep(OptedIn, items[..i]);
  }

  lemma FirstMoves(done: seq<Waiting>, here: seq<Waiting>)
    requires here != []
    ensures done + here == (done + [here[0]]) + DropAt(here, 0)
  {
  }

  lemma NothingFailed(error: RequestError, observed: Option<Stamp>, rest: seq<Waiting>)
    ensures FailedWith(CallOf, [], error, observed) == [] && [] + rest == rest && rest[..0] == [] && rest[0..] == rest
  {
  }

  function Held(r: Request, deadline: Moment): Waiting {
    WaitEntry(WaitingCall(r.(absolute := Some(deadline)), r.bytes), deadline)
  }
}
