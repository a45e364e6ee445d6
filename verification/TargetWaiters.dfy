/**
 * `PartitionWaiters` of src/reactor/metadata/waiting.rs. `ControllerWaiters` of
 * src/reactor/metadata/controller_waiting.rs is the same code over another kind of target.
 */
module TargetWaiting {
  import opened Common
  import opened OrderedKeys
  import opened WaitQueueSpec
  import opened WaitQueues
  import opened Requests
  import opened Filters
  import opened ScanSpec

  function Retained<K>(target: K, r: Request, bytes: nat, deadline: Moment): WaitEntry<Waiting<K>> {
    WaitEntry(Waiting(target, r.(absolute := Some(deadline)), bytes), deadline)
  }

  function SaturatingAdd(a: nat, b: nat): nat { Least(a + b, USIZE_MAX) }

  function CallOf<K>(e: WaitEntry<Waiting<K>>): CallId { e.value.request.call }

  datatype Popped<+K> = Empty | Ended | Ready(entry: WaitEntry<Waiting<K>>)

  /** What becomes of the metadata query that goes with an admission. */
  datatype QueryAnswer = Exhausted | CapacityRefused | Interpreted | InterpretationFailed

  /** The deadline a call is queued with is the one it carries on to its next owner. */
  predicate Kept<K>(e: WaitEntry<Waiting<K>>) { e.value.request.absolute == Some(e.deadline) }

  ghost predicate AllKept<K>(items: seq<WaitEntry<Waiting<K>>>) { forall i :: 0 <= i < |items| ==> Kept(items[i]) }

  lemma KeptMore<K>(items: seq<WaitEntry<Waiting<K>>>, e: WaitEntry<Waiting<K>>)
    ensures AllKept(items + [e]) <==> AllKept(items) && Kept(e)
  {
    if AllKept(items + [e]) {
      assert Kept((items + [e])[|items|]);
      forall i | 0 <= i < |items| ensures Kept(items[i]) {
        assert (items + [e])[i] == items[i];
      }
    }
  }

  class TargetWaiters<K> {
    const calls: WaitQueue<Waiting<K>>
    const callLimit: nat
    const byteLimit: nat
    var retainedBytes: nat
    var scanRemaining: nat
    var duePending: bool

    /** Every completion handed to a caller, oldest first. */
    var settled: seq<Settlement>

    /** The queue is sound and its bytes are counted. */
    ghost predicate Tallied()
      reads this, calls
    {
      // Compared with true, here and below, so that the conjunction is proved as one obligation.
      true == (
        && calls.Valid()
        && calls.capacity == callLimit
        && byteLimit <= USIZE_MAX
        && retainedBytes == Sum(Charge<K>, calls.View().items))
    }

    /** Within the byte limit, a scan never covers more than is queued, and deadlines are those the calls carry. */
    ghost predicate Valid()
      reads this, calls
    {
      true == (
        && Tallied() && retainedBytes <= byteLimit && scanRemaining <= |calls.View().items|
        && AllKept(calls.View().items))
    }

    ghost function Items(): seq<WaitEntry<Waiting<K>>>
      requires Tallied()
      reads this, calls
    {
      calls.View().items
    }

    constructor (callLimit: nat, byteLimit: nat)
      requires 1 <= callLimit <= USIZE_MAX && 1 <= byteLimit <= USIZE_MAX
      ensures Valid() && Items() == [] && settled == [] && fresh(calls)
      ensures this.callLimit == callLimit && this.byteLimit == byteLimit
    {
      calls := new WaitQueue<Waiting<K>>(callLimit);
      this.callLimit, this.byteLimit := callLimit, byteLimit;
      retainedBytes, scanRemaining, duePending, settled := 0, 0, false, [];
    }

    method Admit(target: K, targetBytes: nat, request: Request, now: Moment) returns (admitted: bool)
      requires Valid()
      modifies this, calls
      ensures Valid() && scanRemaining == old(scanRemaining)
      ensures var items, bytes := old(Items()), SaturatingAdd(request.bytes, targetBytes);
        var refusal := Refusal(request, bytes, now, |items|, old(retainedBytes), callLimit, byteLimit);
        if refusal.Some?
        then !admitted && Items() == items && settled == old(settled) + [Fail(request.call, refusal.value, None)]
        else admitted && settled == old(settled)
             && Items() == items + [Retained(target, request, bytes, Establish(request, now).value)]
    {
      hide WaitQueue.Valid, WaitQueue.View, Sum;
      var deadline := Establish(request, now);
      if deadline.None? {
        settled := settled + [Fail(request.call, DeadlineOverflow, None)];
        return false;
      }
      if deadline.value <= now {
        settled := settled + [Fail(request.call, EXPIRED, None)];
        return false;
      }
      var bytes := SaturatingAdd(request.bytes, targetBytes);
      var total := CheckedAdd(retainedBytes, bytes);
      if total.None? || calls.Len() == callLimit || total.value > byteLimit {
        settled := settled + [Fail(request.call, RouteCapacityReached(callLimit, byteLimit), None)];
        return false;
      }
      var entry := Retained(target, request, bytes, deadline.value);
      SumConcat(Charge<K>, calls.View().items, [entry]);
      SumOne(Charge<K>, entry);
      admitted := calls.Push(entry.value, entry.deadline);
      retainedBytes := total.value;
    }

    /**
     * Undoes an admission. A scan that covers the newest call would then cover more than is queued; a call
     * just admitted is never covered.
     */
    method RetractLast(call: CallId) returns (retracted: Option<Request>)
      requires Valid()
      modifies this, calls
      ensures Tallied() && scanRemaining == old(scanRemaining) && settled == old(settled)
      ensures Valid() <==> scanRemaining <= |Items()|
      ensures var items := old(Items());
        if items == [] || items[|items| - 1].value.request.call != call
        then retracted == None && Items() == items
        else retracted == Some(items[|items| - 1].value.request) && Items() == items[..|items| - 1]
    {
      hide WaitQueue.Valid, WaitQueue.View, Sum;
      ghost var items := Items();
      var last := calls.Back();
      if last.None? || last.value.request.call != call {
        return None;
      }
      SumWithout(Charge<K>, items, |items| - 1);
      var taken := calls.PopBack();
      retainedBytes := retainedBytes - taken.value.value.bytes;
      retracted := Some(taken.value.value.request);
    }

    method BeginScan()
      requires Valid()
      modifies this`scanRemaining
      ensures Valid() && scanRemaining == |Items()|
    {
      scanRemaining := calls.Len();
    }

    /** Settles the earliest due call, if any. */
    method ExpireOne(now: Moment) returns (taken: Option<WaitEntry<Waiting<K>>>)
      requires Valid() && scanRemaining == 0
      modifies this, calls
      ensures Valid() && scanRemaining == 0
      ensures var r := TakeDue(old(calls.View()), now); calls.View() == r.0 && taken == r.1
      ensures settled == old(settled) + if taken.Some? then FailedWith(CallOf<K>, [taken.value], EXPIRED, None) else []
    {
      hide WaitQueue.Valid, WaitQueue.View, Sum, Earliest;
      ghost var here := calls.View();
      taken := calls.TakeDue(now);
      if taken.Some? {
        SumWithout(Charge<K>, here.items, Earliest(here.items));
        retainedBytes := retainedBytes - taken.value.value.bytes;
        settled := settled + [Fail(taken.value.value.request.call, EXPIRED, None)];
      }
    }

    /** Examines the front call: settles it, hands it out routed, or requeues it at the back. */
    method ExamineFront(stands: K -> Standing, now: Moment) returns (routed: seq<RoutedCall<K>>)
      requires Valid() && scanRemaining > 0
      modifies this, calls
      ensures Valid() && scanRemaining == old(scanRemaining) - 1
      ensures var items := old(Items());
        && Items() == items[1..] + (if Judge(items[0], stands, now).Held? then [items[0]] else [])
        && settled == old(settled) + EndOf(items[0], stands, now)
        && routed == DepartureOf(items[0], stands, now)
    {
      hide WaitQueue.Valid, WaitQueue.View, Sum;
      ghost var items := Items();
      SumWithout(Charge<K>, items, 0);
      var front := calls.PopFront();
      var entry := front.value;
      scanRemaining := scanRemaining - 1;
      retainedBytes := retainedBytes - entry.value.bytes;
      routed := [];
      if entry.deadline <= now {
        settled := settled + [Fail(entry.value.request.call, EXPIRED, None)];
        return;
      }
      match stands(entry.value.target)
      case Known(route) =>
        routed := [RoutedCall(route, entry.value.target, entry.value.request)];
      case Gone =>
        settled := settled + [Fail(entry.value.request.call, RouteUnavailable, None)];
      case Pending =>
        SumConcat(Charge<K>, calls.View().items, [entry]);
        SumOne(Charge<K>, entry);
        var rotated := calls.RotateBack(entry.value, entry.deadline);
        // Popping made room, so the source's capacity refusal here is dead.
        assert rotated;
        retainedBytes := retainedBytes + entry.value.bytes;
    }

    /** Expires due calls between scans; during one it leaves everything to the scan. */
    method ExpireDue(now: Moment, budget: nat) returns (count: nat)
      requires Valid()
      modifies this, calls
      ensures Valid() && scanRemaining == old(scanRemaining)
      ensures scanRemaining != 0 ==> count == 0 && calls.View() == old(calls.View()) && settled == old(settled)
      ensures scanRemaining == 0 ==>
        var (rest, taken) := Expire(old(calls.View()), now, budget);
        calls.View() == rest && count == |taken| && settled == old(settled) + FailedWith(CallOf<K>, taken, EXPIRED, None)
    {
      hide WaitQueue.Valid, WaitQueue.View, Earliest, FailedWith, Sum, DropAt, Without;
      if scanRemaining != 0 {
        return 0;
      }
      ghost var q := calls.View();
      ghost var taken: seq<WaitEntry<Waiting<K>>> := [];
      count := 0;
      NothingYet(q, now, budget);
      while count < budget
        invariant Valid() && scanRemaining == 0 && count == |taken| <= budget
        invariant Expire(q, now, budget).0 == Expire(calls.View(), now, budget - count).0
        invariant Expire(q, now, budget).1 == taken + Expire(calls.View(), now, budget - count).1
        invariant settled == old(settled) + FailedWith(CallOf<K>, taken, EXPIRED, None)
      {
        var due := ExpireOne(now);
        if due.None? {
          break;
        }
        FailedWithSnoc(CallOf<K>, taken, due.value, EXPIRED, None);
        Regroup(taken, due.value, Expire(calls.View(), now, budget - count - 1).1);
        taken := taken + [due.value];
        count := count + 1;
      }
      assert Expire(calls.View(), now, budget - count) == (calls.View(), []);
      assert taken + [] == taken;
    }

    /** One examination turn over the calls the scan has not reached. */
    method ExamineTurn(stands: K -> Standing, now: Moment, n: nat) returns (routed: seq<RoutedCall<K>>)
      requires Valid() && n <= scanRemaining
      modifies this, calls
      ensures Valid() && scanRemaining == old(scanRemaining) - n
      ensures var items := old(Items());
        && Items() == Turned(items, n, stands, now)
        && settled == old(settled) + ScanSpec.Ended(items[..n], stands, now)
        && routed == Departed(items[..n], stands, now)
    {
      hide WaitQueue.Valid, WaitQueue.View, Sum, Keep, ScanSpec.Ended, Departed, EndOf, DepartureOf, Judge;
      ghost var items := Items();
      routed := [];
      var i := 0;
      TurnBegins(items, stands, now);
      while i < n
        invariant Valid() && i <= n && scanRemaining == old(scanRemaining) - i
        invariant Items() == Turned(items, i, stands, now)
        invariant settled == old(settled) + ScanSpec.Ended(items[..i], stands, now)
        invariant routed == Departed(items[..i], stands, now)
      {
        ghost var here := Items();
        TurnStep(items, i, stands, now);
        assert here[0] == items[i];
        var gone := ExamineFront(stands, now);
        routed := routed + gone;
        i := i + 1;
      }
    }

    method RefreshDue(now: Moment)
      requires Valid()
      modifies this`duePending
      ensures Valid() && calls.View() == old(calls.View())
      ensures duePending <==> exists i :: 0 <= i < |Items()| && Items()[i].deadline <= now
    {
      hide WaitQueue.Valid, WaitQueue.View, Sum;
      ghost var q := calls.View();
      var next := calls.NextDeadline();
      duePending := next.Some? && next.value <= now;
      NextDeadlineTells(q, now);
      assert Items() == q.items;
    }

    /**
     * A turn either continues the scan or, once it is over, expires due calls; never both.
     * `moreWork` tells whether the scan is unfinished or a call is still due.
     */
    method Scan(stands: K -> Standing, now: Moment, budget: nat)
      returns (routed: seq<RoutedCall<K>>, examined: nat, moreWork: bool)
      requires Valid() && budget > 0
      modifies this, calls
      ensures Valid()
      ensures old(scanRemaining) == 0 ==>
        var (rest, taken) := Expire(old(calls.View()), now, budget);
        && calls.View() == rest && examined == |taken| && routed == [] && scanRemaining == 0
        && settled == old(settled) + FailedWith(CallOf<K>, taken, EXPIRED, None)
      ensures old(scanRemaining) != 0 ==>
        var items, n := old(Items()), Least(old(scanRemaining), budget);
        && examined == n && scanRemaining == old(scanRemaining) - n
        && Items() == Turned(items, n, stands, now)
        && settled == old(settled) + ScanSpec.Ended(items[..n], stands, now)
        && routed == Departed(items[..n], stands, now)
      ensures duePending <==> exists i :: 0 <= i < |Items()| && Items()[i].deadline <= now
      ensures moreWork <==> scanRemaining != 0 || duePending
    {
      hide WaitQueue.Valid, WaitQueue.View, Sum, Keep, ScanSpec.Ended, Departed, FailedWith, Turned, Expire;
      if scanRemaining == 0 {
        examined := ExpireDue(now, budget);
        routed := [];
      } else {
        examined := Least(scanRemaining, budget);
        routed := ExamineTurn(stands, now, examined);
      }
      RefreshDue(now);
      moreWork := scanRemaining != 0 || duePending;
    }

    /**
     * Admission joined to its metadata query. Exhausted operation ids are an error before anything happens; a
     * query refused for capacity gives the call back and completes it; a query that cannot be interpreted is an
     * error that leaves the call queued.
     */
    method WaitFor(target: K, targetBytes: nat, request: Request, now: Moment, query: QueryAnswer) returns (ok: bool)
      requires Valid()
      modifies this, calls
      ensures Valid() && scanRemaining == old(scanRemaining)
      ensures query.Exhausted? ==> !ok && Items() == old(Items()) && settled == old(settled)
      ensures !query.Exhausted? ==>
        var items, bytes := old(Items()), SaturatingAdd(request.bytes, targetBytes);
        var refusal := Refusal(request, bytes, now, |items|, old(retainedBytes), callLimit, byteLimit);
        if refusal.Some?
        then ok && Items() == items && settled == old(settled) + [Fail(request.call, refusal.value, None)]
        else if query.CapacityRefused?
        then ok && Items() == items && settled == old(settled) + [Fail(request.call, MetadataQueryCapacityReached, None)]
        else
          && (ok <==> query.Interpreted?) && settled == old(settled)
          && Items() == items + [Retained(target, request, bytes, Establish(request, now).value)]
    {
      hide WaitQueue.Valid, WaitQueue.View, Sum;
      if query.Exhausted? {
        return false;
      }
      ok := true;
      ghost var items := Items();
      var admitted := Admit(target, targetBytes, request, now);
      if admitted && query.CapacityRefused? {
        var back := RetractLast(request.call);
        assert Items() == items;
        settled := settled + [Fail(back.value.call, MetadataQueryCapacityReached, None)];
      } else if admitted {
        ok := query.Interpreted?;
      }
    }

    // `CoordinatorWaiters` of src/reactor/coordinator/waiting.rs keeps the same fields and takes the
    // same turn in two halves, so that its owner can look up the discovery in between.

    method PopForScan(now: Moment) returns (popped: Popped<K>)
      requires Valid()
      modifies this, calls
      ensures Valid()
      ensures old(scanRemaining) == 0 ==>
        popped == Empty && Items() == old(Items()) && settled == old(settled) && scanRemaining == 0
      ensures old(scanRemaining) != 0 ==>
        var items := old(Items());
        && scanRemaining == old(scanRemaining) - 1 && Items() == items[1..]
        && retainedBytes == old(retainedBytes) - Charge(items[0])
        && (if items[0].deadline <= now
            then popped == Ended && settled == old(settled) + [Fail(items[0].value.request.call, EXPIRED, None)]
            else popped == Ready(items[0]) && settled == old(settled))
    {
      hide WaitQueue.Valid, WaitQueue.View, Sum;
      if scanRemaining == 0 {
        return Empty;
      }
      ghost var items := Items();
      SumWithout(Charge<K>, items, 0);
      scanRemaining := scanRemaining - 1;
      var front := calls.PopFront();
      var entry := front.value;
      retainedBytes := retainedBytes - entry.value.bytes;
      if entry.deadline <= now {
        settled := settled + [Fail(entry.value.request.call, EXPIRED, None)];
        return Ended;
      }
      return Ready(entry);
    }

    /** Refused exactly at capacity; the byte limit is not tested again. */
    method Retain(entry: WaitEntry<Waiting<K>>) returns (retained: bool)
      requires Valid()
      modifies this, calls
      ensures Tallied() && scanRemaining == old(scanRemaining)
      ensures retainedBytes == old(retainedBytes) + (if retained then Charge(entry) else 0)
      ensures Valid() <==> retainedBytes <= byteLimit && (retained ==> Kept(entry))
      ensures retained <==> |old(Items())| < callLimit
      ensures retained ==> Items() == old(Items()) + [entry] && settled == old(settled)
      ensures !retained ==>
        && Items() == old(Items())
        && settled == old(settled) + [Fail(entry.value.request.call, RouteCapacityReached(callLimit, byteLimit), None)]
    {
      hide WaitQueue.Valid, WaitQueue.View, Sum;
      KeptMore(calls.View().items, entry);
      SumConcat(Charge<K>, calls.View().items, [entry]);
      SumOne(Charge<K>, entry);
      retained := calls.RotateBack(entry.value, entry.deadline);
      if !retained {
        settled := settled + [Fail(entry.value.request.call, RouteCapacityReached(callLimit, byteLimit), None)];
        return;
      }
      retainedBytes := retainedBytes + entry.value.bytes;
    }

    method DrainFront(stands: K -> Standing, now: Moment) returns (routed: seq<RoutedCall<K>>)
      requires Valid() && scanRemaining > 0
      modifies this, calls
      ensures Valid() && scanRemaining == old(scanRemaining) - 1
      ensures var items := old(Items());
        && Items() == items[1..] + (if Judge(items[0], stands, now).Held? then [items[0]] else [])
        && settled == old(settled) + EndOf(items[0], stands, now)
        && routed == DepartureOf(items[0], stands, now)
    {
      hide WaitQueue.Valid, WaitQueue.View, Sum;
      var popped := PopForScan(now);
      routed := [];
      if popped.Ready? {
        var entry := popped.entry;
        match stands(entry.value.target)
        case Known(route) => routed := [RoutedCall(route, entry.value.target, entry.value.request)];
        case Pending => var kept := Retain(entry);
        case Gone => settled := settled + [Fail(entry.value.request.call, RouteUnavailable, None)];
      }
    }

    method DrainTurn(stands: K -> Standing, now: Moment, budget: nat)
      returns (routed: seq<RoutedCall<K>>, examined: nat)
      requires Valid()
      modifies this, calls
      ensures Valid()
      ensures var items, n := old(Items()), Least(old(scanRemaining), budget);
        && examined == n && scanRemaining == old(scanRemaining) - n
        && Items() == Turned(items, n, stands, now)
        && settled == old(settled) + ScanSpec.Ended(items[..n], stands, now)
        && routed == Departed(items[..n], stands, now)
    {
      hide WaitQueue.Valid, WaitQueue.View, Sum, Keep, ScanSpec.Ended, Departed, EndOf, DepartureOf, Judge;
      examined, routed := 0, [];
      ghost var items, r := Items(), scanRemaining;
      TurnBegins(items, stands, now);
      while examined < budget && scanRemaining != 0
        invariant Valid() && examined <= budget && examined <= r && scanRemaining == r - examined
        invariant Items() == Turned(items, examined, stands, now)
        invariant settled == old(settled) + ScanSpec.Ended(items[..examined], stands, now)
        invariant routed == Departed(items[..examined], stands, now)
      {
        TurnStep(items, examined, stands, now);
        var gone := DrainFront(stands, now);
        routed := routed + gone;
        examined := examined + 1;
      }
    }

    /** `drain_waiters` of src/reactor/coordinator/routing.rs: the same turn as `Scan`. */
    method DrainWaiters(stands: K -> Standing, now: Moment, budget: nat)
      returns (routed: seq<RoutedCall<K>>, examined: nat, moreWork: bool)
      requires Valid() && budget > 0
      modifies this, calls
      ensures Valid()
      ensures old(scanRemaining) == 0 ==>
        var (rest, taken) := Expire(old(calls.View()), now, budget);
        && calls.View() == rest && examined == |taken| && routed == [] && scanRemaining == 0
        && settled == old(settled) + FailedWith(CallOf<K>, taken, EXPIRED, None)
      ensures old(scanRemaining) != 0 ==>
        var items, n := old(Items()), Least(old(scanRemaining), budget);
        && examined == n && scanRemaining == old(scanRemaining) - n
        && Items() == Turned(items, n, stands, now)
        && settled == old(settled) + ScanSpec.Ended(items[..n], stands, now)
        && routed == Departed(items[..n], stands, now)
      ensures duePending <==> exists i :: 0 <= i < |Items()| && Items()[i].deadline <= now
      ensures moreWork <==> scanRemaining != 0 || duePending
    {
      hide WaitQueue.Valid, WaitQueue.View, Sum, Keep, ScanSpec.Ended, Departed, FailedWith, Turned, Expire;
      if scanRemaining == 0 {
        examined := ExpireDue(now, budget);
        routed := [];
      } else {
        routed, examined := DrainTurn(stands, now, budget);
      }
      RefreshDue(now);
      moreWork := scanRemaining != 0 || duePending;
    }

    method FailAll(error: RequestError)
      requires Valid()
      modifies this, calls
      ensures Valid() && Items() == [] && scanRemaining == 0 && !duePending
      ensures settled == old(settled) + FailedWith(CallOf<K>, old(Items()), error, None)
    {
      hide WaitQueue.Valid, WaitQueue.View;
      ghost var items := Items();
      var values := calls.Drain();
      settled := settled + seq(|values|, i requires 0 <= i < |values| => Fail(values[i].request.call, error, None));
      retainedBytes, scanRemaining, duePending := 0, 0, false;
    }
  }

  lemma NothingYet<K>(q: Fifo<Waiting<K>>, now: Moment, n: nat)
    ensures FailedWith(CallOf<K>, [], EXPIRED, None) == [] && [] + Expire(q, now, n).1 == Expire(q, now, n).1
  {
  }

  lemma TurnBegins<K>(items: seq<WaitEntry<Waiting<K>>>, stands: K -> Standing, now: Moment)
    ensures Turned(items, 0, stands, now) == items
    ensures ScanSpec.Ended(items[..0], stands, now) == [] && Departed(items[..0], stands, now) == []
  {
  }

  lemma TurnStep<K>(items: seq<WaitEntry<Waiting<K>>>, i: nat, stands: K -> Standing, now: Moment)
    requires i < |items|
    ensures var here := Turned(items, i, stands, now);
      && here != [] && here[0] == items[i]
      && Turned(items, i + 1, stands, now) == here[1..] + (if Judge(items[i], stands, now).Held? then [items[i]] else [])
    ensures ScanSpec.Ended(items[..i + 1], stands, now) == ScanSpec.Ended(items[..i], stands, now) + EndOf(items[i], stands, now)
    ensures Departed(items[..i + 1], stands, now) == Departed(items[..i], stands, now) + DepartureOf(items[i], stands, now)
  {
    hide Keep, ScanSpec.Ended, Departed, Judge;
    assert items[..i + 1] == items[..i] + [items[i]];
    KeepTake(HeldAt(stands, now), items, i);
    EndedSnoc(items[..i], items[i], stands, now);
    DepartedSnoc(items[..i], items[i], stands, now);
    var here := Turned(items, i, stands, now);
    assert here[1..] == items[i + 1..] + Keep(HeldAt(stands, now), items[..i]);
  }
}
