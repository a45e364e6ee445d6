/** Whole scans of the waiters, with calls admitted between the turns. */
module WaiterRuns {
  import opened Common
  import opened WaitQueueSpec
  import opened WaitQueues
  import opened Requests
  import opened ScanSpec
  import opened TargetWaiting

  datatype ScanOp<!K> =
    | TurnOp(stands: K -> Standing, now: Moment)
    | AdmitOp(target: K, targetBytes: nat, request: Request, now: Moment)
    | WaitOp(target: K, targetBytes: nat, request: Request, now: Moment, query: QueryAnswer)

  function Originals<K>(items: seq<WaitEntry<Waiting<K>>>): (r: seq<Marked<K>>)
    ensures |r| == |items| && Entries(r) == items && forall i :: 0 <= i < |r| ==> r[i].original
  {
    seq(|items|, i requires 0 <= i < |items| => Marked(true, items[i]))
  }

  /** The waiters stand where the pure scan stands. */
  ghost predicate Mirrors<K>(w: TargetWaiters<K>, p: Progress<K>)
    requires w.Valid()
    reads w, w.calls
  {
    w.Items() == Entries(p.items) && w.scanRemaining == p.remaining
  }

  function TurnsIn<K>(script: seq<ScanOp<K>>): nat {
    if script == [] then 0 else TurnsIn(script[..|script| - 1]) + if script[|script| - 1].TurnOp? then 1 else 0
  }

  /** The call an operation hands to the waiters. */
  function OfferOf<K>(op: ScanOp<K>): seq<CallId> {
    if op.TurnOp? || (op.WaitOp? && op.query.Exhausted?) then [] else [op.request.call]
  }

  function Offered<K>(script: seq<ScanOp<K>>): seq<CallId> {
    if script == [] then [] else Offered(script[..|script| - 1]) + OfferOf(script[|script| - 1])
  }

  /** The event of the pure scan that an operation amounts to, unless it is a refused admission. */
  ghost function EventOf<K>(op: ScanOp<K>): Event<K> {
    if op.TurnOp? then Turn(op.stands, op.now)
    else
      var deadline := Establish(op.request, op.now);
      Event.Admit(Retained(op.target, op.request, SaturatingAdd(op.request.bytes, op.targetBytes),
                           if deadline.Some? then deadline.value else 0))
  }

  /** The events are those of the script, in order, with some admissions refused. */
  ghost predicate Follows<K>(script: seq<ScanOp<K>>, events: seq<Event<K>>) {
    if script == [] then events == []
    else
      var op, before := script[|script| - 1], script[..|script| - 1];
      || (!op.TurnOp? && Follows(before, events))
      || (events != [] && events[|events| - 1] == EventOf(op) && Follows(before, events[..|events| - 1]))
  }

  /** Every call that was waiting or was offered is waiting, was routed on or was completed, and only once. */
  ghost predicate Conserves<K>(before: seq<WaitEntry<Waiting<K>>>, offered: seq<CallId>, now: seq<WaitEntry<Waiting<K>>>,
                               routed: seq<RoutedCall<K>>, completed: seq<Settlement>)
  {
    multiset(WaitingCalls(before)) + multiset(offered) ==
      multiset(WaitingCalls(now)) + multiset(RoutedCalls(routed)) + multiset(Calls(completed))
  }

  lemma ConservesOn<K>(first: seq<WaitEntry<Waiting<K>>>, o1: seq<CallId>, mid: seq<WaitEntry<Waiting<K>>>,
                       r1: seq<RoutedCall<K>>, c1: seq<Settlement>, o2: seq<CallId>, last: seq<WaitEntry<Waiting<K>>>,
                       r2: seq<RoutedCall<K>>, c2: seq<Settlement>)
    requires Conserves(first, o1, mid, r1, c1) && Conserves(mid, o2, last, r2, c2)
    ensures Conserves(first, o1 + o2, last, r1 + r2, c1 + c2)
  {
    RoutedConcat(r1, r2);
    CallsConcat(c1, c2);
    assert multiset(o1 + o2) == multiset(o1) + multiset(o2);
    SumOn(multiset(WaitingCalls(first)), multiset(o1), multiset(WaitingCalls(mid)), multiset(RoutedCalls(r1)),
          multiset(Calls(c1)), multiset(o2), multiset(WaitingCalls(last)), multiset(RoutedCalls(r2)), multiset(Calls(c2)));
  }

  lemma SumOn<A>(a: multiset<A>, o1: multiset<A>, m: multiset<A>, r1: multiset<A>, c1: multiset<A>,
                 o2: multiset<A>, l: multiset<A>, r2: multiset<A>, c2: multiset<A>)
    requires a + o1 == m + r1 + c1 && m + o2 == l + r2 + c2
    ensures a + (o1 + o2) == l + (r1 + r2) + (c1 + c2)
  {
    assert a + (o1 + o2) == (a + o1) + o2;
    assert (m + r1 + c1) + o2 == (m + o2) + r1 + c1;
    assert (l + r2 + c2) + r1 + c1 == l + (r1 + r2) + (c1 + c2);
  }

  lemma NothingMoves<K>(items: seq<WaitEntry<Waiting<K>>>)
    ensures Conserves(items, [], items, [], [])
  {
  }

  lemma RefusedMoves<K>(items: seq<WaitEntry<Waiting<K>>>, s: Settlement)
    ensures Conserves(items, [s.call], items, [], [s])
  {
    assert Calls([s]) == [s.call];
  }

  lemma AdmittedMoves<K>(items: seq<WaitEntry<Waiting<K>>>, e: WaitEntry<Waiting<K>>)
    ensures Conserves(items, [e.value.request.call], items + [e], [], [])
  {
    WaitingConcat(items, [e]);
    assert WaitingCalls([e]) == [e.value.request.call];
  }

  /** One operation while a scan is running, against one event of the pure scan; a refused admission is none. */
  method Perform<K>(w: TargetWaiters<K>, budget: nat, op: ScanOp<K>, ghost p: Progress<K>)
    returns (routed: seq<RoutedCall<K>>, ghost event: Option<Event<K>>, ghost ended: seq<Settlement>,
             ghost refused: seq<Settlement>)
    requires w.Valid() && w.scanRemaining > 0 && budget > 0 && p.remaining <= |p.items| && Mirrors(w, p)
    modifies w, w.calls
    ensures w.Valid() && (event.Some? ==> event.value == EventOf(op)) && (op.TurnOp? ==> event.Some?)
    ensures event.None? ==> Mirrors(w, p) && routed == []
    ensures event.Some? ==>
      var q := Advance(p, budget, event.value);
      Mirrors(w, q) && q.departed == p.departed + routed && q.ended == p.ended + ended
    ensures if op.TurnOp? then refused == [] else ended == []
    ensures w.settled == old(w.settled) + (ended + refused)
    ensures Calls(refused) == if event.Some? then [] else OfferOf(op)
    ensures Conserves(old(w.Items()), OfferOf(op), w.Items(), routed, ended + refused)
  {
    hide WaitQueue.Valid, WaitQueue.View, TargetWaiters.Tallied, Conserves, ScanSpec.Ended, Departed, Advance, Turned;
    ended, refused, routed := [], [], [];
    ghost var items, before := w.Items(), w.settled;
    NothingMoves(items);
    if op.TurnOp? {
      event := Some(Turn(op.stands, op.now));
      routed, ended := PerformTurn(w, budget, op.stands, op.now, p);
      assert ended + [] == ended;
    } else {
      event, refused := PerformOffer(w, op, p, budget);
      assert [] + refused == refused;
    }
  }

  method PerformTurn<K>(w: TargetWaiters<K>, budget: nat, stands: K -> Standing, now: Moment, ghost p: Progress<K>)
    returns (routed: seq<RoutedCall<K>>, ghost ended: seq<Settlement>)
    requires w.Valid() && w.scanRemaining > 0 && budget > 0 && p.remaining <= |p.items| && Mirrors(w, p)
    modifies w, w.calls
    ensures w.Valid() && w.settled == old(w.settled) + ended
    ensures var q := Advance(p, budget, Turn(stands, now));
      Mirrors(w, q) && q.departed == p.departed + routed && q.ended == p.ended + ended
    ensures Conserves(old(w.Items()), [], w.Items(), routed, ended)
  {
    hide WaitQueue.Valid, WaitQueue.View, TargetWaiters.Tallied, ScanSpec.Ended, Departed;
    MarkedTurnIsTurn(p, budget, stands, now);
    TurnConserves(w.Items(), Least(w.scanRemaining, budget), stands, now);
    ended := ScanSpec.Ended(w.Items()[..Least(w.scanRemaining, budget)], stands, now);
    var examined, more;
    routed, examined, more := w.Scan(stands, now, budget);
  }

  method PerformOffer<K>(w: TargetWaiters<K>, op: ScanOp<K>, ghost p: Progress<K>, ghost budget: nat)
    returns (ghost event: Option<Event<K>>, ghost refused: seq<Settlement>)
    requires w.Valid() && !op.TurnOp? && p.remaining <= |p.items| && Mirrors(w, p)
    modifies w, w.calls
    ensures w.Valid() && (event.Some? ==> event.value == EventOf(op)) && w.settled == old(w.settled) + refused
    ensures event.None? ==> Mirrors(w, p)
    ensures event.Some? ==>
      var q := Advance(p, budget, event.value);
      Mirrors(w, q) && q.departed == p.departed && q.ended == p.ended
    ensures Calls(refused) == if event.Some? then [] else OfferOf(op)
    ensures Conserves(old(w.Items()), OfferOf(op), w.Items(), [], refused)
  {
    hide WaitQueue.Valid, WaitQueue.View, TargetWaiters.Tallied, Conserves;
    ghost var items, before := w.Items(), w.settled;
    NothingMoves(items);
    if op.AdmitOp? {
      var admitted := w.Admit(op.target, op.targetBytes, op.request, op.now);
    } else {
      var ok := w.WaitFor(op.target, op.targetBytes, op.request, op.now, op.query);
    }
    event := if |w.Items()| != |items| then Some(EventOf(op)) else None;
    refused := w.settled[|before|..];
    if event.Some? {
      AdmittedMoves(items, w.Items()[|items|]);
    } else if OfferOf(op) != [] {
      RefusedMoves(items, refused[0]);
    }
  }

  /**
   * A scan of the waiters, begun over what is queued and taken in turns between admissions: as long as it runs,
   * queue, remaining count, completions and departures are those of the pure scan, so each original is examined
   * exactly once, in order, and the scan ends with the turn whose budgets add up to what it began with. Beside the
   * completions of the scan there are those of refused admissions, and no call is lost or repeated.
   */
  method Run<K>(w: TargetWaiters<K>, budget: nat, script: seq<ScanOp<K>>)
    returns (done: nat, routed: seq<RoutedCall<K>>, ghost events: seq<Event<K>>, ghost ended: seq<Settlement>,
             ghost refused: seq<Settlement>)
    requires w.Valid() && budget > 0
    modifies w, w.calls
    ensures w.Valid() && done <= |script| && Follows(script[..done], events)
    ensures var p := After(Originals(old(w.Items())), budget, events);
      Mirrors(w, p) && routed == p.departed && ended == p.ended
      && MidScan(Originals(old(w.Items())), budget, TurnsIn(script[..done]), p)
    ensures w.scanRemaining == 0 <==> TurnsIn(script[..done]) * budget >= |old(w.Items())|
    ensures done < |script| ==> w.scanRemaining == 0
    ensures old(w.settled) <= w.settled
    ensures multiset(w.settled[|old(w.settled)|..]) == multiset(ended) + multiset(refused)
    ensures Conserves(old(w.Items()), Offered(script[..done]), w.Items(), routed, w.settled[|old(w.settled)|..])
  {
    hide TargetWaiters.Tallied, MidScan, Mirrors, Advance, Originals, Conserves, Follows, Offered, WaitQueue.View;
    done, routed := 0, [];
    ghost var run := Trace([], [], []);
    ghost var original := StartScan(w);
    ghost var items, start := w.Items(), w.settled;
    NothingYet(script, items, start);
    while done < |script| && w.scanRemaining != 0
      invariant w.Valid() && done <= |script| && Stands(w, original, budget, script[..done], run, routed)
      invariant Accounts(w, items, start, script[..done], run, routed)
    {
      ghost var p, mid, settled := After(original, budget, run.events), w.Items(), w.settled;
      var gone;
      ghost var event, over, turned;
      gone, event, over, turned := Perform(w, budget, script[done], p);
      StandsOn(w, original, budget, script, done, run, routed, event, over, turned, gone);
      AccountsOn(w, items, start, script, done, run, routed, event, over, turned, gone, mid, settled);
      run := Extended(run, event, over, turned);
      routed, done := routed + gone, done + 1;
    }
    events, ended, refused := run.events, run.ended, run.refused;
    ScanCoversOriginals(original, budget, events);
    ScanEndsWithinBudget(original, budget, events);
    Standing(w, After(original, budget, events));
  }

  /** What a run has seen: the events of the pure scan, the completions of the scan and those of refusals. */
  datatype Trace<!K> = Trace(events: seq<Event<K>>, ended: seq<Settlement>, refused: seq<Settlement>)

  ghost function Extended<K>(t: Trace<K>, event: Option<Event<K>>, over: seq<Settlement>, turned: seq<Settlement>): Trace<K> {
    Trace(if event.Some? then t.events + [event.value] else t.events, t.ended + over, t.refused + turned)
  }

  /** The waiters stand where the pure scan stands after the events of the script. */
  ghost predicate Stands<K>(w: TargetWaiters<K>, original: seq<Marked<K>>, budget: nat, script: seq<ScanOp<K>>,
                            t: Trace<K>, routed: seq<RoutedCall<K>>)
    requires w.Valid()
    reads w, w.calls
  {
    var p := After(original, budget, t.events);
    && Follows(script, t.events) && Turns(t.events) == TurnsIn(script)
    && Mirrors(w, p) && routed == p.departed && t.ended == p.ended
  }

  /** The completions since `start` are those of the trace, and every call is accounted for. */
  ghost predicate Accounts<K>(w: TargetWaiters<K>, items: seq<WaitEntry<Waiting<K>>>, start: seq<Settlement>,
                              script: seq<ScanOp<K>>, t: Trace<K>, routed: seq<RoutedCall<K>>)
    requires w.Valid()
    reads w, w.calls
  {
    && start <= w.settled && multiset(w.settled[|start|..]) == multiset(t.ended) + multiset(t.refused)
    && Conserves(items, Offered(script), w.Items(), routed, w.settled[|start|..])
  }

  lemma StandsOn<K>(w: TargetWaiters<K>, original: seq<Marked<K>>, budget: nat, script: seq<ScanOp<K>>, done: nat,
                    t: Trace<K>, routed: seq<RoutedCall<K>>, event: Option<Event<K>>, over: seq<Settlement>,
                    turned: seq<Settlement>, gone: seq<RoutedCall<K>>)
    requires w.Valid() && done < |script| && Follows(script[..done], t.events) && Turns(t.events) == TurnsIn(script[..done])
    requires if event.Some? then event.value == EventOf(script[done]) else !script[done].TurnOp?
    requires var p := After(original, budget, t.events);
      && routed == p.departed && t.ended == p.ended
      && (event.None? ==> Mirrors(w, p) && gone == [] && over == [])
      && (event.Some? ==>
            var q := Advance(p, budget, event.value);
            Mirrors(w, q) && q.departed == p.departed + gone && q.ended == p.ended + over)
    ensures Stands(w, original, budget, script[..done + 1], Extended(t, event, over, turned), routed + gone)
  {
    hide TargetWaiters.Valid, Mirrors, Advance, Follows, Offered;
    FollowsOn(script, done, t.events, event);
    if event.Some? {
      assert (t.events + [event.value])[..|t.events|] == t.events;
    }
  }

  lemma AccountsOn<K>(w: TargetWaiters<K>, items: seq<WaitEntry<Waiting<K>>>, start: seq<Settlement>,
                      script: seq<ScanOp<K>>, done: nat, t: Trace<K>, routed: seq<RoutedCall<K>>, event: Option<Event<K>>,
                      over: seq<Settlement>, turned: seq<Settlement>, gone: seq<RoutedCall<K>>,
                      mid: seq<WaitEntry<Waiting<K>>>, settled: seq<Settlement>)
    requires w.Valid() && done < |script| && start <= settled && w.settled == settled + (over + turned)
    requires multiset(settled[|start|..]) == multiset(t.ended) + multiset(t.refused)
    requires Conserves(items, Offered(script[..done]), mid, routed, settled[|start|..])
    requires Conserves(mid, OfferOf(script[done]), w.Items(), gone, over + turned)
    ensures Accounts(w, items, start, script[..done + 1], Extended(t, event, over, turned), routed + gone)
  {
    hide TargetWaiters.Tallied, Conserves, OfferOf;
    LogsOn(start, settled, w.settled, over, turned, t.ended, t.refused);
    ConservesOn(items, Offered(script[..done]), mid, routed, settled[|start|..], OfferOf(script[done]), w.Items(), gone,
                over + turned);
    assert script[..done + 1][..done] == script[..done];
  }

  lemma NothingYet<K>(script: seq<ScanOp<K>>, items: seq<WaitEntry<Waiting<K>>>, settled: seq<Settlement>)
    ensures script[..0] == [] && Follows<K>([], []) && Offered<K>([]) == [] && settled[|settled|..] == []
    ensures Conserves(items, [], items, [], [])
  {
    NothingMoves(items);
  }

  lemma FollowsOn<K>(script: seq<ScanOp<K>>, done: nat, events: seq<Event<K>>, event: Option<Event<K>>)
    requires done < |script| && Follows(script[..done], events)
    requires if event.Some? then event.value == EventOf(script[done]) else !script[done].TurnOp?
    ensures Follows(script[..done + 1], if event.Some? then events + [event.value] else events)
    ensures Offered(script[..done + 1]) == Offered(script[..done]) + OfferOf(script[done])
    ensures TurnsIn(script[..done + 1]) == TurnsIn(script[..done]) + if script[done].TurnOp? then 1 else 0
  {
    var more := script[..done + 1];
    assert more[..done] == script[..done] && more[done] == script[done];
    if event.Some? {
      assert (events + [event.value])[..|events|] == events;
    }
  }

  lemma LogsOn(start: seq<Settlement>, before: seq<Settlement>, after: seq<Settlement>, over: seq<Settlement>,
               turned: seq<Settlement>, ended: seq<Settlement>, refused: seq<Settlement>)
    requires start <= before && after == before + (over + turned)
    requires multiset(before[|start|..]) == multiset(ended) + multiset(refused)
    ensures start <= after && after[|start|..] == before[|start|..] + (over + turned)
    ensures multiset(after[|start|..]) == multiset(ended + over) + multiset(refused + turned)
  {
  }

  method StartScan<K>(w: TargetWaiters<K>) returns (ghost original: seq<Marked<K>>)
    requires w.Valid()
    modifies w`scanRemaining
    ensures w.Valid() && original == Originals(old(w.Items())) && |original| == |old(w.Items())|
    ensures w.Items() == old(w.Items())
    ensures Mirrors(w, Begin(original)) && forall i :: 0 <= i < |original| ==> original[i].original
  {
    hide WaitQueue.Valid, WaitQueue.View;
    original := Originals(w.Items());
    w.BeginScan();
  }

  lemma Standing<K>(w: TargetWaiters<K>, p: Progress<K>)
    requires w.Valid() && Mirrors(w, p)
    ensures w.scanRemaining == p.remaining
  {
  }
}
