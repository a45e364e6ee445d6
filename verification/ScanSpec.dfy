/** Bounded round-robin examination of waiting calls, on plain lists. */
module ScanSpec {
  import opened Common
  import opened WaitQueueSpec
  import opened Requests
  import opened Filters

  datatype Waiting<+K> = Waiting(target: K, request: Request, bytes: nat)

  /** What the owner's current facts say about a target. */
  datatype Standing = Known(route: nat) | Pending | Gone

  datatype Judgement = Expired | Routed(route: nat) | Held | Unavailable

  datatype RoutedCall<+K> = RoutedCall(route: nat, target: K, request: Request)

  function Judge<K>(e: WaitEntry<Waiting<K>>, stands: K -> Standing, now: Moment): Judgement {
    if e.deadline <= now then Expired
    else match stands(e.value.target)
      case Known(route) => Judgement.Routed(route)
      case Pending => Held
      case Gone => Unavailable
  }

  function HeldAt<K>(stands: K -> Standing, now: Moment): WaitEntry<Waiting<K>> -> bool {
    (e: WaitEntry<Waiting<K>>) => Judge(e, stands, now).Held?
  }

  function Charge<K>(e: WaitEntry<Waiting<K>>): nat { e.value.bytes }

  /** Completions owed to the calls of `items` that cannot be routed or kept, in order. */
  function Ended<K>(items: seq<WaitEntry<Waiting<K>>>, stands: K -> Standing, now: Moment): seq<Settlement> {
    if items == [] then []
    else EndOf(items[0], stands, now) + Ended(items[1..], stands, now)
  }

  function EndOf<K>(e: WaitEntry<Waiting<K>>, stands: K -> Standing, now: Moment): seq<Settlement> {
    match Judge(e, stands, now)
    case Expired => [Fail(e.value.request.call, EXPIRED, None)]
    case Unavailable => [Fail(e.value.request.call, RouteUnavailable, None)]
    case _ => []
  }

  function Departed<K>(items: seq<WaitEntry<Waiting<K>>>, stands: K -> Standing, now: Moment): seq<RoutedCall<K>> {
    if items == [] then []
    else DepartureOf(items[0], stands, now) + Departed(items[1..], stands, now)
  }

  function DepartureOf<K>(e: WaitEntry<Waiting<K>>, stands: K -> Standing, now: Moment): seq<RoutedCall<K>> {
    match Judge(e, stands, now)
    case Routed(route) => [RoutedCall(route, e.value.target, e.value.request)]
    case _ => []
  }

  lemma {:induction false} EndedSnoc<K>(items: seq<WaitEntry<Waiting<K>>>, e: WaitEntry<Waiting<K>>,
                                        stands: K -> Standing, now: Moment)
    ensures Ended(items + [e], stands, now) == Ended(items, stands, now) + EndOf(e, stands, now)
  {
    if items == [] {
      assert items + [e] == [e];
    } else {
      assert (items + [e])[1..] == items[1..] + [e];
      EndedSnoc(items[1..], e, stands, now);
    }
  }

  lemma {:induction false} DepartedSnoc<K>(items: seq<WaitEntry<Waiting<K>>>, e: WaitEntry<Waiting<K>>,
                                           stands: K -> Standing, now: Moment)
    ensures Departed(items + [e], stands, now) == Departed(items, stands, now) + DepartureOf(e, stands, now)
  {
    if items == [] {
      assert items + [e] == [e];
    } else {
      assert (items + [e])[1..] == items[1..] + [e];
      DepartedSnoc(items[1..], e, stands, now);
    }
  }

  function WaitingCalls<K>(items: seq<WaitEntry<Waiting<K>>>): (r: seq<CallId>)
    ensures |r| == |items| && forall i :: 0 <= i < |items| ==> r[i] == items[i].value.request.call
  {
    seq(|items|, i requires 0 <= i < |items| => items[i].value.request.call)
  }

  function RoutedCalls<K>(routed: seq<RoutedCall<K>>): (r: seq<CallId>)
    ensures |r| == |routed| && forall i :: 0 <= i < |routed| ==> r[i] == routed[i].request.call
  {
    seq(|routed|, i requires 0 <= i < |routed| => routed[i].request.call)
  }

  /** Where the calls of `items` went: settled, routed on or kept. */
  function Fates<K>(items: seq<WaitEntry<Waiting<K>>>, stands: K -> Standing, now: Moment): multiset<CallId> {
    multiset(Calls(Ended(items, stands, now))) + multiset(RoutedCalls(Departed(items, stands, now)))
      + multiset(WaitingCalls(Keep(HeldAt(stands, now), items)))
  }

  lemma OneFate<K>(e: WaitEntry<Waiting<K>>, stands: K -> Standing, now: Moment)
    ensures multiset(Calls(EndOf(e, stands, now))) + multiset(RoutedCalls(DepartureOf(e, stands, now)))
          + multiset(WaitingCalls(if Judge(e, stands, now).Held? then [e] else []))
         == multiset{e.value.request.call}
  {
    var call := e.value.request.call;
    match Judge(e, stands, now)
    case Held => assert WaitingCalls([e]) == [call];
    case Routed(route) => assert RoutedCalls(DepartureOf(e, stands, now)) == [call];
    case _ => assert Calls(EndOf(e, stands, now)) == [call];
  }

  lemma FirstFate<K>(items: seq<WaitEntry<Waiting<K>>>, stands: K -> Standing, now: Moment)
    requires items != []
    ensures Fates(items, stands, now) == multiset{items[0].value.request.call} + Fates(items[1..], stands, now)
  {
    hide Judge, EndOf, DepartureOf, Calls, RoutedCalls, WaitingCalls;
    var e, rest := items[0], items[1..];
    var kept := if Judge(e, stands, now).Held? then [e] else [];
    OneFate(e, stands, now);
    CallsConcat(EndOf(e, stands, now), Ended(rest, stands, now));
    RoutedConcat(DepartureOf(e, stands, now), Departed(rest, stands, now));
    WaitingConcat(kept, Keep(HeldAt(stands, now), rest));
    SumThree(
      multiset(Calls(EndOf(e, stands, now))), multiset(Calls(Ended(rest, stands, now))),
      multiset(RoutedCalls(DepartureOf(e, stands, now))), multiset(RoutedCalls(Departed(rest, stands, now))),
      multiset(WaitingCalls(kept)), multiset(WaitingCalls(Keep(HeldAt(stands, now), rest))));
  }

  lemma CallsConcat(a: seq<Settlement>, b: seq<Settlement>)
    ensures multiset(Calls(a + b)) == multiset(Calls(a)) + multiset(Calls(b))
  {
    assert Calls(a + b) == Calls(a) + Calls(b);
  }

  lemma RoutedConcat<K>(a: seq<RoutedCall<K>>, b: seq<RoutedCall<K>>)
    ensures multiset(RoutedCalls(a + b)) == multiset(RoutedCalls(a)) + multiset(RoutedCalls(b))
  {
    assert RoutedCalls(a + b) == RoutedCalls(a) + RoutedCalls(b);
  }

  lemma WaitingConcat<K>(a: seq<WaitEntry<Waiting<K>>>, b: seq<WaitEntry<Waiting<K>>>)
    ensures multiset(WaitingCalls(a + b)) == multiset(WaitingCalls(a)) + multiset(WaitingCalls(b))
  {
    assert WaitingCalls(a + b) == WaitingCalls(a) + WaitingCalls(b);
  }

  lemma SumThree<A>(a: multiset<A>, b: multiset<A>, c: multiset<A>, d: multiset<A>, e: multiset<A>, f: multiset<A>)
    ensures (a + b) + (c + d) + (e + f) == (a + c + e) + (b + d + f)
  {
  }

  /** Every examined call meets exactly one end: settled, routed on, or kept. */
  lemma {:induction false} ExaminedOnceEach<K>(items: seq<WaitEntry<Waiting<K>>>, stands: K -> Standing, now: Moment)
    ensures Fates(items, stands, now) == multiset(WaitingCalls(items))
  {
    hide Fates, WaitingCalls;
    if items == [] {
      NoFates(stands, now);
    } else {
      FirstFate(items, stands, now);
      ExaminedOnceEach(items[1..], stands, now);
      FirstWaiting(items);
    }
  }

  lemma NoFates<K>(stands: K -> Standing, now: Moment)
    ensures Fates([], stands, now) == multiset{} && multiset(WaitingCalls<K>([])) == multiset{}
  {
  }

  lemma FirstWaiting<K>(items: seq<WaitEntry<Waiting<K>>>)
    requires items != []
    ensures multiset(WaitingCalls(items)) == multiset{items[0].value.request.call} + multiset(WaitingCalls(items[1..]))
  {
    assert WaitingCalls(items) == [items[0].value.request.call] + WaitingCalls(items[1..]);
  }

  /** One turn over the front `n` entries. */
  function Turned<K>(items: seq<WaitEntry<Waiting<K>>>, n: nat, stands: K -> Standing, now: Moment): seq<WaitEntry<Waiting<K>>>
    requires n <= |items|
  {
    items[n..] + Keep(HeldAt(stands, now), items[..n])
  }

  /** The end of one call: expired when it is due, and otherwise only for want of a route. */
  ghost predicate EndsAs<K>(e: WaitEntry<Waiting<K>>, s: Settlement, stands: K -> Standing, now: Moment) {
    || (e.deadline <= now && s == Fail(e.value.request.call, EXPIRED, None))
    || (e.deadline > now && stands(e.value.target) == Gone && s == Fail(e.value.request.call, RouteUnavailable, None))
  }

  ghost predicate LeavesAs<K>(e: WaitEntry<Waiting<K>>, r: RoutedCall<K>, stands: K -> Standing, now: Moment) {
    e.deadline > now && stands(e.value.target) == Known(r.route) && r.target == e.value.target && r.request == e.value.request
  }

  /**
   * What an examination does with each call: one that is not due is kept exactly while its target is pending, routed
   * exactly to where its target is known to be, and ended as unavailable exactly when its target is gone.
   */
  lemma {:induction false} FatesExact<K>(items: seq<WaitEntry<Waiting<K>>>, stands: K -> Standing, now: Moment)
    ensures forall e :: e in Keep(HeldAt(stands, now), items) <==>
      e in items && e.deadline > now && stands(e.value.target) == Pending
    ensures forall s :: s in Ended(items, stands, now) <==> exists i :: 0 <= i < |items| && EndsAs(items[i], s, stands, now)
    ensures forall r :: r in Departed(items, stands, now) <==> exists i :: 0 <= i < |items| && LeavesAs(items[i], r, stands, now)
  {
    if items != [] {
      FatesExact(items[1..], stands, now);
      assert items == [items[0]] + items[1..];
      assert forall i :: 0 <= i < |items[1..]| ==> items[1..][i] == items[i + 1];
      forall s ensures s in Ended(items, stands, now) <==> exists i :: 0 <= i < |items| && EndsAs(items[i], s, stands, now) {
        if s in Ended(items[1..], stands, now) {
          var i :| 0 <= i < |items[1..]| && EndsAs(items[1..][i], s, stands, now);
          assert EndsAs(items[i + 1], s, stands, now);
        }
        if i :| 0 < i < |items| && EndsAs(items[i], s, stands, now) {
          assert EndsAs(items[1..][i - 1], s, stands, now);
        }
        assert s in EndOf(items[0], stands, now) <==> EndsAs(items[0], s, stands, now);
      }
      forall r ensures r in Departed(items, stands, now) <==> exists i :: 0 <= i < |items| && LeavesAs(items[i], r, stands, now) {
        if r in Departed(items[1..], stands, now) {
          var i :| 0 <= i < |items[1..]| && LeavesAs(items[1..][i], r, stands, now);
          assert LeavesAs(items[i + 1], r, stands, now);
        }
        if i :| 0 < i < |items| && LeavesAs(items[i], r, stands, now) {
          assert LeavesAs(items[1..][i - 1], r, stands, now);
        }
        assert r in DepartureOf(items[0], stands, now) <==> LeavesAs(items[0], r, stands, now);
      }
    }
  }

  /** A turn loses and repeats no call: each is still waiting, was routed on or was completed. */
  lemma TurnConserves<K>(items: seq<WaitEntry<Waiting<K>>>, n: nat, stands: K -> Standing, now: Moment)
    requires n <= |items|
    ensures multiset(WaitingCalls(items)) ==
      multiset(WaitingCalls(Turned(items, n, stands, now))) + multiset(RoutedCalls(Departed(items[..n], stands, now)))
      + multiset(Calls(Ended(items[..n], stands, now)))
  {
    hide Ended, Departed, Keep;
    ExaminedOnceEach(items[..n], stands, now);
    assert items == items[..n] + items[n..];
    WaitingConcat(items[..n], items[n..]);
    WaitingConcat(items[n..], Keep(HeldAt(stands, now), items[..n]));
  }

  function Least(a: nat, b: nat): nat { if a < b then a else b }

  // ------------------------------------------------------------------------------------------
  // Many turns, with admissions between them.
  // ------------------------------------------------------------------------------------------

  /** An entry marked by whether it was queued when the scan began. */
  datatype Marked<+K> = Marked(original: bool, entry: WaitEntry<Waiting<K>>)

  datatype Event<!K> = Turn(stands: K -> Standing, now: Moment) | Admit(entry: WaitEntry<Waiting<K>>)

  datatype Progress<+K> = Progress(
    items: seq<Marked<K>>,
    remaining: nat,
    examined: seq<Marked<K>>,
    held: seq<Marked<K>>,
    admitted: seq<Marked<K>>,
    ended: seq<Settlement>,
    departed: seq<RoutedCall<K>>)

  function MarkedHeld<K>(stands: K -> Standing, now: Moment): Marked<K> -> bool {
    (m: Marked<K>) => Judge(m.entry, stands, now).Held?
  }

  predicate IsOriginal<K>(m: Marked<K>) { m.original }

  predicate IsNew<K>(m: Marked<K>) { !m.original }

  /** A turn that finds the scan over expires due calls instead; it examines nothing here. */
  function Advance<K>(p: Progress<K>, budget: nat, event: Event<K>): Progress<K>
    requires p.remaining <= |p.items|
  {
    match event
    case Admit(e) => p.(items := p.items + [Marked(false, e)], admitted := p.admitted + [Marked(false, e)])
    case Turn(stands, now) =>
      var n := Least(p.remaining, budget);
      var kept := Keep(MarkedHeld(stands, now), p.items[..n]);
      Progress(p.items[n..] + kept, p.remaining - n, p.examined + p.items[..n], p.held + kept, p.admitted,
               p.ended + Ended(Entries(p.items[..n]), stands, now), p.departed + Departed(Entries(p.items[..n]), stands, now))
  }

  function Turns<K>(events: seq<Event<K>>): nat {
    if events == [] then 0 else Turns(events[..|events| - 1]) + if events[|events| - 1].Turn? then 1 else 0
  }

  function Begin<K>(original: seq<Marked<K>>): Progress<K> {
    Progress(original, |original|, [], [], [], [], [])
  }

  /** State after all events; `scan_remaining` never exceeds the queue length on the way. */
  function After<K>(original: seq<Marked<K>>, budget: nat, events: seq<Event<K>>): (p: Progress<K>)
    ensures p.remaining <= |p.items|
  {
    if events == [] then Begin(original)
    else Advance(After(original, budget, events[..|events| - 1]), budget, events[|events| - 1])
  }

  ghost predicate MidScan<K>(original: seq<Marked<K>>, budget: nat, turns: nat, p: Progress<K>) {
    var k := Least(turns * budget, |original|);
    && p.examined == original[..k]
    && p.remaining == |original| - k
    && p.remaining <= |p.items|
    && p.items[..p.remaining] == original[k..]
    && Keep(IsOriginal<K>, p.items[p.remaining..]) == p.held
    && Keep(IsNew<K>, p.items[p.remaining..]) == p.admitted
  }

  /**
   * A scan begun over `original` examines each of those calls exactly once, in order, whatever is
   * admitted meanwhile: after `t` turns the first `t * budget` of them. Survivors keep their order.
   */
  lemma {:induction false} ScanCoversOriginals<K>(original: seq<Marked<K>>, budget: nat, events: seq<Event<K>>)
    requires forall i :: 0 <= i < |original| ==> original[i].original
    ensures MidScan(original, budget, Turns(events), After(original, budget, events))
    decreases |events|
  {
    hide MidScan, Advance;
    if events == [] {
      ScanBegins(original, budget);
    } else {
      var before := events[..|events| - 1];
      ScanCoversOriginals(original, budget, before);
      var p := After(original, budget, before);
      match events[|events| - 1] {
        case Admit(e) => AdmissionKeeps(original, budget, Turns(before), p, e);
        case Turn(stands, now) => TurnKeeps(original, budget, Turns(before), p, stands, now);
      }
    }
  }

  lemma ScanBegins<K>(original: seq<Marked<K>>, budget: nat)
    ensures MidScan(original, budget, 0, Begin(original))
  {
    assert original[..0] == [] && original[0..] == original;
  }

  lemma AdmissionKeeps<K>(original: seq<Marked<K>>, budget: nat, turns: nat, p: Progress<K>, e: WaitEntry<Waiting<K>>)
    requires MidScan(original, budget, turns, p)
    ensures MidScan(original, budget, turns, Advance(p, budget, Event.Admit(e)))
  {
    hide Keep, Ended, Departed, Entries;
    var m := Marked(false, e);
    var tail := p.items[p.remaining..];
    assert (p.items + [m])[p.remaining..] == tail + [m];
    KeepSnoc(IsOriginal<K>, tail, m);
    KeepSnoc(IsNew<K>, tail, m);
  }

  lemma TurnKeeps<K>(original: seq<Marked<K>>, budget: nat, turns: nat, p: Progress<K>,
                     stands: K -> Standing, now: Moment)
    requires forall i :: 0 <= i < |original| ==> original[i].original
    requires MidScan(original, budget, turns, p)
    ensures MidScan(original, budget, turns + 1, Advance(p, budget, Turn(stands, now)))
  {
    hide Keep, Ended, Departed, Entries;
    var k := Least(turns * budget, |original|);
    var n := Least(p.remaining, budget);
    assert Least((turns + 1) * budget, |original|) == k + n by {
      assert (turns + 1) * budget == turns * budget + budget;
    }
    var front := p.items[..n];
    var kept := Keep(MarkedHeld(stands, now), front);
    var tail := p.items[p.remaining..];
    assert front == p.items[..p.remaining][..n] == original[k..][..n];
    assert original[..k] + front == original[..k + n];
    var items := p.items[n..] + kept;
    assert items[..p.remaining - n] == p.items[..p.remaining][n..] == original[k + n..];
    assert items[p.remaining - n..] == tail + kept;
    AllOriginal(MarkedHeld(stands, now), front);
    KeepConcat(IsOriginal<K>, tail, kept);
    KeepConcat(IsNew<K>, tail, kept);
    KeepAll(IsOriginal<K>, kept);
    KeepNone(IsNew<K>, kept);
  }

  lemma {:induction false} AllOriginal<K>(p: Marked<K> -> bool, items: seq<Marked<K>>)
    requires forall i :: 0 <= i < |items| ==> items[i].original
    ensures forall i :: 0 <= i < |Keep(p, items)| ==> Keep(p, items)[i].original
  {
    if items != [] {
      AllOriginal(p, items[1..]);
    }
  }

  function Entries<K>(items: seq<Marked<K>>): (r: seq<WaitEntry<Waiting<K>>>)
    ensures |r| == |items|
    ensures forall i :: 0 <= i < |items| ==> r[i] == items[i].entry
  {
    seq(|items|, i requires 0 <= i < |items| => items[i].entry)
  }

  /** A marked turn is the turn the waiters take: what it leaves, settles, routes on, and how far it gets. */
  lemma MarkedTurnIsTurn<K>(p: Progress<K>, budget: nat, stands: K -> Standing, now: Moment)
    requires p.remaining <= |p.items|
    ensures var next, n, items := Advance(p, budget, Turn(stands, now)), Least(p.remaining, budget), Entries(p.items);
      && Entries(next.items) == Turned(items, n, stands, now) && next.remaining == p.remaining - n
      && next.ended == p.ended + Ended(items[..n], stands, now)
      && next.departed == p.departed + Departed(items[..n], stands, now)
  {
    hide Keep, Ended, Departed;
    var n := Least(p.remaining, budget);
    EntriesOfKept(p.items[..n], stands, now);
    assert Entries(p.items[..n]) == Entries(p.items)[..n];
  }

  lemma {:induction false} EntriesOfKept<K>(items: seq<Marked<K>>, stands: K -> Standing, now: Moment)
    ensures Entries(Keep(MarkedHeld(stands, now), items)) == Keep(HeldAt(stands, now), Entries(items))
  {
    if items != [] {
      EntriesOfKept(items[1..], stands, now);
      assert Entries(items)[1..] == Entries(items[1..]);
    }
  }

  /** The scan is over after the first number of turns whose budgets add up to the queue. */
  lemma ScanEndsWithinBudget<K>(original: seq<Marked<K>>, budget: nat, events: seq<Event<K>>)
    requires forall i :: 0 <= i < |original| ==> original[i].original
    requires budget > 0
    ensures var p := After(original, budget, events);
      && (p.remaining == 0 <==> Turns(events) * budget >= |original|)
      && (p.remaining == 0 ==> p.examined == original)
  {
    ScanCoversOriginals(original, budget, events);
    assert original[..|original|] == original;
  }
}
