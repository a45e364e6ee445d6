/** Whole runs of one lane: every script of submissions, turns, drains and refresh failures. */
module LaneRuns {
  import opened Common
  import opened Requests
  import opened Contexts
  import opened PendingCalls
  import opened LaneBooks
  import opened Engines
  import opened Lanes

  /** A submission carries everything but its identity, which the reactor issues. */
  datatype Step =
    | Start
    | SubmitCall(request: Request, now: Moment)
    | IssuedElsewhere
    | Turn(now: Moment, budget: nat)
    | BeginDraining
    | RefreshEnded

  /** `CallIds` of src/api/identity.rs, shared by every lane. */
  class CallIds {
    var next: nat

    constructor ()
      ensures next == 1
    {
      next := 1;
    }

    method Allocate() returns (id: Option<CallId>)
      modifies this
      ensures id.Some? <==> old(next) < U64_MAX
      ensures id.Some? ==> id.value == old(next) && next == old(next) + 1
      ensures id.None? ==> next == old(next)
    {
      if next >= U64_MAX {
        return None;
      }
      id := Some(next);
      next := next + 1;
    }
  }

  /** The identities under which the submissions of a script reach the lane, the next one being `next`. */
  function Reaching(script: seq<Step>, next: nat): seq<CallId> {
    if script == [] || next >= U64_MAX then []
    else if script[0].SubmitCall? then [next] + Reaching(script[1..], next + 1)
    else Reaching(script[1..], if script[0].IssuedElsewhere? then next + 1 else next)
  }

  /** Everything the lane was given was issued before. */
  ghost predicate Fresh(lane: Lane, ids: CallIds)
    reads lane`given, ids
  {
    forall call :: call in lane.given ==> call < ids.next
  }

  /** How many owners a call has: its places in the queue, among published contexts and among completions. */
  ghost function Owners(lane: Lane, call: CallId): nat
    requires lane.pending.Valid()
    reads lane, lane.contexts, lane.pending, lane.pending.requests
  {
    multiset(CallsOf(lane.pending.Items()))[call]
      + (if call in PublicCalls(lane.contexts.Contents()) then 1 else 0)
      + multiset(Calls(lane.settled))[call]
  }

  /** A completion that claims not sent is right: the frame never was accepted, or the engine said so. */
  ghost predicate ClaimRight(s: Settlement, frames: map<CallId, Key>, notSent: set<Key>) {
    && (ClaimsNotSent(s) && s.call in frames ==> frames[s.call] in notSent)
    && (s.call !in frames ==> ClaimsNotSent(s))
  }

  /** What validity means for a caller. */
  lemma ValidMeans(lane: Lane)
    requires lane.Valid()
    ensures lane.pending.Valid()
    ensures forall call :: call in lane.given ==> Owners(lane, call) == 1
    ensures forall call :: call !in lane.given ==> Owners(lane, call) == 0
    ensures lane.Terminal() ==> multiset(Calls(lane.settled)) == multiset(lane.given)
    ensures forall i :: 0 <= i < |lane.settled| ==> ClaimRight(lane.settled[i], lane.frames, lane.engine.notSent)
  {
    var b := lane.BooksWith(multiset{});
    forall call ensures Owners(lane, call) == if call in lane.given then 1 else 0 {
      OwnedExactlyOnce(b, call);
    }
    if lane.Terminal() {
      assert CallsOf(lane.pending.Items()) == [];
      AllSettled(b);
    }
  }

  /** One step; a call reaches the lane under an identity that was never issued before. */
  method Perform(lane: Lane, ids: CallIds, step: Step) returns (ghost id: Option<CallId>)
    requires lane.Valid() && Fresh(lane, ids)
    modifies lane, lane.engine, lane.contexts, lane.pending, lane.pending.requests, lane.causality, ids
    ensures lane.Valid() && old(lane.settled) <= lane.settled && Fresh(lane, ids)
    ensures lane.given == old(lane.given) + (if id.Some? then {id.value} else {})
    ensures id.Some? ==> id.value !in old(lane.given)
    ensures id == if step.SubmitCall? && old(ids.next) < U64_MAX then Some(old(ids.next)) else None
    ensures ids.next == old(ids.next) + if (step.SubmitCall? || step.IssuedElsewhere?) && old(ids.next) < U64_MAX then 1 else 0
  {
    hide Lane.Valid, Lane.Waited, Lane.Terminal, Lane.CanAdmit;
    id := None;
    match step {
      case SubmitCall(request, now) =>
        var issued := ids.Allocate();
        if issued.Some? {
          id := issued;
          var ok := lane.Submit(request.(call := issued.value), now);
        }
      case IssuedElsewhere =>
        var other := ids.Allocate();
      case _ => PerformOwn(lane, step);
    }
  }

  method PerformOwn(lane: Lane, step: Step)
    requires lane.Valid()
    modifies lane, lane.engine, lane.contexts, lane.pending, lane.pending.requests, lane.causality
    ensures lane.Valid() && old(lane.settled) <= lane.settled && lane.given == old(lane.given)
  {
    hide Lane.Valid, Lane.Look;
    var ok;
    match step {
      case Start =>
        if lane.phase.Connecting? && lane.connection.None? && lane.pendingRecovery.None? && !lane.terminal {
          ok := lane.OpenOrEnd();
        }
      case Turn(now, budget) =>
        var admitted;
        ok, admitted := lane.Drive(now, budget);
      case BeginDraining => ok := lane.BeginDrain();
      case RefreshEnded => ok := lane.RefreshFailed();
      case _ =>
    }
  }

  /**
   * After every script each call that reached the lane has exactly one owner, no completion was taken back, a
   * terminal lane has completed every call once, and no completion misstates delivery.
   */
  method Run(lane: Lane, ids: CallIds, script: seq<Step>) returns (ghost received: seq<CallId>)
    requires lane.Valid() && Fresh(lane, ids)
    modifies lane, lane.engine, lane.contexts, lane.pending, lane.pending.requests, lane.causality, ids
    ensures lane.Valid() && old(lane.settled) <= lane.settled
    ensures received == Reaching(script, old(ids.next)) && lane.given == old(lane.given) + set call | call in received
    ensures forall call :: call in lane.given ==> Owners(lane, call) == 1
    ensures lane.Terminal() ==> multiset(Calls(lane.settled)) == multiset(lane.given)
    ensures forall i :: 0 <= i < |lane.settled| ==> ClaimRight(lane.settled[i], lane.frames, lane.engine.notSent)
  {
    hide Lane.Valid, ClaimRight, Owners, Fresh;
    received := [];
    for i := 0 to |script|
      invariant lane.Valid() && old(lane.settled) <= lane.settled && Fresh(lane, ids)
      invariant lane.given == old(lane.given) + set call | call in received
      invariant Reaching(script, old(ids.next)) == received + Reaching(script[i..], ids.next)
    {
      ReachingNext(script, i, ids.next, received);
      ghost var id := Perform(lane, ids, script[i]);
      received := received + if id.Some? then [id.value] else [];
    }
    ValidMeans(lane);
  }

  lemma ReachingNext(script: seq<Step>, i: nat, next: nat, received: seq<CallId>)
    requires i < |script|
    ensures var issues := next < U64_MAX && (script[i].SubmitCall? || script[i].IssuedElsewhere?);
      received + Reaching(script[i..], next) ==
        (received + if next < U64_MAX && script[i].SubmitCall? then [next] else [])
        + Reaching(script[i + 1..], if issues then next + 1 else next)
  {
    assert script[i..][1..] == script[i + 1..] && script[i..][0] == script[i];
  }
}
