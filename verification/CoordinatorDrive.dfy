/** Budgeted passes over coordinator entries: src/reactor/coordinator/drive.rs and drive_retry.rs. */
module CoordinatorDrives {
  import opened Common
  import opened Filters

  /** An entry as the passes see it: a retry timer, a submitted discovery, its result, and the request flag. */
  datatype Entry = Entry(retryAt: Option<Moment>, pending: bool, hasResult: bool, requested: bool)

  function Flag(e: Entry): nat { if e.requested then 1 else 0 }

  function Flags(entries: seq<Entry>): nat { Sum(Flag, entries) }

  function Requested(entries: seq<Entry>): (r: seq<bool>)
    ensures |r| == |entries| && forall i :: 0 <= i < |entries| ==> r[i] == entries[i].requested
  {
    seq(|entries|, i requires 0 <= i < |entries| => entries[i].requested)
  }

  datatype Pass = Pass(flags: seq<bool>, cursor: nat, started: nat)

  /** The start pass from `offset` on; the position is taken from the cursor as it stands, which a start moves. */
  function StartFrom(p: Pass, offset: nat, budget: nat): (r: Pass)
    ensures |r.flags| == |p.flags|
    decreases |p.flags| - offset
  {
    if offset >= |p.flags| || p.started == budget then p
    else
      var index := (p.cursor + offset) % |p.flags|;
      if !p.flags[index] then StartFrom(p, offset + 1, budget)
      else StartFrom(Pass(p.flags[index := false], (index + 1) % |p.flags|, p.started + 1), offset + 1, budget)
  }

  function StartPass(flags: seq<bool>, cursor: nat, budget: nat): Pass { StartFrom(Pass(flags, cursor, 0), 0, budget) }

  class CoordinatorOwner {
    const turnBudget: nat
    var entries: seq<Entry>
    var cursor: nat

    ghost predicate Valid()
      reads this
    {
      cursor == 0 || cursor < |entries|
    }

    constructor (turnBudget: nat)
      ensures Valid() && entries == [] && this.turnBudget == turnBudget
    {
      this.turnBudget, entries, cursor := turnBudget, [], 0;
    }

    /** A new entry never invalidates the cursor. */
    method Add(e: Entry)
      requires Valid()
      modifies this`entries
      ensures Valid() && entries == old(entries) + [e]
    {
      entries := entries + [e];
    }

    /** The entry's machine and its submissions may do anything, except ask for a discovery again. */
    method Interpret(index: nat) returns (ok: bool)
      requires Valid() && index < |entries|
      modifies this`entries
      ensures Valid() && |entries| == |old(entries)| && Requested(entries) == Requested(old(entries))
      ensures Flags(entries) == Flags(old(entries))
      ensures forall i :: 0 <= i < |entries| && i != index ==> entries[i] == old(entries)[i]
    {
      var e: Entry := *;
      ok := *;
      var was := entries[index];
      SumUpdate(Flag, entries, index, e.(requested := was.requested));
      entries := entries[index := e.(requested := was.requested)];
    }

    method Advance(index: nat)
      requires Valid() && index < |entries|
      modifies this`cursor
      ensures Valid() && cursor == (index + 1) % |entries|
    {
      cursor := (index + 1) % |entries|;
    }

    /**
     * Fires due retries. A due retry with a submission still pending is an error. `which` lists the entries
     * fired: each was due, every other entry is untouched, and something due fires unless there is no budget.
     */
    method FireDueRetries(now: Moment, budget: nat) returns (ok: bool, fired: nat, ghost which: seq<nat>)
      requires Valid()
      modifies this
      ensures Valid() && |entries| == |old(entries)| && Requested(entries) == Requested(old(entries))
      ensures fired <= budget && Flags(entries) == Flags(old(entries))
      ensures ok ==> fired == |which| && Only(old(entries), entries, which)
      ensures forall k :: 0 <= k < |which| ==> which[k] < |entries|
      ensures forall k :: 0 <= k < |which| ==>
        old(entries)[which[k]].retryAt.Some? && old(entries)[which[k]].retryAt.value <= now
      ensures ok && budget > 0 && fired == 0 ==>
        forall i :: 0 <= i < |entries| && entries[i].retryAt.Some? ==> entries[i].retryAt.value > now
    {
      hide Flags, Requested, Only;
      fired, ok, which := 0, true, [];
      Untouched(entries);
      for offset := 0 to |entries|
        invariant Valid() && |entries| == |old(entries)| && Requested(entries) == Requested(old(entries))
        invariant fired <= budget && Flags(entries) == Flags(old(entries)) && ok
        invariant fired == |which| && Only(old(entries), entries, which)
        invariant forall k :: 0 <= k < |which| ==> which[k] < |entries|
        invariant fired == 0 ==> entries == old(entries) && cursor == old(cursor)
        invariant fired == 0 ==> forall o :: 0 <= o < offset ==> !DueRetry(At(entries, cursor, o), now)
        invariant forall k :: 0 <= k < |which| ==> DueRetry(old(entries)[which[k]], now)
      {
        if fired == budget {
          return;
        }
        var index := (cursor + offset) % |entries|;
        var e := entries[index];
        if DueRetry(e, now) {
          if e.pending {
            return false, fired, which;
          }
          ghost var before := entries;
          FoundBefore(old(entries), entries, which, index, (e: Entry) => DueRetry(e, now));
          ok := Interpret(index);
          TouchOne(old(entries), before, entries, which, index);
          which := which + [index];
          fired := fired + 1;
          if !ok {
            return;
          }
          Advance(index);
        }
      }
      if fired == 0 {
        NoneLeft(entries, cursor, (e: Entry) => DueRetry(e, now));
      }
    }

    /** Takes in results. `which` lists the entries that had one; every other entry is untouched. */
    method ObserveCompletions(budget: nat) returns (ok: bool, completed: nat, ghost which: seq<nat>)
      requires Valid()
      modifies this
      ensures Valid() && |entries| == |old(entries)| && Requested(entries) == Requested(old(entries))
      ensures completed <= budget && Flags(entries) == Flags(old(entries))
      ensures ok ==> completed == |which| && Only(old(entries), entries, which)
      ensures forall k :: 0 <= k < |which| ==> which[k] < |entries|
      ensures forall k :: 0 <= k < |which| ==> old(entries)[which[k]].pending && old(entries)[which[k]].hasResult
      ensures ok && budget > 0 && completed == 0 ==>
        forall i :: 0 <= i < |entries| && entries[i].pending ==> !entries[i].hasResult
    {
      hide Flags, Requested, Only;
      completed, ok, which := 0, true, [];
      Untouched(entries);
      for offset := 0 to |entries|
        invariant Valid() && |entries| == |old(entries)| && Requested(entries) == Requested(old(entries))
        invariant completed <= budget && Flags(entries) == Flags(old(entries)) && ok
        invariant completed == |which| && Only(old(entries), entries, which)
        invariant forall k :: 0 <= k < |which| ==> which[k] < |entries|
        invariant completed == 0 ==> entries == old(entries) && cursor == old(cursor)
        invariant completed == 0 ==> forall o :: 0 <= o < offset ==> !HasResult(At(entries, cursor, o))
        invariant forall k :: 0 <= k < |which| ==> HasResult(old(entries)[which[k]])
      {
        if completed == budget {
          return;
        }
        var index := (cursor + offset) % |entries|;
        if HasResult(entries[index]) {
          ghost var before := entries;
          FoundBefore(old(entries), entries, which, index, HasResult);
          ok := Interpret(index);
          TouchOne(old(entries), before, entries, which, index);
          which := which + [index];
          completed := completed + 1;
          if !ok {
            return;
          }
          Advance(index);
        }
      }
      if completed == 0 {
        NoneLeft(entries, cursor, HasResult);
      }
    }

    /** Clears one flag and starts its discovery. */
    method Start(index: nat) returns (ok: bool)
      requires Valid() && index < |entries| && entries[index].requested
      modifies this
      ensures Valid() && |entries| == |old(entries)| && cursor == old(cursor)
      ensures Requested(entries) == Requested(old(entries))[index := false]
      ensures Flags(entries) == Flags(old(entries)) - 1
    {
      SumUpdate(Flag, entries, index, entries[index].(requested := false));
      entries := entries[index := entries[index].(requested := false)];
      ok := Interpret(index);
    }

    method StartRequested(ready: bool, budget: nat) returns (ok: bool, started: nat)
      requires Valid()
      modifies this
      ensures Valid() && |entries| == |old(entries)| && started <= budget
      ensures !ready ==> ok && started == 0 && entries == old(entries) && cursor == old(cursor)
      ensures ok ==> Flags(entries) == Flags(old(entries)) - started
      ensures ok && ready && budget > 0 && Flags(old(entries)) > 0 ==> started >= 1
      ensures ok && ready ==>
        Pass(Requested(entries), cursor, started) == StartPass(Requested(old(entries)), old(cursor), budget)
    {
      hide Flags, Requested, StartFrom;
      started, ok := 0, true;
      if !ready {
        return;
      }
      ghost var before := Requested(entries);
      ghost var whole := StartPass(before, cursor, budget);
      for offset := 0 to |entries|
        invariant Valid() && |entries| == |old(entries)| && started <= budget && ok
        invariant Flags(entries) == Flags(old(entries)) - started
        invariant started == 0 ==> entries == old(entries) && cursor == old(cursor)
        invariant started == 0 ==> forall o :: 0 <= o < offset ==> !Visited(before, cursor, o)
        invariant whole == StartFrom(Pass(Requested(entries), cursor, started), offset, budget)
      {
        ghost var p := Pass(Requested(entries), cursor, started);
        StartStep(p, offset, budget);
        if started == budget {
          return;
        }
        var index := (cursor + offset) % |entries|;
        FlagAt(entries, index);
        if entries[index].requested {
          ok := Start(index);
          if !ok {
            return;
          }
          started := started + 1;
          Advance(index);
        }
      }
      StartEnd(Pass(Requested(entries), cursor, started), |entries|, budget);
      if started == 0 && entries != [] {
        AllVisited(entries, cursor);
      }
      if entries == [] {
        NoEntries(entries);
      }
    }

    /** One turn: the passes share the budget, no subtraction underflows, and what is left starts discoveries. */
    method Drive(ready: bool, now: Moment) returns (ok: bool, progress: nat)
      requires Valid()
      modifies this
      ensures Valid() && |entries| == |old(entries)|
      ensures ok ==> progress <= turnBudget && Flags(entries) <= Flags(old(entries))
      ensures ok && ready && progress < turnBudget && Flags(old(entries)) > 0 ==> Flags(entries) < Flags(old(entries))
    {
      hide Flags, Requested, StartPass;
      var fired;
      ghost var which;
      ok, fired, which := FireDueRetries(now, turnBudget);
      progress := fired;
      if !ok {
        return;
      }
      var remaining: nat := turnBudget - progress;
      if remaining != 0 {
        var completed;
        ok, completed, which := ObserveCompletions(remaining);
        if !ok {
          return;
        }
        progress := progress + completed;
      }
      remaining := turnBudget - progress;
      if remaining != 0 {
        var started;
        ok, started := StartRequested(ready, remaining);
        progress := progress + started;
      }
    }

    /** With no new requests, as many passes as there are flags clear them all. */
    method ClearFlags(budget: nat) returns (ok: bool, passes: nat)
      requires Valid() && budget > 0
      modifies this
      ensures Valid() && passes <= Flags(old(entries))
      ensures ok ==> Flags(entries) == 0
    {
      hide Flags, Requested, StartPass;
      passes, ok := 0, true;
      while Flags(entries) > 0
        invariant Valid() && ok && passes + Flags(entries) <= Flags(old(entries))
        decreases Flags(entries)
      {
        var started;
        ok, started := StartRequested(true, budget);
        passes := passes + 1;
        if !ok {
          return;
        }
      }
    }
  }

  predicate DueRetry(e: Entry, now: Moment) { e.retryAt.Some? && e.retryAt.value <= now }

  predicate HasResult(e: Entry) { e.pending && e.hasResult }

  /** The entry at an offset from the cursor. */
  function At(entries: seq<Entry>, cursor: nat, offset: nat): Entry
    requires entries != []
  {
    entries[(cursor + offset) % |entries|]
  }

  /** Entries outside `which` are as they were. */
  ghost predicate Only(before: seq<Entry>, after: seq<Entry>, which: seq<nat>) {
    |before| == |after| && forall i :: 0 <= i < |before| && i !in which ==> after[i] == before[i]
  }

  lemma Untouched(entries: seq<Entry>)
    ensures Only(entries, entries, [])
  {
  }

  lemma TouchOne(first: seq<Entry>, before: seq<Entry>, after: seq<Entry>, which: seq<nat>, index: nat)
    requires Only(first, before, which) && |before| == |after|
    requires forall i :: 0 <= i < |after| && i != index ==> after[i] == before[i]
    ensures Only(first, after, which + [index])
  {
    assert index in which + [index];
    assert forall i :: i in which ==> i in which + [index];
  }

  /** What a pass finds now it would have found before the pass: a second find is of an entry found before. */
  lemma FoundBefore(first: seq<Entry>, entries: seq<Entry>, which: seq<nat>, index: nat, found: Entry -> bool)
    requires Only(first, entries, which) && index < |entries| && found(entries[index])
    requires forall k :: 0 <= k < |which| ==> which[k] < |first| && found(first[which[k]])
    ensures found(first[index])
  {
    if index in which {
      var k :| 0 <= k < |which| && which[k] == index;
    }
  }

  /** Offsets from a cursor inside the list reach every entry. */
  lemma NoneLeft(entries: seq<Entry>, cursor: nat, found: Entry -> bool)
    requires cursor == 0 || cursor < |entries|
    requires forall o :: 0 <= o < |entries| ==> !found(At(entries, cursor, o))
    ensures forall i :: 0 <= i < |entries| ==> !found(entries[i])
  {
    var n := |entries|;
    forall i | 0 <= i < n ensures !found(entries[i]) {
      var o := if cursor <= i then i - cursor else i + n - cursor;
      Wraps(i, n);
      assert cursor + o == i || cursor + o == i + n;
      assert !found(At(entries, cursor, o));
    }
  }

  predicate Visited(flags: seq<bool>, cursor: nat, offset: nat) {
    flags != [] && flags[(cursor + offset) % |flags|]
  }

  lemma StartStep(p: Pass, offset: nat, budget: nat)
    requires offset < |p.flags|
    ensures var index := (p.cursor + offset) % |p.flags|;
      StartFrom(p, offset, budget) ==
        if p.started == budget then p
        else if !p.flags[index] then StartFrom(p, offset + 1, budget)
        else StartFrom(Pass(p.flags[index := false], (index + 1) % |p.flags|, p.started + 1), offset + 1, budget)
  {
  }

  lemma StartEnd(p: Pass, offset: nat, budget: nat)
    requires offset >= |p.flags|
    ensures StartFrom(p, offset, budget) == p
  {
  }

  lemma FlagAt(entries: seq<Entry>, index: nat)
    requires index < |entries|
    ensures Requested(entries)[index] == entries[index].requested
  {
  }

  lemma NoEntries(entries: seq<Entry>)
    requires entries == []
    ensures Flags(entries) == 0
  {
  }

  lemma {:induction false} NoFlags(entries: seq<Entry>)
    requires forall i :: 0 <= i < |entries| ==> !entries[i].requested
    ensures Flags(entries) == 0
  {
    if entries != [] {
      NoFlags(entries[1..]);
    }
  }

  /** Offsets from a cursor inside the list reach every position. */
  lemma AllVisited(entries: seq<Entry>, cursor: nat)
    requires cursor < |entries| && forall o :: 0 <= o < |entries| ==> !Visited(Requested(entries), cursor, o)
    ensures Flags(entries) == 0
  {
    var n := |entries|;
    forall i | 0 <= i < n ensures !entries[i].requested {
      var o := if cursor <= i then i - cursor else i + n - cursor;
      Wraps(i, n);
      assert cursor + o == i || cursor + o == i + n;
      assert !Visited(Requested(entries), cursor, o);
    }
    NoFlags(entries);
  }

  lemma Wraps(i: nat, n: nat)
    requires i < n
    ensures i % n == i && (i + n) % n == i
  {
    assert (i + n) / n == 1 by { assert i + n == 1 * n + i; }
  }
}
