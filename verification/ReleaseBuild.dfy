/**
 * The wait queue in a build without debug assertions: the removal inside the assertion of `remove_deadline`
 * is compiled out, so the index key of a popped or scanned entry is left behind.
 */
module ReleaseBuild {
  import opened Common
  import opened OrderedKeys
  import opened WaitQueueSpec
  import opened WaitQueues

  datatype Maps<T> = Maps(entries: map<nat, WaitEntry<T>>, deadlines: map<DeadlineKey, nat>, next: nat)

  /** `pop_front`, `pop_back` and a matching `scan_one`. */
  function ReleaseRemove<T>(s: Maps<T>, removed: Option<nat>): Maps<T> {
    match removed
    case None => s
    case Some(k) => s.(entries := s.entries - {k})
  }

  /** The index still agrees exactly when nothing was removed. */
  lemma ReleaseKeepsIndexOnlyWhenEmpty<T>(s: Maps<T>, removed: Option<nat>)
    requires Indexed(s.entries, s.deadlines)
    requires removed.None? <==> s.entries == map[]
    requires removed.Some? ==> removed.value in s.entries
    ensures var r := ReleaseRemove(s, removed);
      Indexed(r.entries, r.deadlines) <==> s.entries == map[]
  {
    if removed.Some? {
      assert DeadlineKey(s.entries[removed.value].deadline, removed.value) in s.deadlines;
    }
  }

  /** What survives in such a build: live keys are present, stale keys name nothing live. */
  ghost predicate Covered<T>(s: Maps<T>) {
    && (forall k :: k in s.entries ==> k < s.next && DeadlineKey(s.entries[k].deadline, k) in s.deadlines)
    && (forall key :: key in s.deadlines ==> s.deadlines[key] == key.sequence && key.sequence < s.next)
    && (forall key :: key in s.deadlines && key.sequence in s.entries ==>
          s.entries[key.sequence].deadline == key.deadline)
  }

  function ReleaseTakeDue<T>(s: Maps<T>, least: DeadlineKey, now: Moment): (Maps<T>, Option<WaitEntry<T>>)
    requires IsLeastKey(s.deadlines, least)
  {
    if least.deadline > now then (s, None)
    else
      var k := s.deadlines[least];
      var popped := s.(deadlines := s.deadlines - {least});
      if k in s.entries then (popped.(entries := s.entries - {k}), Some(s.entries[k])) else (popped, None)
  }

  // ------------------------------------------------------------------ runs

  /** Parameters name what the ordered maps determine: the key removed, the first index key, the keys in order. */
  datatype ReleaseOp<T> =
    | AddLast(entry: WaitEntry<T>)
    | RemoveKey(key: nat)
    | ExpireFirst(least: DeadlineKey, now: Moment)
    | Renumber(keys: seq<nat>)
    | Clear

  /** The index built anew from the entries. */
  function IndexOf<T>(entries: map<nat, WaitEntry<T>>): map<DeadlineKey, nat> {
    map key | key in (set k | k in entries :: DeadlineKey(entries[k].deadline, k)) :: key.sequence
  }

  lemma IndexAgrees<T>(entries: map<nat, WaitEntry<T>>)
    ensures Indexed(entries, IndexOf(entries))
  {
    var keys := set k | k in entries :: DeadlineKey(entries[k].deadline, k);
    forall k | k in entries ensures DeadlineKey(entries[k].deadline, k) in IndexOf(entries) {
      assert DeadlineKey(entries[k].deadline, k) in keys;
    }
  }

  ghost predicate Applies<T>(s: Maps<T>, op: ReleaseOp<T>) {
    match op
    case AddLast(_) => s.next < U64_MAX
    case RemoveKey(key) => key in s.entries
    case ExpireFirst(least, _) => IsLeastKey(s.deadlines, least)
    case Renumber(keys) => Lists(keys, s.entries.Keys)
    case Clear => true
  }

  ghost function Applied<T>(s: Maps<T>, op: ReleaseOp<T>): Maps<T>
    requires Applies(s, op)
  {
    match op
    case AddLast(e) => Maps(s.entries[s.next := e], s.deadlines[DeadlineKey(e.deadline, s.next) := s.next], s.next + 1)
    case RemoveKey(key) => ReleaseRemove(s, Some(key))
    case ExpireFirst(least, now) => ReleaseTakeDue(s, least, now).0
    case Renumber(keys) =>
      var entries := map i: nat | i < |keys| :: s.entries[keys[i]];
      Maps(entries, IndexOf(entries), |keys|)
    case Clear => Maps(map[], map[], 0)
  }

  /** Renumbering rebuilds the index from the entries and so heals it. */
  lemma RenumberHeals<T>(s: Maps<T>, keys: seq<nat>)
    requires Lists(keys, s.entries.Keys)
    ensures var t := Applied(s, Renumber(keys)); Indexed(t.entries, t.deadlines) && Covered(t)
  {
    hide IndexOf;
    IndexAgrees(Applied(s, Renumber(keys)).entries);
  }

  lemma StepCovered<T>(s: Maps<T>, op: ReleaseOp<T>)
    requires Covered(s) && Applies(s, op)
    ensures Covered(Applied(s, op))
  {
    if op.Renumber? {
      RenumberHeals(s, op.keys);
    }
  }

  /** A run: each state follows from the one before it. */
  ghost predicate ReleaseRun<T>(states: seq<Maps<T>>, ops: seq<ReleaseOp<T>>) {
    && |states| == |ops| + 1
    && states[0] == Maps(map[], map[], 0)
    && forall i :: 0 <= i < |ops| ==> Applies(states[i], ops[i]) && states[i + 1] == Applied(states[i], ops[i])
  }

  /** In every run of such a build each live entry keeps its key and no stale key names a live entry. */
  lemma {:induction false} ReleaseRunCovered<T>(states: seq<Maps<T>>, ops: seq<ReleaseOp<T>>, i: nat)
    requires ReleaseRun(states, ops) && i < |states|
    ensures Covered(states[i])
  {
    if i > 0 {
      ReleaseRunCovered(states, ops, i - 1);
      StepCovered(states[i - 1], ops[i - 1]);
      assert states[i - 1 + 1] == Applied(states[i - 1], ops[i - 1]);
    }
  }

  // ------------------------------------------------------------------ exact conditions

  /** No live entry is due. */
  ghost predicate NothingDue<T>(s: Maps<T>, now: Moment) {
    forall k :: k in s.entries ==> s.entries[k].deadline > now
  }

  /**
   * With the key left behind, `take_due` answers as intended exactly when the first index key is live or no
   * live entry is due; otherwise a due call is passed over.
   */
  lemma ReleaseTakeDueExact<T>(s: Maps<T>, ks: seq<nat>, least: DeadlineKey, now: Moment)
    requires Covered(s) && Lists(ks, s.entries.Keys) && IsLeastKey(s.deadlines, least)
    ensures ReleaseTakeDue(s, least, now).1 == TakeDue(Fifo(Pick(s.entries, ks), 0, 0), now).1
      <==> least.sequence in s.entries || NothingDue(s, now)
  {
    hide Ascending;
    var items := Pick(s.entries, ks);
    IntendedNone(s, ks, now);
    if ks != [] {
      var i := Earliest(items);
      var mine := DeadlineKey(s.entries[ks[i]].deadline, ks[i]);
      assert mine in s.deadlines;
      if least.sequence in s.entries {
        var j :| 0 <= j < |ks| && ks[j] == least.sequence;
        assert items[j].deadline == least.deadline;
        LiveHeadIsEarliest(s, ks, least, j, i);
      }
    } else {
      assert s.entries.Keys == {};
    }
  }

  lemma IntendedNone<T>(s: Maps<T>, ks: seq<nat>, now: Moment)
    requires Lists(ks, s.entries.Keys)
    ensures TakeDue(Fifo(Pick(s.entries, ks), 0, 0), now).1.None? <==> NothingDue(s, now)
  {
    var items := Pick(s.entries, ks);
    forall k | k in s.entries ensures exists j :: 0 <= j < |ks| && ks[j] == k && items[j] == s.entries[k] {
      var j :| 0 <= j < |ks| && ks[j] == k;
      assert items[j] == s.entries[k];
    }
    if ks != [] {
      assert ks[Earliest(items)] in s.entries;
    }
  }

  lemma LiveHeadIsEarliest<T>(s: Maps<T>, ks: seq<nat>, least: DeadlineKey, j: nat, i: nat)
    requires Covered(s) && Lists(ks, s.entries.Keys) && IsLeastKey(s.deadlines, least)
    requires j < |ks| && ks[j] == least.sequence
    requires i == Earliest(Pick(s.entries, ks))
    ensures i == j
  {
    var items := Pick(s.entries, ks);
    var mine := DeadlineKey(s.entries[ks[i]].deadline, ks[i]);
    assert mine in s.deadlines;
    assert items[i].deadline <= items[j].deadline;
    assert mine == least || KeyLess(least, mine);
  }

  /** `next_deadline` reads the first index key, live or not. */
  function ReleaseNextDeadline<T>(s: Maps<T>, least: DeadlineKey): Option<Moment>
    requires IsLeastKey(s.deadlines, least)
  {
    Some(least.deadline)
  }

  /** `next_deadline` answers as intended exactly when some live entry has the deadline of the first index key. */
  lemma ReleaseNextDeadlineExact<T>(s: Maps<T>, ks: seq<nat>, least: DeadlineKey)
    requires Covered(s) && Lists(ks, s.entries.Keys) && IsLeastKey(s.deadlines, least)
    ensures ReleaseNextDeadline(s, least) == NextDeadline(Fifo(Pick(s.entries, ks), 0, 0))
      <==> exists k :: k in s.entries && s.entries[k].deadline == least.deadline
  {
    hide Ascending;
    var items := Pick(s.entries, ks);
    if ks != [] {
      var i := Earliest(items);
      assert ks[i] in s.entries && items[i] == s.entries[ks[i]];
      assert DeadlineKey(s.entries[ks[i]].deadline, ks[i]) in s.deadlines;
      forall k | k in s.entries ensures items[i].deadline <= s.entries[k].deadline {
        var j :| 0 <= j < |ks| && ks[j] == k;
        assert items[j] == s.entries[k];
      }
    } else {
      assert s.entries.Keys == {};
    }
  }

  /** Otherwise the deadline reported is too early, never too late. */
  lemma ReleaseNextDeadlineEarly<T>(s: Maps<T>, least: DeadlineKey, k: nat)
    requires Covered(s) && IsLeastKey(s.deadlines, least) && k in s.entries
    ensures least.deadline <= s.entries[k].deadline
  {
    assert DeadlineKey(s.entries[k].deadline, k) in s.deadlines;
  }

  /** Two calls queued, the first popped: the second is due at 7 and `take_due` misses it. */
  lemma ReleaseMissesDueCall(a: int, b: int)
    ensures
      var before := Maps(map[0 := WaitEntry(a, 5), 1 := WaitEntry(b, 7)],
                         map[DeadlineKey(5, 0) := 0, DeadlineKey(7, 1) := 1], 2);
      var after := ReleaseRemove(before, Some(0));
      && Indexed(before.entries, before.deadlines)
      && IsLeastKey(after.deadlines, DeadlineKey(5, 0))
      && ReleaseTakeDue(after, DeadlineKey(5, 0), 7).1 == None
      && TakeDue(Fifo([WaitEntry(b, 7)], 0, 2), 7).1 == Some(WaitEntry(b, 7))
  {
    var before := Maps(map[0 := WaitEntry(a, 5), 1 := WaitEntry(b, 7)],
                       map[DeadlineKey(5, 0) := 0, DeadlineKey(7, 1) := 1], 2);
    var after := ReleaseRemove(before, Some(0));
    assert after.entries == map[1 := WaitEntry(b, 7)];
    assert [WaitEntry(b, 7)][0] == WaitEntry(b, 7);
  }
}
