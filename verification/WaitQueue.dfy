/** `WaitQueue` of src/reactor/wait_queue.rs: two ordered maps that must agree with one list. */
module WaitQueues {
  import opened Common
  import opened OrderedKeys
  import opened WaitQueueSpec

  datatype DeadlineKey = DeadlineKey(deadline: Moment, sequence: nat)

  /** Lexicographic order of the derived `Ord`: deadline first, then admission sequence. */
  predicate KeyLess(a: DeadlineKey, b: DeadlineKey) {
    a.deadline < b.deadline || (a.deadline == b.deadline && a.sequence < b.sequence)
  }

  predicate IsLeastKey(d: map<DeadlineKey, nat>, k: DeadlineKey) {
    k in d && forall j :: j in d && j != k ==> KeyLess(k, j)
  }

  /** The entries named by `ks`, in that order. */
  ghost function Pick<T>(m: map<nat, WaitEntry<T>>, ks: seq<nat>): (items: seq<WaitEntry<T>>)
    requires forall i :: 0 <= i < |ks| ==> ks[i] in m
    ensures |items| == |ks|
    ensures forall i :: 0 <= i < |ks| ==> items[i] == m[ks[i]]
  {
    seq(|ks|, i requires 0 <= i < |ks| => m[ks[i]])
  }

  /** How many keys of an ascending listing lie at or below the cursor. */
  ghost function ScannedOf(ks: seq<nat>, cursor: Option<nat>): (r: nat)
    requires Ascending(ks)
    ensures r <= |ks|
    ensures cursor.None? ==> r == 0
    ensures forall i :: 0 <= i < r && cursor.Some? ==> ks[i] <= cursor.value
    ensures forall i :: r <= i < |ks| && cursor.Some? ==> cursor.value < ks[i]
  {
    if ks == [] || cursor.None? then 0
    else if ks[|ks| - 1] <= cursor.value then |ks|
    else ScannedOf(ks[..|ks| - 1], cursor)
  }

  /** The deadline map holds one key for each entry and no other. */
  ghost predicate Indexed<T>(m: map<nat, WaitEntry<T>>, d: map<DeadlineKey, nat>) {
    && (forall s :: s in m ==> DeadlineKey(m[s].deadline, s) in d)
    && (forall k :: k in d ==> d[k] == k.sequence && k.sequence in m && m[k.sequence].deadline == k.deadline)
  }

  lemma ScannedUnique(ks: seq<nat>, cursor: Option<nat>, r: nat)
    requires Ascending(ks) && r <= |ks|
    requires cursor.None? ==> r == 0
    requires forall i :: 0 <= i < r && cursor.Some? ==> ks[i] <= cursor.value
    requires forall i :: r <= i < |ks| && cursor.Some? ==> cursor.value < ks[i]
    ensures ScannedOf(ks, cursor) == r
  {
    var s := ScannedOf(ks, cursor);
    assert s < |ks| && cursor.Some? ==> cursor.value < ks[s];
    assert r < |ks| && cursor.Some? ==> cursor.value < ks[r];
  }

  lemma ScannedWithout(ks: seq<nat>, cursor: Option<nat>, i: nat)
    requires Ascending(ks) && i < |ks|
    ensures Ascending(DropAt(ks, i))
    ensures var r := ScannedOf(ks, cursor);
      ScannedOf(DropAt(ks, i), cursor) == if i < r then r - 1 else r
  {
    var r := ScannedOf(ks, cursor);
    ScannedUnique(DropAt(ks, i), cursor, if i < r then r - 1 else r);
  }

  lemma ScannedWith(ks: seq<nat>, cursor: Option<nat>, k: nat)
    requires Ascending(ks) && Ascending(ks + [k])
    requires cursor.Some? ==> cursor.value < k
    ensures ScannedOf(ks + [k], cursor) == ScannedOf(ks, cursor)
  {
    ScannedUnique(ks + [k], cursor, ScannedOf(ks, cursor));
  }

  lemma PickWithout<T>(m: map<nat, WaitEntry<T>>, ks: seq<nat>, i: nat)
    requires Lists(ks, m.Keys) && i < |ks|
    ensures Lists(DropAt(ks, i), (m - {ks[i]}).Keys)
    ensures Pick(m - {ks[i]}, DropAt(ks, i)) == DropAt(Pick(m, ks), i)
  {
    ListsWithout(ks, m.Keys, i);
    assert (m - {ks[i]}).Keys == m.Keys - {ks[i]};
  }

  lemma PickWith<T>(m: map<nat, WaitEntry<T>>, ks: seq<nat>, k: nat, e: WaitEntry<T>)
    requires Lists(ks, m.Keys) && forall j :: j in m ==> j < k
    ensures Lists(ks + [k], m[k := e].Keys)
    ensures Pick(m[k := e], ks + [k]) == Pick(m, ks) + [e]
  {
    ListsWith(ks, m.Keys, k);
    assert m[k := e].Keys == m.Keys + {k};
  }

  /** The first deadline key is the earliest deadline of the list, ties going to the front. */
  lemma LeastKeyIsEarliest<T>(m: map<nat, WaitEntry<T>>, d: map<DeadlineKey, nat>, ks: seq<nat>, i: nat)
    requires Lists(ks, m.Keys) && Indexed(m, d) && ks != []
    requires i == Earliest(Pick(m, ks))
    ensures IsLeastKey(d, DeadlineKey(m[ks[i]].deadline, ks[i]))
  {
    var items := Pick(m, ks);
    var least := DeadlineKey(m[ks[i]].deadline, ks[i]);
    forall k | k in d && k != least ensures KeyLess(least, k) {
      var j :| 0 <= j < |ks| && ks[j] == k.sequence;
      assert items[j].deadline == k.deadline;
      assert j != i;
    }
  }

  /** Everything the queue keeps true of its fields; `ks` lists the keys of `m`. */
  ghost predicate Consistent<T>(
    m: map<nat, WaitEntry<T>>, d: map<DeadlineKey, nat>, ks: seq<nat>, cursor: Option<nat>, next: nat)
  {
    // Compared with true, here and below, so that the conjunction is proved as one obligation.
    true == (
      && next <= U64_MAX
      && Lists(ks, m.Keys)
      && (forall s :: s in m ==> s < next)
      && (cursor.Some? ==> cursor.value < next)
      && Indexed(m, d))
  }

  ghost function ViewOf<T>(m: map<nat, WaitEntry<T>>, ks: seq<nat>, cursor: Option<nat>, next: nat): (q: Fifo<T>)
    requires Lists(ks, m.Keys)
  {
    Fifo(Pick(m, ks), ScannedOf(ks, cursor), next)
  }

  lemma IndexedWith<T>(m: map<nat, WaitEntry<T>>, d: map<DeadlineKey, nat>, k: nat, e: WaitEntry<T>)
    requires Indexed(m, d) && k !in m
    ensures Indexed(m[k := e], d[DeadlineKey(e.deadline, k) := k])
  {
  }

  lemma IndexedWithout<T>(m: map<nat, WaitEntry<T>>, d: map<DeadlineKey, nat>, k: nat)
    requires Indexed(m, d) && k in m
    ensures Indexed(m - {k}, d - {DeadlineKey(m[k].deadline, k)})
  {
  }

  lemma AppendedView<T>(m: map<nat, WaitEntry<T>>, ks: seq<nat>, cursor: Option<nat>, k: nat, e: WaitEntry<T>)
    requires Lists(ks, m.Keys) && (forall s :: s in m ==> s < k) && (cursor.Some? ==> cursor.value < k)
    ensures Lists(ks + [k], m[k := e].Keys)
    ensures var q := ViewOf(m, ks, cursor, k);
      ViewOf(m[k := e], ks + [k], cursor, k + 1) == Fifo(q.items + [e], q.scanned, k + 1)
  {
    PickWith(m, ks, k, e);
    ScannedWith(ks, cursor, k);
  }

  lemma RemovedView<T>(m: map<nat, WaitEntry<T>>, ks: seq<nat>, cursor: Option<nat>, next: nat, i: nat)
    requires Lists(ks, m.Keys) && i < |ks|
    ensures Lists(DropAt(ks, i), (m - {ks[i]}).Keys)
    ensures ViewOf(m - {ks[i]}, DropAt(ks, i), cursor, next) == Without(ViewOf(m, ks, cursor, next), i)
  {
    PickWithout(m, ks, i);
    ScannedWithout(ks, cursor, i);
  }

  lemma Appended<T>(m: map<nat, WaitEntry<T>>, d: map<DeadlineKey, nat>, ks: seq<nat>, cursor: Option<nat>,
                    k: nat, e: WaitEntry<T>)
    requires Consistent(m, d, ks, cursor, k) && k < U64_MAX
    ensures Consistent(m[k := e], d[DeadlineKey(e.deadline, k) := k], ks + [k], cursor, k + 1)
    ensures var q := ViewOf(m, ks, cursor, k);
      ViewOf(m[k := e], ks + [k], cursor, k + 1) == Fifo(q.items + [e], q.scanned, k + 1)
  {
    AppendedView(m, ks, cursor, k, e);
    IndexedWith(m, d, k, e);
  }

  lemma Removed<T>(m: map<nat, WaitEntry<T>>, d: map<DeadlineKey, nat>, ks: seq<nat>, cursor: Option<nat>,
                   next: nat, i: nat)
    requires Consistent(m, d, ks, cursor, next) && i < |ks|
    ensures var k := ks[i];
      && Consistent(m - {k}, d - {DeadlineKey(m[k].deadline, k)}, DropAt(ks, i), cursor, next)
      && ViewOf(m - {k}, DropAt(ks, i), cursor, next) == Without(ViewOf(m, ks, cursor, next), i)
  {
    RemovedView(m, ks, cursor, next, i);
    IndexedWithout(m, d, ks[i]);
  }

  lemma Regroup<A>(a: seq<A>, x: A, b: seq<A>)
    ensures (a + [x]) + b == a + ([x] + b)
  {
  }

  lemma EmptyIndex<T>(m: map<nat, WaitEntry<T>>, d: map<DeadlineKey, nat>, ks: seq<nat>)
    requires Indexed(m, d) && Lists(ks, m.Keys) && d == map[]
    ensures ks == []
  {
    ListingLength(ks, m.Keys);
    assert m.Keys == {};
  }

  /** One step of consuming an ordered map in key order. */
  method PopLeast<T>(m: map<nat, WaitEntry<T>>, ghost ks: seq<nat>)
    returns (entry: WaitEntry<T>, rest: map<nat, WaitEntry<T>>, ghost others: seq<nat>)
    requires Lists(ks, m.Keys) && m != map[]
    ensures ks != [] && entry == m[ks[0]] && rest == m - {ks[0]} && others == DropAt(ks, 0)
    ensures Lists(others, rest.Keys)
    ensures Pick(m, ks) == [entry] + Pick(rest, others)
  {
    assert m.Keys != {};
    FirstIsLeast(ks, m.Keys);
    var first :| IsLeast(m.Keys, first);
    entry, rest, others := m[first], m - {first}, DropAt(ks, 0);
    PickWithout(m, ks, 0);
  }

  lemma NothingLeft<T>(m: map<nat, WaitEntry<T>>, ks: seq<nat>)
    requires Lists(ks, m.Keys) && m == map[]
    ensures ks == []
  {
    ListingLength(ks, m.Keys);
  }

  /** The first key above the cursor, or else the first of all. */
  method NextAfter(s: set<nat>, cursor: Option<nat>, ghost ks: seq<nat>) returns (k: nat)
    requires Lists(ks, s) && s != {}
    ensures ks != []
    ensures var r := ScannedOf(ks, cursor); k == if r < |ks| then ks[r] else ks[0]
  {
    FirstIsLeast(ks, s);
    var above := set j | j in s && (cursor.None? || cursor.value < j);
    KeysAbove(s, ks, cursor, above);
    if above != {} {
      k :| IsLeast(above, k);
    } else {
      k :| IsLeast(s, k);
    }
  }

  lemma KeysAbove(s: set<nat>, ks: seq<nat>, cursor: Option<nat>, above: set<nat>)
    requires Lists(ks, s) && ks != []
    requires above == set k | k in s && (cursor.None? || cursor.value < k)
    ensures var r := ScannedOf(ks, cursor);
      if r < |ks| then above != {} && IsLeast(above, ks[r]) && (forall k :: IsLeast(above, k) ==> k == ks[r])
      else above == {}
  {
    var r := ScannedOf(ks, cursor);
    if r < |ks| {
      assert ks[r] in above;
      forall k | k in above ensures ks[r] <= k {
        var j :| 0 <= j < |ks| && ks[j] == k;
      }
    } else {
      forall k | k in s ensures k !in above {
        var j :| 0 <= j < |ks| && ks[j] == k;
      }
    }
  }

  lemma MovedCursor(ks: seq<nat>, k: nat, at: nat)
    requires Ascending(ks) && at < |ks| && ks[at] == k
    ensures ScannedOf(ks, Some(k)) == at + 1
  {
    ScannedUnique(ks, Some(k), at + 1);
  }

  function ValuesOf<T>(items: seq<WaitEntry<T>>): (values: seq<T>)
    ensures |values| == |items|
    ensures forall i :: 0 <= i < |items| ==> values[i] == items[i].value
  {
    seq(|items|, i requires 0 <= i < |items| => items[i].value)
  }

  lemma ValuesOfCons<T>(e: WaitEntry<T>, rest: seq<WaitEntry<T>>)
    ensures ValuesOf([e] + rest) == [e.value] + ValuesOf(rest)
  {
  }

  class WaitQueue<T> {
    const capacity: nat
    var nextSequence: nat
    var scanCursor: Option<nat>
    var entries: map<nat, WaitEntry<T>>
    var deadlines: map<DeadlineKey, nat>

    /** The keys of `entries` in ascending order. */
    ghost var order: seq<nat>

    ghost predicate Valid()
      reads this
    {
      true == (
        && 1 <= capacity <= USIZE_MAX
        && |order| <= capacity
        && Consistent(entries, deadlines, order, scanCursor, nextSequence))
    }

    ghost function View(): (q: Fifo<T>)
      requires Valid()
      reads this
      ensures WellFormed(q, capacity)
    {
      ViewOf(entries, order, scanCursor, nextSequence)
    }

    constructor (capacity: nat)
      requires 1 <= capacity <= USIZE_MAX
      ensures Valid() && this.capacity == capacity
      ensures View() == Fifo([], 0, 0)
    {
      this.capacity := capacity;
      nextSequence, scanCursor := 0, None;
      entries, deadlines, order := map[], map[], [];
    }

    function Len(): (n: nat)
      requires Valid()
      reads this
      ensures n == |View().items|
    {
      ListingLength(order, entries.Keys);
      |entries|
    }

    method Push(value: T, deadline: Moment) returns (accepted: bool)
      requires Valid()
      modifies this
      ensures Valid()
      ensures var r := Insert(old(View()), capacity, WaitEntry(value, deadline));
        View() == r.0 && accepted == r.1
    {
      accepted := InsertBack(value, deadline);
    }

    /** Puts an entry that was taken out to be looked at in last place. */
    method RotateBack(value: T, deadline: Moment) returns (accepted: bool)
      requires Valid()
      modifies this
      ensures Valid()
      ensures var r := Insert(old(View()), capacity, WaitEntry(value, deadline));
        View() == r.0 && accepted == r.1
    {
      accepted := InsertBack(value, deadline);
    }

    method InsertBack(value: T, deadline: Moment) returns (accepted: bool)
      requires Valid()
      modifies this
      ensures Valid()
      ensures var r := Insert(old(View()), capacity, WaitEntry(value, deadline));
        View() == r.0 && accepted == r.1
    {
      if Len() == capacity {
        return false;
      }
      var sequence := ReserveSequence();
      Place(sequence, WaitEntry(value, deadline));
      accepted := true;
    }

    /** Enters one entry in both maps under a sequence number above every other. */
    method Place(sequence: nat, entry: WaitEntry<T>)
      requires Consistent(entries, deadlines, order, scanCursor, sequence) && sequence < U64_MAX
      modifies this`entries, this`deadlines, this`order
      ensures Consistent(entries, deadlines, order, scanCursor, sequence + 1)
      ensures |order| == old(|order|) + 1
      ensures var q := old(ViewOf(entries, order, scanCursor, sequence));
        ViewOf(entries, order, scanCursor, sequence + 1) == Fifo(q.items + [entry], q.scanned, sequence + 1)
    {
      Appended(entries, deadlines, order, scanCursor, sequence, entry);
      order := order + [sequence];
      entries := entries[sequence := entry];
      deadlines := deadlines[DeadlineKey(entry.deadline, sequence) := sequence];
    }

    /** Terminates because renumbering leaves `next` at the length, which is below the capacity. */
    method ReserveSequence() returns (sequence: nat)
      requires Valid() && |order| < capacity
      modifies this
      ensures nextSequence == sequence + 1 && nextSequence <= U64_MAX
      ensures Consistent(entries, deadlines, order, scanCursor, sequence)
      ensures ViewOf(entries, order, scanCursor, sequence)
           == if old(nextSequence) == U64_MAX then Fifo(old(View()).items, 0, |old(View()).items|) else old(View())
      decreases if nextSequence == U64_MAX then 1 else 0
    {
      if nextSequence == U64_MAX {
        Resequence();
        sequence := ReserveSequence();
      } else {
        sequence := nextSequence;
        nextSequence := nextSequence + 1;
      }
    }

    method PlaceNext(entry: WaitEntry<T>)
      requires Valid() && |order| < capacity && nextSequence < U64_MAX
      modifies this`entries, this`deadlines, this`order, this`nextSequence
      ensures Valid() && |order| == old(|order|) + 1
      ensures var q := old(View()); View() == Fifo(q.items + [entry], q.scanned, q.next + 1)
    {
      var sequence := nextSequence;
      Place(sequence, entry);
      nextSequence := sequence + 1;
    }

    method Resequence()
      requires Valid()
      modifies this
      ensures Valid()
      ensures View() == Fifo(old(View()).items, 0, |old(View()).items|)
    {
      var remaining := entries;
      ghost var left := order;
      ghost var all := View().items;
      entries, deadlines, order := map[], map[], [];
      scanCursor, nextSequence := None, 0;
      assert Valid() && View().items == [];
      hide Consistent;
      while remaining != map[]
        invariant Valid() && scanCursor == None && nextSequence == |order|
        invariant Lists(left, remaining.Keys)
        invariant |order| + |left| == |all| <= capacity
        invariant View().items + Pick(remaining, left) == all
        decreases |left|
      {
        hide *;
        ghost var done := View();
        var entry;
        entry, remaining, left := PopLeast(remaining, left);
        PlaceNext(entry);
        Regroup(done.items, entry, Pick(remaining, left));
      }
      NothingLeft(remaining, left);
    }

    /** The key is removed as the source intends; see `ReleaseBuild` for what assertions-off builds do. */
    method RemoveDeadline(sequence: nat, deadline: Moment)
      modifies this`deadlines
      ensures deadlines == old(deadlines) - {DeadlineKey(deadline, sequence)}
    {
      deadlines := deadlines - {DeadlineKey(deadline, sequence)};
    }

    method PopFront() returns (taken: Option<WaitEntry<T>>)
      requires Valid()
      modifies this
      ensures Valid()
      ensures var r := WaitQueueSpec.PopFront(old(View())); View() == r.0 && taken == r.1
    {
      if entries == map[] {
        return None;
      }
      FirstIsLeast(order, entries.Keys);
      var sequence :| IsLeast(entries.Keys, sequence);
      taken := Take(sequence, 0);
    }

    method PopBack() returns (taken: Option<WaitEntry<T>>)
      requires Valid()
      modifies this
      ensures Valid()
      ensures var r := WaitQueueSpec.PopBack(old(View())); View() == r.0 && taken == r.1
    {
      if entries == map[] {
        return None;
      }
      LastIsGreatest(order, entries.Keys);
      var sequence :| IsGreatest(entries.Keys, sequence);
      taken := Take(sequence, |order| - 1);
    }

    method Take(sequence: nat, ghost position: nat) returns (taken: Option<WaitEntry<T>>)
      requires Valid() && position < |order| && order[position] == sequence
      modifies this
      ensures Valid()
      ensures View() == Without(old(View()), position)
      ensures taken == Some(old(View()).items[position])
    {
      Removed(entries, deadlines, order, scanCursor, nextSequence, position);
      var entry := entries[sequence];
      entries := entries - {sequence};
      RemoveDeadline(sequence, entry.deadline);
      order := DropAt(order, position);
      taken := Some(entry);
    }

    function Back(): (last: Option<T>)
      requires Valid()
      reads this
      ensures var items := View().items;
        last == if items == [] then None else Some(items[|items| - 1].value)
    {
      if entries == map[] then
        NothingLeft(entries, order);
        None
      else
        assert entries.Keys != {};
        LastIsGreatest(order, entries.Keys);
        var sequence :| IsGreatest(entries.Keys, sequence);
        Some(entries[sequence].value)
    }

    /** Moves the cursor to the first entry above it or else to the first of all. */
    method MoveCursor() returns (sequence: nat, ghost at: nat)
      requires Valid() && entries != map[]
      modifies this`scanCursor
      ensures Valid()
      ensures at == ScanPosition(old(View())) < |order| && order[at] == sequence
      ensures View() == old(View()).(scanned := at + 1)
    {
      hide Pick, Indexed, ScannedOf;
      sequence := NextAfter(entries.Keys, scanCursor, order);
      at := ScanPosition(View());
      MovedCursor(order, sequence, at);
      scanCursor := Some(sequence);
    }

    /** Looks at the entry after the cursor, wrapping at the end, and takes it out only if it matches. */
    method ScanOne(matches: T -> bool) returns (taken: Option<WaitEntry<T>>)
      requires Valid()
      modifies this
      ensures Valid()
      ensures var r := WaitQueueSpec.ScanOne(old(View()), matches); View() == r.0 && taken == r.1
    {
      if entries == map[] {
        NothingLeft(entries, order);
        return None;
      }
      var sequence;
      ghost var at;
      sequence, at := MoveCursor();
      if !matches(entries[sequence].value) {
        return None;
      }
      taken := Take(sequence, at);
    }

    method TakeDue(now: Moment) returns (taken: Option<WaitEntry<T>>)
      requires Valid()
      modifies this
      ensures Valid()
      ensures var r := WaitQueueSpec.TakeDue(old(View()), now); View() == r.0 && taken == r.1
    {
      if deadlines == map[] {
        EmptyIndex(entries, deadlines, order);
        return None;
      }
      ghost var at := EarliestPosition();
      var key :| IsLeastKey(deadlines, key);
      if key.deadline > now {
        return None;
      }
      taken := Take(deadlines[key], at);
    }

    function NextDeadline(): (deadline: Option<Moment>)
      requires Valid()
      reads this
      ensures deadline == WaitQueueSpec.NextDeadline(View())
    {
      if deadlines == map[] then
        EmptyIndex(entries, deadlines, order);
        None
      else
        assert exists key :: IsLeastKey(deadlines, key) by { var at := EarliestPosition(); }
        var key :| IsLeastKey(deadlines, key);
        Some(key.deadline)
    }

    method Drain() returns (values: seq<T>)
      requires Valid()
      modifies this
      ensures Valid()
      ensures View() == Fifo([], 0, 0)
      ensures values == ValuesOf(old(View()).items)
    {
      var remaining := entries;
      ghost var left := order;
      ghost var all := View().items;
      deadlines, entries, order := map[], map[], [];
      nextSequence, scanCursor := 0, None;
      values := [];
      while remaining != map[]
        invariant Valid() && View() == Fifo([], 0, 0)
        invariant Lists(left, remaining.Keys)
        invariant values + ValuesOf(Pick(remaining, left)) == ValuesOf(all)
        decreases |left|
      {
        hide *;
        var entry;
        entry, remaining, left := PopLeast(remaining, left);
        ValuesOfCons(entry, Pick(remaining, left));
        Regroup(values, entry.value, ValuesOf(Pick(remaining, left)));
        values := values + [entry.value];
      }
      NothingLeft(remaining, left);
    }

    lemma EarliestPosition() returns (at: nat)
      requires Valid() && deadlines != map[]
      ensures order != [] && at == Earliest(View().items)
      ensures IsLeastKey(deadlines, DeadlineKey(entries[order[at]].deadline, order[at]))
      ensures forall key :: IsLeastKey(deadlines, key) ==> key == DeadlineKey(entries[order[at]].deadline, order[at])
    {
      var any :| any in deadlines;
      assert any.sequence in order;
      at := Earliest(View().items);
      LeastKeyIsEarliest(entries, deadlines, order, at);
    }
  }
}
