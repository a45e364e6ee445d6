/** What a wait queue means to its owners: a plain list, with no keys and no index. */
module WaitQueueSpec {
  import opened Common
  import opened OrderedKeys
  import opened Filters

  datatype WaitEntry<+T> = WaitEntry(value: T, deadline: Moment)

  /**
   * `items` in admission order. The first `scanned` of them have been passed by the selective
   * scan; `next` is the next sequence number, which only decides when the scan restarts.
   */
  datatype Fifo<+T> = Fifo(items: seq<WaitEntry<T>>, scanned: nat, next: nat)

  ghost predicate WellFormed<T>(q: Fifo<T>, capacity: nat) {
    |q.items| <= capacity && q.scanned <= |q.items| && q.next <= U64_MAX
  }

  function Without<T>(q: Fifo<T>, i: nat): Fifo<T>
    requires i < |q.items|
  {
    Fifo(DropAt(q.items, i), if i < q.scanned then q.scanned - 1 else q.scanned, q.next)
  }

  function Insert<T>(q: Fifo<T>, capacity: nat, e: WaitEntry<T>): (Fifo<T>, bool) {
    if |q.items| == capacity then (q, false)
    else
      var base := if q.next == U64_MAX then Fifo(q.items, 0, |q.items|) else q;
      (Fifo(base.items + [e], base.scanned, base.next + 1), true)
  }

  function PopFront<T>(q: Fifo<T>): (Fifo<T>, Option<WaitEntry<T>>) {
    if q.items == [] then (q, None) else (Without(q, 0), Some(q.items[0]))
  }

  function PopBack<T>(q: Fifo<T>): (Fifo<T>, Option<WaitEntry<T>>) {
    if q.items == [] then (q, None)
    else (Without(q, |q.items| - 1), Some(q.items[|q.items| - 1]))
  }

  /** Position of the earliest deadline; equal deadlines are won by the earlier admission. */
  function Earliest<T>(items: seq<WaitEntry<T>>): (i: nat)
    requires items != []
    ensures i < |items|
    ensures forall j :: 0 <= j < |items| ==> items[i].deadline <= items[j].deadline
    ensures forall j :: 0 <= j < i ==> items[i].deadline < items[j].deadline
  {
    var last := |items| - 1;
    if last == 0 then 0
    else
      var r := Earliest(items[..last]);
      if items[last].deadline < items[r].deadline then last else r
  }

  function TakeDue<T>(q: Fifo<T>, now: Moment): (Fifo<T>, Option<WaitEntry<T>>) {
    if q.items == [] then (q, None)
    else
      var i := Earliest(q.items);
      if q.items[i].deadline > now then (q, None) else (Without(q, i), Some(q.items[i]))
  }

  function NextDeadline<T>(q: Fifo<T>): Option<Moment> {
    if q.items == [] then None else Some(q.items[Earliest(q.items)].deadline)
  }

  /** The reported deadline is due exactly when some entry is due. */
  lemma NextDeadlineTells<T>(q: Fifo<T>, now: Moment)
    ensures NextDeadline(q).Some? && NextDeadline(q).value <= now
      <==> exists i :: 0 <= i < |q.items| && q.items[i].deadline <= now
  {
    if q.items != [] {
      var first := q.items[Earliest(q.items)];
    }
  }

  function ScanPosition<T>(q: Fifo<T>): nat {
    if q.scanned < |q.items| then q.scanned else 0
  }

  function ScanOne<T>(q: Fifo<T>, matches: T -> bool): (Fifo<T>, Option<WaitEntry<T>>) {
    if q.items == [] then (q, None)
    else
      var i := ScanPosition(q);
      if matches(q.items[i].value) then (Without(q.(scanned := i + 1), i), Some(q.items[i]))
      else (q.(scanned := i + 1), None)
  }

  function Drain<T>(q: Fifo<T>): (Fifo<T>, seq<WaitEntry<T>>) {
    (Fifo([], 0, 0), q.items)
  }

  /** Up to `n` consecutive expirations at one instant. */
  function Expire<T>(q: Fifo<T>, now: Moment, n: nat): (Fifo<T>, seq<WaitEntry<T>>)
    decreases n
  {
    if n == 0 then (q, [])
    else
      var (rest, taken) := TakeDue(q, now);
      if taken.None? then (q, [])
      else
        var (last, others) := Expire(rest, now, n - 1);
        (last, [taken.value] + others)
  }

  function At<T>(deadline: Moment): WaitEntry<T> -> bool { (e: WaitEntry<T>) => e.deadline == deadline }

  function LiveAfter<T>(now: Moment): WaitEntry<T> -> bool { (e: WaitEntry<T>) => e.deadline > now }

  /**
   * Expiry takes due entries earliest deadline first and stops early only when nothing is due;
   * entries that are not due stay, in order.
   */
  lemma {:induction false} ExpireTakesEarliest<T>(q: Fifo<T>, now: Moment, n: nat)
    ensures var (rest, taken) := Expire(q, now, n);
      && |taken| <= n
      && (forall i :: 0 <= i < |taken| ==> taken[i].deadline <= now)
      && (forall i, j :: 0 <= i < j < |taken| ==> taken[i].deadline <= taken[j].deadline)
      && (forall i, j :: 0 <= i < |taken| && 0 <= j < |rest.items| ==> taken[i].deadline <= rest.items[j].deadline)
      && Keep(LiveAfter(now), rest.items) == Keep(LiveAfter(now), q.items)
      && (|taken| < n ==> rest.items == Keep(LiveAfter(now), q.items))
    decreases n
  {
    hide Keep, Earliest, DropAt, Without;
    var (rest, taken) := TakeDue(q, now);
    if n == 0 || taken.None? {
      if n > 0 {
        KeepAll(LiveAfter(now), q.items);
      }
    } else {
      DueStep(q, now);
      ExpireTakesEarliest(rest, now, n - 1);
      ExpiredWereQueued(rest, now, n - 1, taken.value.deadline);
    }
  }

  lemma DueStep<T>(q: Fifo<T>, now: Moment)
    requires TakeDue(q, now).1.Some?
    ensures var (rest, taken) := TakeDue(q, now);
      && taken.value.deadline <= now
      && (forall j :: 0 <= j < |rest.items| ==> taken.value.deadline <= rest.items[j].deadline)
      && Keep(LiveAfter(now), rest.items) == Keep(LiveAfter(now), q.items)
  {
    hide Keep, Earliest;
    KeepDropRefused(LiveAfter(now), q.items, Earliest(q.items));
  }

  /** Nothing is taken or left that was not queued. */
  lemma {:induction false} ExpiredWereQueued<T>(q: Fifo<T>, now: Moment, n: nat, floor: Moment)
    requires forall j :: 0 <= j < |q.items| ==> floor <= q.items[j].deadline
    ensures var (rest, taken) := Expire(q, now, n);
      && |taken| + |rest.items| == |q.items|
      && (forall i :: 0 <= i < |taken| ==> floor <= taken[i].deadline)
      && (forall j :: 0 <= j < |rest.items| ==> floor <= rest.items[j].deadline)
    decreases n
  {
    hide Earliest;
    var (rest, taken) := TakeDue(q, now);
    if n > 0 && taken.Some? {
      ExpiredWereQueued(rest, now, n - 1, floor);
    }
  }

  lemma TieStep<T>(q: Fifo<T>, now: Moment, d: Moment)
    requires TakeDue(q, now).1.Some?
    ensures var (rest, taken) := TakeDue(q, now);
      Keep(At(d), q.items) == Keep(At(d), [taken.value]) + Keep(At(d), rest.items)
  {
    hide Keep, Earliest;
    var i := Earliest(q.items);
    KeepOne(At(d), q.items[i]);
    if q.items[i].deadline == d {
      KeepDropFirst(At(d), q.items, i);
    } else {
      KeepDropRefused(At(d), q.items, i);
    }
  }

  /** Among equal deadlines expiry follows admission order, and loses or repeats nothing. */
  lemma {:induction false} ExpireBreaksTiesByAdmission<T>(q: Fifo<T>, now: Moment, n: nat, d: Moment)
    ensures var (rest, taken) := Expire(q, now, n);
      Keep(At(d), q.items) == Keep(At(d), taken) + Keep(At(d), rest.items)
    decreases n
  {
    hide Keep, Earliest, DropAt, Without, At;
    var (rest, taken) := TakeDue(q, now);
    if n == 0 || taken.None? {
      KeepNone(At<T>(d), []);
    } else {
      TieStep(q, now, d);
      ExpireBreaksTiesByAdmission(rest, now, n - 1, d);
      KeepConcat(At(d), [taken.value], Expire(rest, now, n - 1).1);
    }
  }
}
