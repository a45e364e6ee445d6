/** Whole runs of a wait queue, answered as a plain list answers them. */
module WaitQueueRuns {
  import opened Common
  import opened WaitQueueSpec
  import opened WaitQueues

  datatype Op<!T> =
    | Push(value: T, deadline: Moment)
    | Rotate(value: T, deadline: Moment)
    | PopFirst
    | PopLast
    | Scan(matches: T -> bool)
    | Due(now: Moment)
    | Peek
    | DrainAll

  datatype Answer<+T> =
    | Accepted(accepted: bool)
    | Taken(taken: Option<WaitEntry<T>>)
    | Deadline(deadline: Option<Moment>)
    | Drained(values: seq<T>)

  function Step<T>(q: Fifo<T>, capacity: nat, op: Op<T>): (Fifo<T>, Answer<T>) {
    match op
    case Push(v, d) => var (r, ok) := Insert(q, capacity, WaitEntry(v, d)); (r, Accepted(ok))
    case Rotate(v, d) => var (r, ok) := Insert(q, capacity, WaitEntry(v, d)); (r, Accepted(ok))
    case PopFirst => var (r, t) := PopFront(q); (r, Taken(t))
    case PopLast => var (r, t) := PopBack(q); (r, Taken(t))
    case Scan(p) => var (r, t) := ScanOne(q, p); (r, Taken(t))
    case Due(now) => var (r, t) := TakeDue(q, now); (r, Taken(t))
    case Peek => (q, Deadline(NextDeadline(q)))
    case DrainAll => (Fifo([], 0, 0), Drained(ValuesOf(q.items)))
  }

  function Answers<T>(q: Fifo<T>, capacity: nat, ops: seq<Op<T>>): seq<Answer<T>>
    decreases |ops|
  {
    if ops == [] then []
    else
      var (next, answer) := Step(q, capacity, ops[0]);
      [answer] + Answers(next, capacity, ops[1..])
  }

  method Perform<T>(queue: WaitQueue<T>, op: Op<T>) returns (answer: Answer<T>)
    requires queue.Valid()
    modifies queue
    ensures queue.Valid()
    ensures (queue.View(), answer) == Step(old(queue.View()), queue.capacity, op)
  {
    hide WaitQueue.Valid, WaitQueue.View, Insert, PopFront, PopBack, ScanOne, TakeDue, NextDeadline;
    match op {
      case Push(v, d) => var ok := queue.Push(v, d); answer := Accepted(ok);
      case Rotate(v, d) => var ok := queue.RotateBack(v, d); answer := Accepted(ok);
      case PopFirst => var t := queue.PopFront(); answer := Taken(t);
      case PopLast => var t := queue.PopBack(); answer := Taken(t);
      case Scan(p) => var t := queue.ScanOne(p); answer := Taken(t);
      case Due(now) => var t := queue.TakeDue(now); answer := Taken(t);
      case Peek => answer := Deadline(queue.NextDeadline());
      case DrainAll => var values := queue.Drain(); answer := Drained(values);
    }
  }

  /** Every sequence of operations on a new queue is answered as the plain list answers it. */
  method Run<T>(capacity: nat, ops: seq<Op<T>>) returns (answers: seq<Answer<T>>)
    requires 1 <= capacity <= USIZE_MAX
    ensures answers == Answers(Fifo([], 0, 0), capacity, ops)
  {
    hide Step, WaitQueue.Valid, WaitQueue.View;
    var queue := new WaitQueue<T>(capacity);
    answers := [];
    var i := 0;
    assert ops[0..] == ops;
    while i < |ops|
      invariant i <= |ops| && queue.Valid() && queue.capacity == capacity && fresh(queue)
      invariant answers + Answers(queue.View(), capacity, ops[i..]) == Answers(Fifo([], 0, 0), capacity, ops)
    {
      ghost var here := queue.View();
      var answer := Perform(queue, ops[i]);
      assert ops[i..][1..] == ops[i + 1..];
      Regroup(answers, answer, Answers(queue.View(), capacity, ops[i + 1..]));
      answers := answers + [answer];
      i := i + 1;
    }
    assert ops[i..] == [];
  }

  /** Two queues holding the same entries, whatever their numbering and cursor. */
  ghost predicate SameEntries<T>(a: Fifo<T>, b: Fifo<T>) {
    a.items == b.items
  }

  lemma {:induction false} NumberingUnseen<T>(a: Fifo<T>, b: Fifo<T>, capacity: nat, ops: seq<Op<T>>)
    requires SameEntries(a, b)
    requires forall i :: 0 <= i < |ops| ==> !ops[i].Scan?
    ensures Answers(a, capacity, ops) == Answers(b, capacity, ops)
    decreases |ops|
  {
    if ops != [] {
      assert !ops[0].Scan?;
      NumberingUnseen(Step(a, capacity, ops[0]).0, Step(b, capacity, ops[0]).0, capacity, ops[1..]);
    }
  }
}
