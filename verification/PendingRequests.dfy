/** `PendingRequests` of src/reactor/direct_plaintext/pending.rs: calls waiting for a ready session. */
module PendingCalls {
  import opened Common
  import opened OrderedKeys
  import opened WaitQueueSpec
  import opened WaitQueues
  import opened Requests
  import opened Filters
  import opened RouteWaitingCalls

  function CallsOf(items: seq<Waiting>): (calls: seq<CallId>)
    ensures |calls| == |items|
    ensures forall i :: 0 <= i < |items| ==> calls[i] == items[i].value.request.call
  {
    seq(|items|, i requires 0 <= i < |items| => items[i].value.request.call)
  }

  ghost predicate AllFixed(items: seq<Waiting>) { forall i :: 0 <= i < |items| ==> Fixed(items[i]) }

  class PendingRequests {
    const requests: WaitQueue<WaitingCall>
    const countLimit: nat
    const byteLimit: nat
    var retainedBytes: nat

    ghost predicate Valid()
      reads this, requests
    {
      // Compared with true so that the conjunction is proved as one obligation.
      true == (
        && requests.Valid()
        && requests.capacity == countLimit
        && retainedBytes <= byteLimit <= USIZE_MAX
        && retainedBytes == Sum(Charge, requests.View().items)
        && AllFixed(requests.View().items))
    }

    ghost function Items(): seq<Waiting>
      requires Valid()
      reads this, requests
    {
      requests.View().items
    }

    constructor (countLimit: nat, byteLimit: nat)
      requires 1 <= countLimit <= USIZE_MAX && 1 <= byteLimit <= USIZE_MAX
      ensures Valid() && Items() == [] && fresh(requests)
      ensures this.countLimit == countLimit && this.byteLimit == byteLimit
    {
      requests := new WaitQueue<WaitingCall>(countLimit);
      this.countLimit, this.byteLimit, retainedBytes := countLimit, byteLimit, 0;
    }

    /** Returns the error the call is completed with, if it is not retained. */
    method Push(request: Request, now: Moment) returns (refused: Option<RequestError>)
      requires Valid()
      modifies this, requests
      ensures Valid()
      ensures refused == Refusal(request, request.bytes, now, |old(Items())|, old(retainedBytes), countLimit, byteLimit)
      ensures Items() == if refused.Some? then old(Items())
                         else old(Items()) + [Held(request, Establish(request, now).value)]
    {
      hide WaitQueue.Valid, WaitQueue.View, Sum;
      var deadline := Establish(request, now);
      if deadline.None? {
        return Some(DeadlineOverflow);
      }
      if deadline.value <= now {
        return Some(EXPIRED);
      }
      var total := CheckedAdd(retainedBytes, request.bytes);
      if requests.Len() == countLimit || total.None? || total.value > byteLimit {
        return Some(RouteCapacityReached(countLimit, byteLimit));
      }
      var held := Held(request, deadline.value);
      SumConcat(Charge, requests.View().items, [held]);
      SumOne(Charge, held);
      var accepted := requests.Push(held.value, held.deadline);
      retainedBytes := total.value;
      refused := None;
    }

    method Pop() returns (taken: Option<Request>)
      requires Valid()
      modifies this, requests
      ensures Valid()
      ensures var items := old(Items());
        if items == [] then taken == None && Items() == []
        else taken == Some(items[0].value.request) && Items() == items[1..]
      ensures requests.View() == PopFront(old(requests.View())).0
    {
      hide WaitQueue.Valid, WaitQueue.View, Sum;
      ghost var items := Items();
      var front := requests.PopFront();
      if front.None? {
        return None;
      }
      SumWithout(Charge, items, 0);
      retainedBytes := retainedBytes - front.value.value.bytes;
      taken := Some(front.value.value.request);
    }

    method ExpireOne(now: Moment) returns (taken: Option<Waiting>)
      requires Valid()
      modifies this, requests
      ensures Valid()
      ensures var r := TakeDue(old(requests.View()), now); requests.View() == r.0 && taken == r.1
    {
      hide WaitQueue.Valid, WaitQueue.View, Sum, Earliest;
      ghost var here := requests.View();
      taken := requests.TakeDue(now);
      if taken.Some? {
        SumWithout(Charge, here.items, Earliest(here.items));
        retainedBytes := retainedBytes - taken.value.value.bytes;
      }
    }

    /** Returns the calls that ran out of time, in the order they are completed. */
    method ExpireDue(now: Moment, budget: nat) returns (expired: seq<CallId>, moreDue: bool)
      requires Valid()
      modifies this, requests
      ensures Valid()
      ensures var (rest, taken) := Expire(old(requests.View()), now, budget);
        requests.View() == rest && expired == CallsOf(taken)
      ensures |expired| <= budget
      ensures multiset(CallsOf(old(Items()))) == multiset(CallsOf(Items())) + multiset(expired)
      ensures moreDue <==> exists i :: 0 <= i < |Items()| && Items()[i].deadline <= now
    {
      hide WaitQueue.Valid, WaitQueue.View, Sum, Earliest, CallsOf, DropAt, Without;
      ghost var q := requests.View();
      ghost var taken: seq<Waiting> := [];
      expired := [];
      var count := 0;
      assert [] + Expire(q, now, budget).1 == Expire(q, now, budget).1;
      while count < budget
        invariant Valid() && count == |taken| <= budget
        invariant Expire(q, now, budget).0 == Expire(requests.View(), now, budget - count).0
        invariant Expire(q, now, budget).1 == taken + Expire(requests.View(), now, budget - count).1
        invariant expired == CallsOf(taken)
      {
        var due := ExpireOne(now);
        if due.None? {
          break;
        }
        Regroup(taken, due.value, Expire(requests.View(), now, budget - count - 1).1);
        CallsOfSnoc(taken, due.value);
        expired := expired + [due.value.value.request.call];
        taken := taken + [due.value];
        count := count + 1;
      }
      assert Expire(requests.View(), now, budget - count) == (requests.View(), []);
      assert taken + [] == taken;
      ghost var left := requests.View();
      NextDeadlineTells(left, now);
      ExpireConserves(q, now, budget);
      var next := requests.NextDeadline();
      moreDue := next.Some? && next.value <= now;
      assert Items() == left.items;
    }
  }

  lemma CallsOfSnoc(items: seq<Waiting>, e: Waiting)
    ensures CallsOf(items + [e]) == CallsOf(items) + [e.value.request.call]
  {
  }

  lemma CallsWithout(items: seq<Waiting>, i: nat)
    requires i < |items|
    ensures multiset(CallsOf(items)) == multiset(CallsOf(DropAt(items, i))) + multiset{items[i].value.request.call}
  {
    var calls := CallsOf(items);
    assert calls == calls[..i] + [calls[i]] + calls[i + 1..];
    assert CallsOf(DropAt(items, i)) == calls[..i] + calls[i + 1..];
  }

  /** Expiry neither loses nor repeats a call. */
  lemma {:induction false} ExpireConserves(q: Fifo<WaitingCall>, now: Moment, n: nat)
    ensures var (rest, taken) := Expire(q, now, n);
      multiset(CallsOf(q.items)) == multiset(CallsOf(rest.items)) + multiset(CallsOf(taken))
    decreases n
  {
    hide Earliest, CallsOf, DropAt;
    var (rest, taken) := TakeDue(q, now);
    if n == 0 || taken.None? {
      assert CallsOf([]) == [];
    } else {
      CallsWithout(q.items, Earliest(q.items));
      ExpireConserves(rest, now, n - 1);
      var others := Expire(rest, now, n - 1).1;
      assert CallsOf([taken.value] + others) == [taken.value.value.request.call] + CallsOf(others);
    }
  }
}
