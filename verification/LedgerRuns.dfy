/** Every interleaving of reserve, bind, publish, abort, drop and release over one context ledger. */
module LedgerRuns {
  import opened Common
  import opened Contexts
  import opened Filters
  import opened Totals

  datatype LedgerOp<!C> =
    | ReserveOp(context: C, bytes: nat)
    | BindOp(index: nat, bind: C -> C)
    | PublishOp(index: nat, key: Key)
    | AbortOp(index: nat)
    | DropOp(index: nat)
    | ReleaseOp(key: Key)
    | ReleaseNextOp

  /** A context that came back out, with the ticket it was reserved under. */
  datatype Handed<+C> = Handed(ticket: nat, context: C)

  /**
   * `bound`: what each ticket was reserved with, as bound since. `handed`: what abort, refused publication and
   * release gave back, in order. `dropped`: tickets whose reservation was dropped with its context.
   */
  datatype Account<C> = Account(bound: seq<C>, handed: seq<Handed<C>>, dropped: set<nat>)

  /** Every ticket that ended was dropped or handed back, exactly one of them and once, with its own context. */
  ghost predicate Settled<C>(places: seq<Place>, a: Account<C>) {
    && |a.bound| == |places|
    && (forall i :: 0 <= i < |a.handed| ==>
          && a.handed[i].ticket < |places| && places[a.handed[i].ticket].Ended?
          && a.handed[i].ticket !in a.dropped && a.handed[i].context == a.bound[a.handed[i].ticket])
    && (forall i, j :: 0 <= i < j < |a.handed| ==> a.handed[i].ticket != a.handed[j].ticket)
    && (forall t :: t in a.dropped ==> t < |places| && places[t].Ended?)
    && (forall t :: 0 <= t < |places| && places[t].Ended? && t !in a.dropped ==> GivenBack(a, t))
  }

  ghost predicate GivenBack<C>(a: Account<C>, t: nat) {
    exists i :: 0 <= i < |a.handed| && a.handed[i].ticket == t
  }

  /** What the ledger has published under a key is the context of the ticket that owns the key. */
  ghost predicate Filed<C>(published: map<Key, Published<C>>, owners: map<Key, nat>, bound: seq<C>) {
    forall k :: k in published ==> k in owners && owners[k] < |bound| && published[k].context == bound[owners[k]]
  }

  /** Callers holding any number of reservations at once. */
  class LedgerHost<!C> {
    const state: ContextState<C>
    var open: seq<ContextReservation<C>>
    ghost var account: Account<C>

    /** The open reservations are the live tickets, each with its own context, and the accounts are settled. */
    ghost predicate Valid()
      reads this, state, open
    {
      // Compared with true so that the conjunction is proved as one obligation.
      true == (
        && state.Valid()
        && state.reserved == |open|
        && (forall i :: 0 <= i < |open| ==> open[i].Holds(state))
        && (forall i, j :: 0 <= i < j < |open| ==> open[i].ticket != open[j].ticket)
        && Settled(state.places, account)
        && (forall i :: 0 <= i < |open| ==> open[i].context == Some(account.bound[open[i].ticket]))
        && Filed(state.published, state.owners, account.bound))
    }

    constructor (maxContexts: nat, maxBytes: nat)
      requires 1 <= maxContexts <= USIZE_MAX && maxBytes <= U64_MAX
      ensures Valid() && open == [] && fresh(state) && state.places == [] && account == Account([], [], {})
    {
      state := new ContextState<C>(maxContexts, maxBytes);
      open, account := [], Account([], [], {});
    }

    method Reserve(context: C, bytes: nat)
      requires Valid()
      modifies this, state
      ensures Valid() && forall k :: 0 <= k < |open| ==> open[k] in old(open) || fresh(open[k])
      ensures |open| == |old(open)| ==> account == old(account)
      ensures |open| != |old(open)| ==> account == old(account).(bound := old(account).bound + [context])
    {
      hide ContextState.Valid, Settled, Filed;
      ghost var places, owners := state.places, state.owners;
      SettledSize(places, account);
      var r := state.Reserve(context, bytes);
      if r.Granted? {
        SettledMore(places, account, bytes, context);
        FiledMore(state.published, owners, account.bound, context);
        account := account.(bound := account.bound + [context]);
        open := open + [r.reservation];
      }
    }

    method Bind(i: nat, bind: C -> C)
      requires Valid() && i < |open|
      modifies this`account, open[i]
      ensures Valid()
      ensures account == old(account).(bound :=
        old(account).bound[open[i].ticket := bind(old(account).bound[open[i].ticket])])
    {
      hide ContextState.Valid, Settled, Filed, Ticketed;
      ghost var t := open[i].ticket;
      SettledSize(state.places, account);
      var c := account.bound[t];
      TicketsKnown(state);
      SettledBound(state.places, account, t, bind(c));
      FiledBound(state.published, state.owners, state.places, account.bound, t, bind(c));
      var answer := open[i].Bind((c: C) => (bind(c), ()));
      account := account.(bound := account.bound[t := bind(c)]);
    }

    /** Publishing consumes the reservation; a refused publication hands the context back. */
    method Publish(i: nat, key: Key) returns (refused: Option<C>)
      requires Valid() && i < |open|
      modifies this, state, open[i]
      ensures Valid() && open == old(open[..i] + open[i + 1..])
      ensures account == if key in old(state.published) then HandBack(old(account), old(open[i].ticket)) else old(account)
      ensures refused == if key in old(state.published) then Some(old(account).bound[old(open[i].ticket)]) else None
    {
      hide ContextState.Valid, Settled, Filed;
      ghost var t, places := open[i].ticket, state.places;
      SettledSize(places, account);
      ghost var published, owners := state.published, state.owners;
      refused := open[i].Publish(key);
      if refused.Some? {
        SettledHanded(places, account, t);
        account := account.(handed := account.handed + [Handed(t, refused.value)]);
      } else {
        SettledMoved(places, account, t, key);
        FiledWith(published, owners, account.bound, key, t, open[i].bytes);
      }
      Close(i);
    }

    /** An active reservation that is dropped rolls back as one that is aborted, and keeps its context. */
    method Abort(i: nat, dropped: bool) returns (context: Option<C>)
      requires Valid() && i < |open|
      modifies this, state, open[i]
      ensures Valid() && open == old(open[..i] + open[i + 1..])
      ensures account ==
        if dropped then old(account).(dropped := old(account).dropped + {old(open[i].ticket)})
        else HandBack(old(account), old(open[i].ticket))
      ensures context == if dropped then None else Some(old(account).bound[old(open[i].ticket)])
    {
      hide ContextState.Valid, Settled, Filed;
      ghost var t, places := open[i].ticket, state.places;
      SettledSize(places, account);
      if dropped {
        SettledDropped(places, account, t);
        account := account.(dropped := account.dropped + {t});
        open[i].Drop();
        context := None;
      } else {
        SettledHanded(places, account, t);
        var c := open[i].Abort();
        account := account.(handed := account.handed + [Handed(t, c)]);
        context := Some(c);
      }
      Close(i);
    }

    /** Forgets a reservation that has ended. */
    method Close(i: nat)
      requires i < |open| && state.Valid() && state.reserved == |open| - 1
      requires forall k :: 0 <= k < |open| && k != i ==> open[k].Holds(state)
      requires forall j, k :: 0 <= j < k < |open| ==> open[j].ticket != open[k].ticket
      requires Settled(state.places, account) && Filed(state.published, state.owners, account.bound)
      requires forall k :: 0 <= k < |open| && k != i ==>
        open[k].ticket < |account.bound| && open[k].context == Some(account.bound[open[k].ticket])
      modifies this`open
      ensures Valid() && open == old(open[..i] + open[i + 1..])
    {
      hide ContextState.Valid, Settled, Filed;
      SettledSize(state.places, account);
      open := open[..i] + open[i + 1..];
    }

    method Release(key: Key) returns (context: Option<C>)
      requires Valid()
      modifies this, state
      ensures Valid() && open == old(open)
      ensures context.Some? <==> key in old(state.published)
      ensures context.None? ==> account == old(account)
      ensures context.Some? ==> key in old(state.owners) && old(state.owners)[key] < |old(account).bound|
      ensures context.Some? ==>
        && account == HandBack(old(account), old(state.owners)[key])
        && context.value == old(account).bound[old(state.owners)[key]]
    {
      hide ContextState.Valid, Settled, Filed;
      ghost var places, owners := state.places, state.owners;
      SettledSize(places, account);
      FiledAt(state.published, owners, account.bound, key);
      context := state.Release(key);
      if context.Some? {
        ghost var t := owners[key];
        SettledHanded(places, account, t);
        account := account.(handed := account.handed + [Handed(t, context.value)]);
      }
    }

    method ReleaseNext() returns (taken: Option<(Key, C)>)
      requires Valid()
      modifies this, state
      ensures Valid() && open == old(open)
      ensures taken.Some? <==> old(state.published) != map[]
      ensures taken.Some? ==> IsFirst(old(state.published).Keys, taken.value.0)
      ensures taken.None? ==> account == old(account)
      ensures taken.Some? ==>
        && taken.value.0 in old(state.owners) && old(state.owners)[taken.value.0] < |old(account).bound|
        && account == HandBack(old(account), old(state.owners)[taken.value.0])
        && taken.value.1 == old(account).bound[old(state.owners)[taken.value.0]]
    {
      hide ContextState.Valid, Settled, Filed;
      if state.published == map[] {
        return None;
      }
      assert state.published.Keys != {};
      FirstExists(state.published.Keys);
      var key :| IsFirst(state.published.Keys, key);
      var context := Release(key);
      taken := Some((key, context.value));
    }

    /** An operation naming no open reservation does nothing. */
    method Perform(op: LedgerOp<C>)
      requires Valid()
      modifies this, state, open
      ensures Valid() && forall k :: 0 <= k < |open| ==> open[k] in old(open) || fresh(open[k])
    {
      hide Valid;
      match op
      case ReserveOp(context, bytes) => Reserve(context, bytes);
      case BindOp(i, bind) => if i < |open| { Bind(i, bind); }
      case PublishOp(i, key) => if i < |open| { var refused := Publish(i, key); }
      case AbortOp(i) => if i < |open| { var context := Abort(i, false); }
      case DropOp(i) => if i < |open| { var none := Abort(i, true); }
      case ReleaseOp(key) => var context := Release(key);
      case ReleaseNextOp => var taken := ReleaseNext();
    }
  }

  /** The account after a ticket hands its own context back. */
  ghost function HandBack<C>(a: Account<C>, t: nat): Account<C>
    requires t < |a.bound|
  {
    a.(handed := a.handed + [Handed(t, a.bound[t])])
  }

  lemma TicketsKnown<C>(state: ContextState<C>)
    requires state.Valid()
    ensures Ticketed(state.published, state.places, state.owners)
  {
  }

  lemma FiledAt<C>(published: map<Key, Published<C>>, owners: map<Key, nat>, bound: seq<C>, key: Key)
    requires Filed(published, owners, bound)
    ensures Filed(published - {key}, owners - {key}, bound)
    ensures key in published ==> key in owners && owners[key] < |bound| && published[key].context == bound[owners[key]]
  {
  }

  lemma FiledWith<C>(published: map<Key, Published<C>>, owners: map<Key, nat>, bound: seq<C>, key: Key, t: nat, bytes: nat)
    requires Filed(published, owners, bound) && t < |bound|
    ensures Filed(published[key := Published(bound[t], bytes)], owners[key := t], bound)
  {
  }

  /**
   * In every run: reserved is the number of open reservations, both bounds hold, the charges are exactly
   * those of live and published contexts, poison is never reached, and every context ever accepted is still
   * held by its reservation or under its key, was dropped with its reservation, or was handed back exactly
   * once as the context that ticket was reserved and bound with.
   */
  method Run<C>(maxContexts: nat, maxBytes: nat, script: seq<LedgerOp<C>>) returns (host: LedgerHost<C>)
    requires 1 <= maxContexts <= USIZE_MAX && maxBytes <= U64_MAX
    ensures host.Valid() && !host.state.poisoned
    ensures host.state.reserved == |host.open| && host.state.reserved + |host.state.published| <= host.state.maxContexts
    ensures host.state.retained == Sum(LiveBytes, host.state.places) + Total(Charges(host.state.published)) <= host.state.maxBytes
    ensures Settled(host.state.places, host.account)
    ensures Filed(host.state.published, host.state.owners, host.account.bound)
    ensures forall i :: 0 <= i < |host.open| ==>
      host.open[i].ticket < |host.account.bound| && host.open[i].context == Some(host.account.bound[host.open[i].ticket])
  {
    hide LedgerHost.Valid, Settled, Filed;
    host := new LedgerHost<C>(maxContexts, maxBytes);
    for i := 0 to |script|
      invariant host.Valid() && fresh(host) && fresh(host.state)
      invariant forall k :: 0 <= k < |host.open| ==> fresh(host.open[k])
    {
      host.Perform(script[i]);
    }
    Conserved(host);
  }

  lemma Conserved<C>(host: LedgerHost<C>)
    requires host.Valid()
    ensures !host.state.poisoned
    ensures host.state.reserved == |host.open| && host.state.reserved + |host.state.published| <= host.state.maxContexts
    ensures host.state.retained == Sum(LiveBytes, host.state.places) + Total(Charges(host.state.published)) <= host.state.maxBytes
    ensures Settled(host.state.places, host.account)
    ensures Filed(host.state.published, host.state.owners, host.account.bound)
    ensures forall i :: 0 <= i < |host.open| ==>
      host.open[i].ticket < |host.account.bound| && host.open[i].context == Some(host.account.bound[host.open[i].ticket])
  {
  }

  lemma SettledSize<C>(places: seq<Place>, a: Account<C>)
    requires Settled(places, a)
    ensures |a.bound| == |places|
  {
  }

  lemma SettledMore<C>(places: seq<Place>, a: Account<C>, bytes: nat, context: C)
    requires Settled(places, a)
    ensures Settled(places + [Live(bytes)], a.(bound := a.bound + [context]))
  {
    forall t | 0 <= t < |places| && places[t].Ended? && t !in a.dropped ensures GivenBack(a.(bound := a.bound + [context]), t) {
      assert GivenBack(a, t);
    }
  }

  lemma FiledMore<C>(published: map<Key, Published<C>>, owners: map<Key, nat>, bound: seq<C>, context: C)
    requires Filed(published, owners, bound)
    ensures Filed(published, owners, bound + [context])
  {
  }

  /** A ticket ends by dropping its reservation. */
  lemma SettledDropped<C>(places: seq<Place>, a: Account<C>, t: nat)
    requires Settled(places, a) && t < |places| && !places[t].Ended?
    ensures Settled(places[t := Ended], a.(dropped := a.dropped + {t}))
  {
    var after := a.(dropped := a.dropped + {t});
    forall u | 0 <= u < |places| && places[u].Ended? && u !in a.dropped && u != t ensures GivenBack(after, u) {
      assert GivenBack(a, u);
    }
  }

  /** A ticket ends by handing its own context back. */
  lemma SettledHanded<C>(places: seq<Place>, a: Account<C>, t: nat)
    requires Settled(places, a) && t < |places| && !places[t].Ended?
    ensures Settled(places[t := Ended], a.(handed := a.handed + [Handed(t, a.bound[t])]))
  {
    var after := a.(handed := a.handed + [Handed(t, a.bound[t])]);
    assert after.handed[|a.handed|].ticket == t;
    assert GivenBack(after, t);
    forall u | 0 <= u < |places| && places[u].Ended? && u !in a.dropped ensures GivenBack(after, u) {
      assert GivenBack(a, u);
      var i :| 0 <= i < |a.handed| && a.handed[i].ticket == u;
      assert after.handed[i].ticket == u;
    }
  }

  lemma SettledMoved<C>(places: seq<Place>, a: Account<C>, t: nat, key: Key)
    requires Settled(places, a) && t < |places| && !places[t].Ended?
    ensures Settled(places[t := At(key)], a)
  {
  }

  /** Only a live ticket is bound again, so nothing handed back changes. */
  lemma SettledBound<C>(places: seq<Place>, a: Account<C>, t: nat, context: C)
    requires Settled(places, a) && t < |places| && !places[t].Ended?
    ensures Settled(places, a.(bound := a.bound[t := context]))
  {
    var after := a.(bound := a.bound[t := context]);
    forall u | 0 <= u < |places| && places[u].Ended? && u !in a.dropped ensures GivenBack(after, u) {
      assert GivenBack(a, u);
    }
  }

  lemma FiledBound<C>(published: map<Key, Published<C>>, owners: map<Key, nat>, places: seq<Place>, bound: seq<C>, t: nat, context: C)
    requires Filed(published, owners, bound) && Ticketed(published, places, owners)
    requires t < |places| && |bound| == |places| && places[t].Live?
    ensures Filed(published, owners, bound[t := context])
  {
  }
}
