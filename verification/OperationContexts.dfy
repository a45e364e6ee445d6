/**
 * The bounded ledger of semantic contexts around a Bornera commit: `ContextState` of
 * src/reactor/bornera/contexts.rs and `ContextReservation` of src/reactor/bornera/reservation.rs.
 */
module Contexts {
  import opened Common
  import opened Totals
  import opened Filters

  datatype Key = Key(epoch: nat, operation: nat)

  predicate KeyLess(a: Key, b: Key) {
    a.epoch < b.epoch || (a.epoch == b.epoch && a.operation < b.operation)
  }

  predicate IsFirst(s: set<Key>, k: Key) {
    k in s && forall j :: j in s && j != k ==> KeyLess(k, j)
  }

  lemma {:induction false} FirstExists(s: set<Key>)
    requires s != {}
    ensures exists k :: IsFirst(s, k)
    decreases |s|
  {
    var any :| any in s;
    var others := s - {any};
    if others == {} {
      assert s == {any};
      assert IsFirst(s, any);
    } else {
      FirstExists(others);
      var first :| IsFirst(others, first);
      assert s == others + {any};
      assert IsFirst(s, if KeyLess(any, first) then any else first);
    }
  }

  datatype Published<+C> = Published(context: C, bytes: nat)

  datatype ReserveFailure = OwnerPoisoned | CapacityReached | RetainedByteCapacity

  function Charges<C>(published: map<Key, Published<C>>): map<Key, nat> {
    map k | k in published :: published[k].bytes
  }

  function ContextsOf<C>(published: map<Key, Published<C>>): map<Key, C> {
    map k | k in published :: published[k].context
  }

  /** Where the context of one reservation ticket is; `Ended` once handed back or dropped. */
  datatype Place = Live(bytes: nat) | At(key: Key) | Ended

  function LiveCount(p: Place): nat { if p.Live? then 1 else 0 }

  function LiveBytes(p: Place): nat { if p.Live? then p.bytes else 0 }

  /** Counters and charges agree with the contexts held. */
  ghost predicate Charged<C>(published: map<Key, Published<C>>, reserved: nat, retained: nat, places: seq<Place>) {
    && reserved == Sum(LiveCount, places)
    && retained == Sum(LiveBytes, places) + Total(Charges(published))
  }

  /** Every published key belongs to one ticket and every ticket at a key is that key's. */
  ghost predicate Ticketed<C>(published: map<Key, Published<C>>, places: seq<Place>, owners: map<Key, nat>) {
    && owners.Keys == published.Keys
    && (forall k :: k in published ==> owners[k] < |places| && places[owners[k]] == At(k))
    && (forall t :: 0 <= t < |places| && places[t].At? ==> places[t].key in owners && owners[places[t].key] == t)
  }

  lemma EndCharge<C>(published: map<Key, Published<C>>, reserved: nat, retained: nat, places: seq<Place>, t: nat)
    requires Charged(published, reserved, retained, places) && t < |places| && places[t].Live?
    ensures reserved > 0 && retained >= places[t].bytes
    ensures Charged(published, reserved - 1, retained - places[t].bytes, places[t := Ended])
  {
    SumUpdate(LiveCount, places, t, Ended);
    SumUpdate(LiveBytes, places, t, Ended);
  }

  lemma PublishCharge<C>(published: map<Key, Published<C>>, reserved: nat, retained: nat, places: seq<Place>,
                         t: nat, key: Key, c: C)
    requires Charged(published, reserved, retained, places) && t < |places| && places[t].Live? && key !in published
    ensures reserved > 0
    ensures Charged(published[key := Published(c, places[t].bytes)], reserved - 1, retained, places[t := At(key)])
  {
    SumUpdate(LiveCount, places, t, At(key));
    SumUpdate(LiveBytes, places, t, At(key));
    TotalWith(Charges(published), key, places[t].bytes);
    assert Charges(published[key := Published(c, places[t].bytes)]) == Charges(published)[key := places[t].bytes];
  }

  lemma ReleaseCharge<C>(published: map<Key, Published<C>>, reserved: nat, retained: nat, places: seq<Place>,
                         owners: map<Key, nat>, key: Key)
    requires Charged(published, reserved, retained, places) && Ticketed(published, places, owners) && key in published
    ensures retained >= published[key].bytes
    ensures Charged(published - {key}, reserved, retained - published[key].bytes, places[owners[key] := Ended])
  {
    SumUpdate(LiveCount, places, owners[key], Ended);
    SumUpdate(LiveBytes, places, owners[key], Ended);
    TotalWithout(Charges(published), key);
    assert Charges(published - {key}) == Charges(published) - {key};
  }

  lemma ReserveCharge<C>(published: map<Key, Published<C>>, reserved: nat, retained: nat, places: seq<Place>, bytes: nat)
    requires Charged(published, reserved, retained, places)
    ensures Charged(published, reserved + 1, retained + bytes, places + [Live(bytes)])
  {
    SumConcat(LiveCount, places, [Live(bytes)]);
    SumConcat(LiveBytes, places, [Live(bytes)]);
    SumOne(LiveCount, Live(bytes));
    SumOne(LiveBytes, Live(bytes));
  }

  lemma {:induction false} NoneLive(places: seq<Place>)
    requires Sum(LiveCount, places) == 0
    ensures Sum(LiveBytes, places) == 0
  {
    if places != [] {
      NoneLive(places[1..]);
    }
  }

  /** Without reservations and published contexts nothing is charged. */
  lemma EmptyLedger<C>(published: map<Key, Published<C>>, reserved: nat, retained: nat, places: seq<Place>)
    requires Charged(published, reserved, retained, places) && reserved == 0 && published == map[]
    ensures retained == 0
  {
    NoneLive(places);
    assert Charges(published) == map[];
  }

  lemma TicketReleased<C>(published: map<Key, Published<C>>, places: seq<Place>, owners: map<Key, nat>, key: Key)
    requires Ticketed(published, places, owners) && key in published
    ensures key in owners && owners[key] < |places| && places[owners[key]] == At(key)
    ensures Ticketed(published - {key}, places[owners[key] := Ended], owners - {key})
  {
  }

  lemma TicketEnded<C>(published: map<Key, Published<C>>, places: seq<Place>, owners: map<Key, nat>, t: nat)
    requires Ticketed(published, places, owners) && t < |places| && places[t].Live?
    ensures Ticketed(published, places[t := Ended], owners)
  {
  }

  lemma TicketPublished<C>(published: map<Key, Published<C>>, places: seq<Place>, owners: map<Key, nat>,
                           t: nat, key: Key, p: Published<C>)
    requires Ticketed(published, places, owners) && t < |places| && places[t].Live? && key !in published
    ensures Ticketed(published[key := p], places[t := At(key)], owners[key := t])
  {
  }

  lemma SmallerWithout<C>(published: map<Key, C>, key: Key)
    requires key in published
    ensures |published - {key}| < |published|
  {
    assert (published - {key}).Keys == published.Keys - {key};
  }

  /** A context that has ended never comes back. */
  ghost predicate Settles(before: seq<Place>, after: seq<Place>) {
    && |before| == |after|
    && (forall t :: 0 <= t < |before| && before[t].Ended? ==> after[t].Ended?)
  }

  lemma EndedSettles(places: seq<Place>, t: nat)
    requires t < |places|
    ensures Settles(places, places[t := Ended])
  {
  }

  /** Releasing a published key ends exactly the ticket that owned it. */
  ghost predicate Handed<C>(published: map<Key, Published<C>>, owners: map<Key, nat>, before: seq<Place>, after: seq<Place>, key: Key) {
    if key in published
    then key in owners && owners[key] < |before| && before[owners[key]] == At(key) && after == before[owners[key] := Ended]
    else after == before
  }

  class ContextState<!C> {
    const maxContexts: nat
    const maxBytes: nat
    var reserved: nat
    var retained: nat
    var published: map<Key, Published<C>>
    var poisoned: bool

    /** One place for each reservation ever granted, in order of granting. */
    ghost var places: seq<Place>
    ghost var owners: map<Key, nat>

    ghost predicate Valid()
      reads this
    {
      // Compared with true so that the conjunction is proved as one obligation.
      true == (
        && maxBytes <= U64_MAX
        && 1 <= maxContexts <= USIZE_MAX
        && !poisoned
        && reserved + |published| <= maxContexts
        && retained <= maxBytes
        && Charged(published, reserved, retained, places)
        && Ticketed(published, places, owners))
    }

    /** Published contexts by key. */
    ghost function Contents(): map<Key, C>
      reads this
    {
      ContextsOf(published)
    }

    constructor (maxContexts: nat, maxBytes: nat)
      requires 1 <= maxContexts <= USIZE_MAX && maxBytes <= U64_MAX
      ensures Valid() && published == map[] && places == [] && reserved == 0
      ensures this.maxContexts == maxContexts && this.maxBytes == maxBytes
    {
      this.maxContexts, this.maxBytes := maxContexts, maxBytes;
      reserved, retained, published, poisoned := 0, 0, map[], false;
      places, owners := [], map[];
    }

    method Reserve(context: C, bytes: nat) returns (r: Reserved<C>)
      requires Valid()
      modifies this
      ensures Valid() && published == old(published) && owners == old(owners)
      ensures r.Refused? ==>
        && r.context == context && places == old(places)
        && reserved == old(reserved) && retained == old(retained)
      ensures r.Refused? <==> old(reserved) + |published| >= maxContexts || old(retained) + bytes > maxBytes
      ensures r.Refused? ==> r.failure == if old(reserved) + |published| >= maxContexts then CapacityReached else RetainedByteCapacity
      ensures r.Granted? ==>
        && fresh(r.reservation) && r.reservation.Holds(this) && r.reservation.context == Some(context)
        && r.reservation.ticket == |old(places)| && places == old(places) + [Live(bytes)]
        && retained == old(retained) + bytes && reserved == old(reserved) + 1
    {
      hide Total, Sum, Charges;
      if poisoned {
        return Refused(OwnerPoisoned, context);
      }
      if reserved + |published| >= maxContexts {
        return Refused(CapacityReached, context);
      }
      if retained + bytes > maxBytes {
        return Refused(RetainedByteCapacity, context);
      }
      ReserveCharge(published, reserved, retained, places, bytes);
      reserved := reserved + 1;
      retained := retained + bytes;
      ghost var ticket := |places|;
      places := places + [Live(bytes)];
      var reservation := new ContextReservation<C>(this, context, bytes, ticket);
      r := Granted(reservation);
    }

    method Release(key: Key) returns (context: Option<C>)
      requires Valid()
      modifies this
      ensures Valid() && reserved == old(reserved) && Settles(old(places), places)
      ensures context == if key in old(published) then Some(old(published)[key].context) else None
      ensures published == old(published) - {key}
      ensures Handed(old(published), old(owners), old(places), places, key) && owners == old(owners) - {key}
    {
      if key !in published {
        assert published - {key} == published && owners - {key} == owners;
        return None;
      }
      var c := Remove(key);
      context := Some(c);
    }

    method Remove(key: Key) returns (context: C)
      requires Valid() && key in published
      modifies this
      ensures Valid() && reserved == old(reserved)
      ensures Settles(old(places), places)
      ensures context == old(published)[key].context && published == old(published) - {key}
      ensures Handed(old(published), old(owners), old(places), places, key) && owners == old(owners) - {key}
    {
      hide Charged, Ticketed, Settles;
      var entry := published[key];
      ReleaseCharge(published, reserved, retained, places, owners, key);
      TicketReleased(published, places, owners, key);
      SmallerWithout(published, key);
      EndedSettles(places, owners[key]);
      context := entry.context;
      places, owners, published := places[owners[key] := Ended], owners - {key}, published - {key};
      ReleaseRetained(entry.bytes);
    }

    /** The lowest published epoch-and-operation key. */
    method ReleaseNext() returns (taken: Option<(Key, C)>)
      requires Valid()
      modifies this
      ensures Valid() && reserved == old(reserved) && Settles(old(places), places)
      ensures taken.None? <==> old(published) == map[]
      ensures taken.None? ==> published == map[]
      ensures taken.Some? ==>
        && IsFirst(old(published).Keys, taken.value.0)
        && taken.value.1 == old(published)[taken.value.0].context
        && Handed(old(published), old(owners), old(places), places, taken.value.0)
        && owners == old(owners) - {taken.value.0}
        && published == old(published) - {taken.value.0}
    {
      if published == map[] {
        return None;
      }
      assert published.Keys != {};
      FirstExists(published.Keys);
      var key :| IsFirst(published.Keys, key);
      var context := Release(key);
      taken := Some((key, context.value));
    }

    method ReleaseRetained(bytes: nat)
      modifies this`retained, this`poisoned
      ensures bytes <= old(retained) ==> retained == old(retained) - bytes && poisoned == old(poisoned)
      ensures bytes > old(retained) ==> retained == old(retained) && poisoned
    {
      if bytes <= retained {
        retained := retained - bytes;
      } else {
        poisoned := true;
      }
    }

    method Rollback(bytes: nat)
      modifies this`reserved, this`retained, this`poisoned
      ensures old(reserved) > 0 && bytes <= old(retained) ==>
        reserved == old(reserved) - 1 && retained == old(retained) - bytes && poisoned == old(poisoned)
      ensures old(reserved) == 0 || bytes > old(retained) ==>
        reserved == old(reserved) && retained == old(retained) && poisoned
    {
      if reserved == 0 || bytes > retained {
        poisoned := true;
        return;
      }
      reserved := reserved - 1;
      retained := retained - bytes;
    }
  }

  datatype Reserved<!C> = Granted(reservation: ContextReservation<C>) | Refused(failure: ReserveFailure, context: C)

  class ContextReservation<!C> {
    const state: ContextState<C>
    var context: Option<C>
    const bytes: nat
    var active: bool
    ghost const ticket: nat

    /** Active, owning its context, and known to the ledger under its own ticket. */
    ghost predicate Holds(owner: ContextState<C>)
      reads this, owner
    {
      && state == owner
      && active && context.Some?
      && ticket < |owner.places|
      && owner.places[ticket] == Live(bytes)
    }

    constructor (state: ContextState<C>, context: C, bytes: nat, ghost ticket: nat)
      ensures this.state == state && this.context == Some(context) && this.bytes == bytes
      ensures active && this.ticket == ticket
    {
      this.state, this.context, this.bytes := state, Some(context), bytes;
      this.active, this.ticket := true, ticket;
    }

    /** Applies a binding, which does not change the charge, and answers what the binding answers. */
    method Bind<R>(bind: C -> (C, R)) returns (r: R)
      requires state.Valid() && Holds(state)
      modifies this
      ensures Holds(state) && (context.value, r) == bind(old(context).value)
    {
      var bound := bind(context.value);
      context := Some(bound.0);
      r := bound.1;
    }

    /** Rolls back both bounds and hands the context back. */
    method Abort() returns (c: C)
      requires state.Valid() && Holds(state)
      modifies this, state
      ensures state.Valid() && !active && c == old(context).value
      ensures state.published == old(state.published) && state.owners == old(state.owners)
      ensures state.places == old(state.places)[ticket := Ended]
      ensures state.reserved == old(state.reserved) - 1
    {
      hide Charged, Ticketed;
      c := context.value;
      context := None;
      EndCharge(state.published, state.reserved, state.retained, state.places, ticket);
      TicketEnded(state.published, state.places, state.owners, ticket);
      state.Rollback(bytes);
      state.places := state.places[ticket := Ended];
      active := false;
    }

    /** Dropping an active reservation rolls back as `Abort` does; an inactive one does nothing. */
    method Drop()
      requires state.Valid() && (active ==> Holds(state))
      modifies this, state
      ensures state.Valid() && !active && state.published == old(state.published) && state.owners == old(state.owners)
      ensures state.places == if old(active) then old(state.places)[ticket := Ended] else old(state.places)
      ensures state.reserved == old(state.reserved) - (if old(active) then 1 else 0)
    {
      if active {
        var c := Abort();
      }
    }

    /** Moves the context under its operation key; refused only for a key already in use. */
    method Publish(key: Key) returns (refused: Option<C>)
      requires state.Valid() && Holds(state)
      modifies this, state
      ensures state.Valid() && !active
      ensures refused.Some? <==> key in old(state.published)
      ensures refused.Some? ==>
        && refused == old(context)
        && state.published == old(state.published) && state.owners == old(state.owners)
        && state.places == old(state.places)[ticket := Ended]
      ensures refused.None? ==>
        && state.published == old(state.published)[key := Published(old(context).value, bytes)]
        && state.places == old(state.places)[ticket := At(key)] && state.owners == old(state.owners)[key := ticket]
        && state.retained == old(state.retained)
      ensures state.reserved == old(state.reserved) - 1
    {
      hide Charged, Ticketed;
      var c := context.value;
      context := None;
      active := false;
      if state.poisoned {
        assert false;
      } else if key in state.published {
        EndCharge(state.published, state.reserved, state.retained, state.places, ticket);
        TicketEnded(state.published, state.places, state.owners, ticket);
        state.Rollback(bytes);
        state.places := state.places[ticket := Ended];
        refused := Some(c);
      } else {
        PublishCharge(state.published, state.reserved, state.retained, state.places, ticket, key, c);
        TicketPublished(state.published, state.places, state.owners, ticket, key, Published(c, bytes));
        state.reserved := state.reserved - 1;
        state.published := state.published[key := Published(c, bytes)];
        state.places := state.places[ticket := At(key)];
        state.owners := state.owners[key := ticket];
        refused := None;
      }
    }
  }
}
