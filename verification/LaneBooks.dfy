/** Who owns each public call of one lane, and what its end may claim about delivery. */
module LaneBooks {
  import opened Common
  import opened Requests
  import opened Contexts

  /** What waits for an operation: a session exchange or a public call with its bound correlation. */
  datatype Context = Session | Public(call: CallId, correlation: Option<int>)

  /**
   * `given`: every call ever handed to the lane. `frames`: the operation key of each call whose frame
   * commit accepted. `pending`, `inHand`, `published` and `settled`: where the calls are now.
   * `accepted` and `notSent`: the keys the engine accepted and those it has reported as not sent.
   */
  datatype Books = Books(
    given: set<CallId>,
    frames: map<CallId, Key>,
    pending: seq<CallId>,
    inHand: multiset<CallId>,
    published: map<Key, Context>,
    settled: seq<Settlement>,
    accepted: set<Key>,
    notSent: set<Key>)

  function PublicCalls(published: map<Key, Context>): set<CallId> {
    set k | k in published && published[k].Public? :: published[k].call
  }

  predicate ClaimsNotSent(s: Settlement) {
    s.outcome.Failed? && DeliveryOf(s.outcome.error) == NotSent
  }

  /** Each call given to the lane is owned exactly once: queued, in hand, published or settled. */
  ghost predicate OwnedOnce(b: Books) {
    multiset(b.pending) + b.inHand + multiset(PublicCalls(b.published)) + multiset(Calls(b.settled)) == multiset(b.given)
  }

  ghost predicate Keyed(b: Books) {
    && (forall k :: k in b.published ==> k in b.accepted)
    && (forall k :: k in b.published && b.published[k].Public? ==>
          && b.published[k].call in b.frames && b.frames[b.published[k].call] == k
          && b.published[k].correlation.Some?)
    && (forall c :: c in b.frames ==> c in b.given && b.frames[c] in b.accepted)
    && (forall c :: c in b.frames ==> c !in multiset(b.pending) && c !in b.inHand)
  }

  /**
   * A call whose frame was accepted ends as not sent only where the engine recorded that, and a call
   * whose frame never was accepted always ends as not sent.
   */
  ghost predicate DeliverySound(b: Books) {
    forall i :: 0 <= i < |b.settled| ==>
      if b.settled[i].call in b.frames
      then ClaimsNotSent(b.settled[i]) ==> b.frames[b.settled[i].call] in b.notSent
      else ClaimsNotSent(b.settled[i])
  }

  ghost predicate Balanced(b: Books) {
    // Compared with true so that the conjunction is proved as one obligation.
    true == (OwnedOnce(b) && Keyed(b) && DeliverySound(b))
  }

  lemma PublicWithout(published: map<Key, Context>, key: Key)
    requires key in published
    requires forall k :: k in published && k != key && published[k].Public? && published[key].Public? ==>
      published[k].call != published[key].call
    ensures PublicCalls(published - {key})
         == PublicCalls(published) - (if published[key].Public? then {published[key].call} else {})
  {
    var rest := published - {key};
    forall c | c in PublicCalls(published) && !(published[key].Public? && c == published[key].call)
      ensures c in PublicCalls(rest)
    {
      var k :| k in published && published[k].Public? && published[k].call == c;
      assert rest[k] == published[k];
    }
    forall c | c in PublicCalls(rest)
      ensures c in PublicCalls(published) && !(published[key].Public? && c == published[key].call)
    {
      var k :| k in rest && rest[k].Public? && rest[k].call == c;
      assert published[k] == rest[k];
    }
  }

  lemma PublicWith(published: map<Key, Context>, key: Key, context: Context)
    requires key !in published
    ensures PublicCalls(published[key := context])
         == PublicCalls(published) + (if context.Public? then {context.call} else {})
  {
    var more := published[key := context];
    forall c | c in PublicCalls(published) ensures c in PublicCalls(more) {
      var k :| k in published && published[k].Public? && published[k].call == c;
      assert more[k] == published[k];
    }
    assert more[key] == context;
  }

  lemma CallsSnoc(settled: seq<Settlement>, s: Settlement)
    ensures multiset(Calls(settled + [s])) == multiset(Calls(settled)) + multiset{s.call}
  {
    assert Calls(settled + [s]) == Calls(settled) + [s.call];
  }

  lemma EmptyBooks(accepted: set<Key>, notSent: set<Key>)
    ensures Balanced(Books({}, map[], [], multiset{}, map[], [], accepted, notSent)) && PublicCalls(map[]) == {}
  {
  }

  /** A new call arrives. */
  lemma Give(b: Books, call: CallId)
    requires Balanced(b) && call !in b.given
    ensures Balanced(b.(given := b.given + {call}, inHand := b.inHand + multiset{call}))
  {
    assert multiset(b.given + {call}) == multiset(b.given) + multiset{call};
  }

  lemma Queue(b: Books, call: CallId)
    requires Balanced(b) && call in b.inHand
    ensures Balanced(b.(inHand := b.inHand - multiset{call}, pending := b.pending + [call]))
  {
  }

  lemma Unqueue(b: Books)
    requires Balanced(b) && b.pending != []
    ensures Balanced(b.(inHand := b.inHand + multiset{b.pending[0]}, pending := b.pending[1..]))
  {
    assert b.pending == [b.pending[0]] + b.pending[1..];
  }

  lemma SettleInHand(b: Books, s: Settlement)
    requires Balanced(b) && s.call in b.inHand && ClaimsNotSent(s)
    ensures Balanced(b.(inHand := b.inHand - multiset{s.call}, settled := b.settled + [s]))
  {
    CallsSnoc(b.settled, s);
    assert s.call !in b.frames;
  }

  /** Queued calls end where they are. */
  lemma SettleQueued(b: Books, left: seq<CallId>, ended: seq<Settlement>)
    requires Balanced(b)
    requires multiset(b.pending) == multiset(left) + multiset(Calls(ended))
    requires forall i :: 0 <= i < |ended| ==> ClaimsNotSent(ended[i])
    ensures Balanced(b.(pending := left, settled := b.settled + ended))
  {
    assert Calls(b.settled + ended) == Calls(b.settled) + Calls(ended);
    var next := b.(pending := left, settled := b.settled + ended);
    forall i | 0 <= i < |ended| ensures ended[i].call !in b.frames {
      assert Calls(ended)[i] in multiset(Calls(ended));
      assert Calls(ended)[i] in multiset(b.pending);
    }
    assert DeliverySound(next);
  }

  /** Commit accepted the frame of a call in hand under a key never used before. */
  lemma Accept(b: Books, call: CallId, key: Key, correlation: int)
    requires Balanced(b) && call in b.inHand && key !in b.accepted
    ensures key !in b.published
    ensures Balanced(b.(
      inHand := b.inHand - multiset{call},
      accepted := b.accepted + {key},
      frames := b.frames[call := key],
      published := b.published[key := Public(call, Some(correlation))]))
  {
    var next := b.(
      inHand := b.inHand - multiset{call},
      accepted := b.accepted + {key},
      frames := b.frames[call := key],
      published := b.published[key := Public(call, Some(correlation))]);
    HeldOnce(b, call);
    PublicWith(b.published, key, Public(call, Some(correlation)));
    assert multiset(PublicCalls(b.published) + {call}) == multiset(PublicCalls(b.published)) + multiset{call};
    assert (b.inHand - multiset{call}) + multiset{call} == b.inHand;
    assert OwnedOnce(next);
    assert Keyed(next) by {
      assert call in multiset(b.given);
      forall k | k in b.published && b.published[k].Public? ensures b.published[k].call != call {
        assert b.published[k].call in PublicCalls(b.published);
      }
    }
    assert call !in multiset(Calls(b.settled));
    forall i | 0 <= i < |b.settled| ensures b.settled[i].call != call {
      assert Calls(b.settled)[i] in multiset(Calls(b.settled));
    }
  }

  lemma HeldOnce(b: Books, call: CallId)
    requires OwnedOnce(b) && call in b.inHand
    ensures b.inHand[call] == 1 && call !in multiset(b.pending)
    ensures call !in PublicCalls(b.published) && call !in multiset(Calls(b.settled))
  {
    var all := multiset(b.pending) + b.inHand + multiset(PublicCalls(b.published)) + multiset(Calls(b.settled));
    assert all[call] == multiset(b.given)[call] <= 1;
  }

  lemma AcceptSession(b: Books, key: Key)
    requires Balanced(b) && key !in b.accepted
    ensures key !in b.published
    ensures Balanced(b.(accepted := b.accepted + {key}, published := b.published[key := Session]))
  {
    PublicWith(b.published, key, Session);
  }

  lemma ReleaseSession(b: Books, key: Key)
    requires Balanced(b) && key in b.published && b.published[key].Session?
    ensures Balanced(b.(published := b.published - {key}))
  {
    PublicWithout(b.published, key);
  }

  /** A published call ends; it may claim not sent only with the engine's word for its key. */
  lemma ReleasePublic(b: Books, key: Key, s: Settlement)
    requires Balanced(b) && key in b.published && b.published[key].Public? && s.call == b.published[key].call
    requires ClaimsNotSent(s) ==> key in b.notSent
    ensures Balanced(b.(published := b.published - {key}, settled := b.settled + [s]))
  {
    var c := b.published[key].call;
    CallsSnoc(b.settled, s);
    PublicWithout(b.published, key);
    assert c in PublicCalls(b.published);
    assert OwnedOnce(b.(published := b.published - {key}, settled := b.settled + [s]));
  }

  lemma Learn(b: Books, notSent: set<Key>)
    requires Balanced(b) && b.notSent <= notSent
    ensures Balanced(b.(notSent := notSent))
  {
  }

  /** What balanced books say of one call: given means owned by exactly one owner, once. */
  lemma OwnedExactlyOnce(b: Books, call: CallId)
    requires Balanced(b)
    ensures multiset(b.pending)[call] + b.inHand[call] + (if call in PublicCalls(b.published) then 1 else 0)
          + multiset(Calls(b.settled))[call]
         == if call in b.given then 1 else 0
  {
    var all := multiset(b.pending) + b.inHand + multiset(PublicCalls(b.published)) + multiset(Calls(b.settled));
    assert all[call] == multiset(b.given)[call];
  }

  /** With nothing queued, in hand or published, every call given has ended, and ended once. */
  lemma AllSettled(b: Books)
    requires Balanced(b) && b.pending == [] && b.inHand == multiset{} && PublicCalls(b.published) == {}
    ensures multiset(Calls(b.settled)) == multiset(b.given)
  {
  }
}
