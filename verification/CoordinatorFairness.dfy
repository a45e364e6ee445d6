/**
 * When a requested coordinator entry can be passed over for ever: consecutive start passes of
 * src/reactor/coordinator/drive.rs, with any entries requested again between them, and then whole turns, in which
 * retries and completions move the cursor before the start pass.
 */
module CoordinatorFairness {
  import opened Common
  import opened CoordinatorDrives

  /** Whether an entry is requested between one pass and the next. */
  type Asks = (nat, nat) -> bool

  /** Flags and cursor as a pass finds them. */
  datatype Turn = Turn(flags: seq<bool>, cursor: nat)

  function Joined(flags: seq<bool>, asks: Asks, k: nat): (r: seq<bool>)
    ensures |r| == |flags| && forall i :: 0 <= i < |flags| ==> r[i] == (flags[i] || asks(k, i))
  {
    seq(|flags|, i requires 0 <= i < |flags| => flags[i] || asks(k, i))
  }

  function PassAt(k: nat, start: Turn, budget: nat, asks: Asks): (p: Pass)
    ensures |p.flags| == |start.flags|
    decreases k, 1
  {
    var t := TurnAt(k, start, budget, asks);
    StartPass(t.flags, t.cursor, budget)
  }

  function TurnAt(k: nat, start: Turn, budget: nat, asks: Asks): (t: Turn)
    ensures |t.flags| == |start.flags|
    decreases k, 0
  {
    if k == 0 then start
    else
      var p := PassAt(k - 1, start, budget, asks);
      Turn(Joined(p.flags, asks, k - 1), p.cursor)
  }

  /** Pass `k` leaves the request of entry `i` standing. */
  predicate Spared(k: nat, i: nat, start: Turn, budget: nat, asks: Asks)
    requires i < |start.flags|
  {
    PassAt(k, start, budget, asks).flags[i]
  }

  ghost predicate Starved(i: nat, start: Turn, budget: nat, asks: Asks) {
    i < |start.flags| && start.cursor < |start.flags| && forall k: nat :: Spared(k, i, start, budget, asks)
  }

  /** Some entry of `n`, from some state and under some requests, is never started. */
  ghost predicate CanStarve(n: nat, budget: nat) {
    exists i: nat, start: Turn, asks: Asks :: Starved(i, start, budget, asks) && |start.flags| == n
  }

  // ------------------------------------------------------------------ one pass

  lemma {:induction false} OnlyClears(p: Pass, offset: nat, budget: nat, i: nat)
    requires i < |p.flags| && !p.flags[i]
    ensures !StartFrom(p, offset, budget).flags[i]
    decreases |p.flags| - offset
  {
    if offset < |p.flags| && p.started != budget {
      var index := (p.cursor + offset) % |p.flags|;
      if p.flags[index] {
        OnlyClears(Pass(p.flags[index := false], (index + 1) % |p.flags|, p.started + 1), offset + 1, budget, i);
      } else {
        OnlyClears(p, offset + 1, budget, i);
      }
    }
  }

  lemma {:induction false} Skips(p: Pass, offset: nat, until: nat, budget: nat)
    requires offset <= until <= |p.flags| && p.started != budget
    requires forall o :: offset <= o < until ==> !Visited(p.flags, p.cursor, o)
    ensures StartFrom(p, offset, budget) == StartFrom(p, until, budget)
    decreases until - offset
  {
    if offset < until {
      assert !Visited(p.flags, p.cursor, offset);
      Skips(p, offset + 1, until, budget);
    }
  }

  /** The pass goes on from its first start. */
  lemma FirstStart(p: Pass, offset: nat, at: nat, budget: nat)
    requires offset <= at < |p.flags| && p.started != budget
    requires forall o :: offset <= o < at ==> !Visited(p.flags, p.cursor, o)
    requires Visited(p.flags, p.cursor, at)
    ensures var index := (p.cursor + at) % |p.flags|;
      StartFrom(p, offset, budget) ==
        StartFrom(Pass(p.flags[index := false], (index + 1) % |p.flags|, p.started + 1), at + 1, budget)
  {
    hide StartFrom;
    Skips(p, offset, at, budget);
    StartStep(p, at, budget);
  }

  /** How far the cursor is behind entry `i`, around the list. */
  function Distance(cursor: nat, i: nat, n: nat): (d: nat)
    requires cursor < n && i < n
    ensures d < n && (cursor + d == i || cursor + d == i + n)
  {
    if cursor <= i then i - cursor else i + n - cursor
  }

  lemma Reaches(cursor: nat, i: nat, n: nat)
    requires cursor < n && i < n
    ensures (cursor + Distance(cursor, i, n)) % n == i
  {
    Wraps(i, n);
  }

  lemma {:induction false} FirstSet(flags: seq<bool>, cursor: nat, from: nat, bound: nat) returns (e: nat)
    requires from <= bound && Visited(flags, cursor, bound)
    ensures from <= e <= bound && Visited(flags, cursor, e) && forall o :: from <= o < e ==> !Visited(flags, cursor, o)
    decreases bound - from
  {
    if Visited(flags, cursor, from) {
      e := from;
    } else {
      e := FirstSet(flags, cursor, from + 1, bound);
    }
  }

  /** A start `e` behind the cursor and before `i` brings the cursor nearer to `i`. */
  lemma Nearer(cursor: nat, i: nat, e: nat, n: nat)
    requires cursor < n && i < n && e < Distance(cursor, i, n)
    ensures var index := (cursor + e) % n;
      index < n && index != i && (index + 1) % n < n
      && Distance((index + 1) % n, i, n) == Distance(cursor, i, n) - e - 1
  {
    if cursor + e < n {
      Wraps(cursor + e, n);
      if cursor + e + 1 == n { Wraps(0, n); } else { Wraps(cursor + e + 1, n); }
    } else {
      Wraps(cursor + e - n, n);
      Wraps(cursor + e + 1 - n, n);
    }
  }

  /** With budget one, or two entries at most, a pass starts `i` or ends nearer to it. */
  lemma PassNears(flags: seq<bool>, cursor: nat, budget: nat, i: nat)
    requires cursor < |flags| && i < |flags| && flags[i]
    requires budget == 1 || (budget > 1 && |flags| <= 2)
    ensures var p := StartPass(flags, cursor, budget);
      p.flags[i] ==> p.cursor < |flags| && Distance(p.cursor, i, |flags|) < Distance(cursor, i, |flags|)
  {
    hide StartFrom;
    var n, d := |flags|, Distance(cursor, i, |flags|);
    Reaches(cursor, i, n);
    var e := FirstSet(flags, cursor, 0, d);
    var index := (cursor + e) % n;
    FirstStart(Pass(flags, cursor, 0), 0, e, budget);
    var q := Pass(flags[index := false], (index + 1) % n, 1);
    if e == d {
      OnlyClears(q, e + 1, budget, i);
    } else {
      Nearer(cursor, i, e, n);
      AfterOne(q, e + 1, budget, i, index);
    }
  }

  /** What follows the first start of such a pass changes nothing. */
  lemma AfterOne(q: Pass, offset: nat, budget: nat, i: nat, started: nat)
    requires q.started == 1 && i < |q.flags| && started < |q.flags| && started != i && !q.flags[started]
    requires q.cursor == (started + 1) % |q.flags| && 1 <= offset < |q.flags|
    requires budget == 1 || (budget > 1 && |q.flags| <= 2)
    ensures StartFrom(q, offset, budget) == q
  {
    if budget > 1 {
      assert |q.flags| == 2 && (q.cursor + 1) % 2 == started;
    }
  }

  // ------------------------------------------------------------------ runs of passes

  /** A standing request is started before the cursor can come round. */
  lemma {:induction false} StartedSoon(k: nat, i: nat, start: Turn, budget: nat, asks: Asks) returns (m: nat)
    requires i < |start.flags| && (budget == 1 || (budget > 1 && |start.flags| <= 2))
    requires TurnAt(k, start, budget, asks).flags[i] && TurnAt(k, start, budget, asks).cursor < |start.flags|
    ensures k <= m <= k + Distance(TurnAt(k, start, budget, asks).cursor, i, |start.flags|)
    ensures !Spared(m, i, start, budget, asks)
    decreases Distance(TurnAt(k, start, budget, asks).cursor, i, |start.flags|)
  {
    hide StartPass, Distance;
    var t := TurnAt(k, start, budget, asks);
    PassNears(t.flags, t.cursor, budget, i);
    if Spared(k, i, start, budget, asks) {
      m := StartedSoon(k + 1, i, start, budget, asks);
    } else {
      m := k;
    }
  }

  /** Whatever is requested meanwhile, such passes start a requested entry within as many passes as there are entries. */
  lemma FairWithin(i: nat, start: Turn, budget: nat, asks: Asks)
    requires i < |start.flags| && start.cursor < |start.flags| && start.flags[i]
    requires budget == 1 || (budget > 1 && |start.flags| <= 2)
    ensures exists m :: 0 <= m < |start.flags| && !Spared(m, i, start, budget, asks)
  {
    var m := StartedSoon(0, i, start, budget, asks);
  }

  // ------------------------------------------------------------------ starvation

  /** Entries 0, 1 and the last are requested. */
  function Outer(n: nat): (r: seq<bool>)
    requires n >= 3
    ensures |r| == n && forall i :: 0 <= i < n ==> r[i] == (i == 0 || i == 1 || i == n - 1)
  {
    seq(n, i => i == 0 || i == 1 || i == n - 1)
  }

  function Second(n: nat): (r: seq<bool>)
    ensures |r| == n && forall i :: 0 <= i < n ==> r[i] == (i == 1)
  {
    seq(n, i => i == 1)
  }

  /** Any budget from two on serves the first and the last entry and returns to where it began. */
  lemma OuterPass(n: nat, budget: nat)
    requires n >= 3 && budget >= 2
    ensures StartPass(Outer(n), 0, budget) == Pass(Second(n), 0, 2)
  {
    hide StartFrom;
    Wraps(0, n);
    FirstStart(Pass(Outer(n), 0, 0), 0, 0, budget);
    Wraps(1, n);
    var q := Pass(Outer(n)[0 := false], 1, 1);
    forall o | 1 <= o < n - 2 ensures !Visited(q.flags, 1, o) { Wraps(1 + o, n); }
    Wraps(n - 1, n);
    assert Visited(q.flags, 1, n - 2);
    FirstStart(q, 1, n - 2, budget);
    var last := Pass(Second(n), 0, 2);
    assert q.flags[n - 1 := false] == Second(n);
    StartStep(last, n - 1, budget);
    StartEnd(last, n, budget);
  }

  function OuterAsked(n: nat): Asks { (k: nat, i: nat) => i == 0 || i == n - 1 }

  lemma {:induction false} OuterTurns(k: nat, n: nat, budget: nat)
    requires n >= 3 && budget >= 2
    ensures TurnAt(k, Turn(Outer(n), 0), budget, OuterAsked(n)) == Turn(Outer(n), 0)
  {
    hide StartPass;
    if k > 0 {
      OuterTurns(k - 1, n, budget);
      OuterPass(n, budget);
      assert Joined(Second(n), OuterAsked(n), k - 1) == Outer(n);
    }
  }

  /** With three entries or more and budget two or more, entry 1 is passed over for ever. */
  lemma OuterStarves(n: nat, budget: nat)
    requires n >= 3 && budget >= 2
    ensures Starved(1, Turn(Outer(n), 0), budget, OuterAsked(n))
  {
    forall k: nat ensures Spared(k, 1, Turn(Outer(n), 0), budget, OuterAsked(n)) {
      OuterTurns(k, n, budget);
      OuterPass(n, budget);
    }
  }

  function NoneAsked(): Asks { (k: nat, i: nat) => false }

  lemma {:induction false} IdleTurns(k: nat, start: Turn)
    ensures TurnAt(k, start, 0, NoneAsked()) == start && PassAt(k, start, 0, NoneAsked()) == Pass(start.flags, start.cursor, 0)
  {
    if k > 0 {
      IdleTurns(k - 1, start);
      assert Joined(start.flags, NoneAsked(), k - 1) == start.flags;
    }
  }

  /** A pass without budget starts nothing. */
  lemma IdleStarves(n: nat)
    requires n >= 1
    ensures Starved(0, Turn(seq(n, i => true), 0), 0, NoneAsked())
  {
    var start := Turn(seq(n, i => true), 0);
    forall k: nat ensures Spared(k, 0, start, 0, NoneAsked()) {
      IdleTurns(k, start);
    }
  }

  /** Starvation is possible exactly from three entries and budget two on, or without any budget. */
  lemma StarvationExact(n: nat, budget: nat)
    ensures CanStarve(n, budget) <==> (n >= 3 && budget >= 2) || (n >= 1 && budget == 0)
  {
    if n >= 3 && budget >= 2 {
      OuterStarves(n, budget);
      assert Starved(1, Turn(Outer(n), 0), budget, OuterAsked(n)) && |Turn(Outer(n), 0).flags| == n;
    } else if n >= 1 && budget == 0 {
      IdleStarves(n);
      assert |Turn(seq(n, i => true), 0).flags| == n;
    } else if CanStarve(n, budget) {
      var i: nat, start: Turn, asks: Asks :| Starved(i, start, budget, asks) && |start.flags| == n;
      NeverStarves(i, start, budget, asks);
    }
  }

  lemma NeverStarves(i: nat, start: Turn, budget: nat, asks: Asks)
    requires budget == 1 || (budget > 1 && |start.flags| <= 2)
    ensures !Starved(i, start, budget, asks)
  {
    if i < |start.flags| && start.cursor < |start.flags| {
      if start.flags[i] {
        FairWithin(i, start, budget, asks);
      } else {
        OnlyClears(Pass(start.flags, start.cursor, 0), 0, budget, i);
        assert !Spared(0, i, start, budget, asks);
      }
    }
  }

  /** The smallest case: three entries, budget two, the outer two requested again after every pass. */
  lemma MiddleOfThreeStarves(k: nat)
    ensures Spared(k, 1, Turn([true, true, true], 0), 2, OuterAsked(3))
  {
    OuterStarves(3, 2);
    assert Outer(3) == [true, true, true];
  }

  // ------------------------------------------------------------------ whole turns

  /** The entry whose retry or completion comes last before the start pass of a turn, if any. */
  type Moves = nat -> Option<nat>

  function Moved(cursor: nat, move: Option<nat>, n: nat): nat {
    if move.Some? && n > 0 then (move.value + 1) % n else cursor
  }

  function TurnPassAt(k: nat, start: Turn, budget: nat, asks: Asks, moves: Moves): (p: Pass)
    ensures |p.flags| == |start.flags|
    decreases k, 1
  {
    var t := TurnStartAt(k, start, budget, asks, moves);
    StartPass(t.flags, Moved(t.cursor, moves(k), |t.flags|), budget)
  }

  function TurnStartAt(k: nat, start: Turn, budget: nat, asks: Asks, moves: Moves): (t: Turn)
    ensures |t.flags| == |start.flags|
    decreases k, 0
  {
    if k == 0 then start
    else
      var p := TurnPassAt(k - 1, start, budget, asks, moves);
      Turn(Joined(p.flags, asks, k - 1), p.cursor)
  }

  predicate SparedInTurn(k: nat, i: nat, start: Turn, budget: nat, asks: Asks, moves: Moves)
    requires i < |start.flags|
  {
    TurnPassAt(k, start, budget, asks, moves).flags[i]
  }

  ghost predicate StarvedByTurns(i: nat, start: Turn, budget: nat, asks: Asks, moves: Moves) {
    && i < |start.flags| && start.cursor < |start.flags|
    && forall k: nat :: SparedInTurn(k, i, start, budget, asks, moves)
  }

  /** Turns that leave `budget` to their start pass never start some entry of `n`. */
  ghost predicate TurnsCanStarve(n: nat, budget: nat) {
    exists i: nat, start: Turn, asks: Asks, moves: Moves ::
      StarvedByTurns(i, start, budget, asks, moves) && |start.flags| == n
  }

  function FirstTwo(n: nat): (r: seq<bool>)
    requires n >= 2
    ensures |r| == n && forall i :: 0 <= i < n ==> r[i] == (i <= 1)
  {
    seq(n, i => i <= 1)
  }

  /** Whatever its budget, a pass that begins with the first entry does not visit the second one. */
  lemma FirstPass(n: nat, budget: nat)
    requires n >= 2 && budget >= 1
    ensures StartPass(FirstTwo(n), 0, budget) == Pass(Second(n), 1, 1)
  {
    hide StartFrom;
    Wraps(0, n);
    FirstStart(Pass(FirstTwo(n), 0, 0), 0, 0, budget);
    Wraps(1, n);
    var q := Pass(Second(n), 1, 1);
    assert FirstTwo(n)[0 := false] == Second(n);
    if budget > 1 {
      forall o | 1 <= o < n ensures !Visited(q.flags, 1, o) { Wraps(if o + 1 < n then o + 1 else 0, n); }
      Skips(q, 1, n, budget);
      StartEnd(q, n, budget);
    } else {
      StartStep(q, 1, budget);
    }
  }

  function FirstAsked(): Asks { (k: nat, i: nat) => i == 0 }

  function LastMoves(n: nat): Moves
    requires n >= 1
  {
    (k: nat) => Some(n - 1)
  }

  lemma {:induction false} FirstTurns(k: nat, n: nat, budget: nat)
    requires n >= 2 && budget >= 1
    ensures TurnPassAt(k, Turn(FirstTwo(n), 0), budget, FirstAsked(), LastMoves(n)) == Pass(Second(n), 1, 1)
  {
    hide StartPass;
    Wraps(0, n);
    FirstPass(n, budget);
    if k > 0 {
      FirstTurns(k - 1, n, budget);
      assert Joined(Second(n), FirstAsked(), k - 1) == FirstTwo(n);
    }
  }

  /**
   * With retries and completions before the start pass, any second entry can be starved, whatever budget is left:
   * work on the last entry brings the cursor back to the first.
   */
  lemma TurnStarvationExact(n: nat, budget: nat)
    ensures TurnsCanStarve(n, budget) <==> n >= 2 || (n == 1 && budget == 0)
  {
    if n >= 2 && budget >= 1 {
      var start := Turn(FirstTwo(n), 0);
      forall k: nat ensures SparedInTurn(k, 1, start, budget, FirstAsked(), LastMoves(n)) {
        FirstTurns(k, n, budget);
      }
      assert StarvedByTurns(1, start, budget, FirstAsked(), LastMoves(n)) && |start.flags| == n;
    } else if n >= 1 && budget == 0 {
      var start := Turn(seq(n, i => true), 0);
      forall k: nat ensures SparedInTurn(k, 0, start, 0, NoneAsked(), NoMoves()) {
        IdleMoves(k, start);
      }
      assert StarvedByTurns(0, start, 0, NoneAsked(), NoMoves()) && |start.flags| == n;
    } else if TurnsCanStarve(n, budget) {
      var i: nat, start: Turn, asks: Asks, moves: Moves :|
        StarvedByTurns(i, start, budget, asks, moves) && |start.flags| == n;
      LoneNeverStarves(i, start, budget, asks, moves);
    }
  }

  function NoMoves(): Moves { (k: nat) => None }

  lemma {:induction false} IdleMoves(k: nat, start: Turn)
    ensures TurnPassAt(k, start, 0, NoneAsked(), NoMoves()) == Pass(start.flags, start.cursor, 0)
  {
    if k > 0 {
      IdleMoves(k - 1, start);
      assert Joined(start.flags, NoneAsked(), k - 1) == start.flags;
    }
  }

  lemma LoneNeverStarves(i: nat, start: Turn, budget: nat, asks: Asks, moves: Moves)
    requires |start.flags| == 0 || (|start.flags| == 1 && budget >= 1)
    ensures !StarvedByTurns(i, start, budget, asks, moves)
  {
    if i < |start.flags| && start.cursor < |start.flags| {
      LoneStarts(start, budget, asks, moves);
      assert !SparedInTurn(0, i, start, budget, asks, moves);
    }
  }

  lemma LoneStarts(start: Turn, budget: nat, asks: Asks, moves: Moves)
    requires |start.flags| == 1 && start.cursor == 0 && budget >= 1
    ensures !TurnPassAt(0, start, budget, asks, moves).flags[0]
  {
    var p := Pass(start.flags, 0, 0);
    assert Moved(0, moves(0), 1) == 0;
    if start.flags[0] {
      StartStep(p, 0, budget);
      StartEnd(Pass(start.flags[0 := false], 0, 1), 1, budget);
    } else {
      OnlyClears(p, 0, budget, 0);
    }
  }
}
