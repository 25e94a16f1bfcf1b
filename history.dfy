/**
 * The history heuristic's arithmetic: tables indexed by piece and destination
 * square, the C++ integer division they use, the decay-and-reinforce rule,
 * and which moves a finished node penalizes.
 */
module History {
  import opened Chess

  /** Number of squares on the board. */
  const SQUARE_COUNT := 64

  /** Depth beyond which the history update stops growing. */
  const MAX_HIST_DEPTH := 12

  /** Divisor of the decay step: an entry loses histDepth/64 of itself. */
  const DECAY_DIVISOR := 64

  /** A history table for one side: an integer per (piece, destination square). */
  type Table = seq<seq<int>>

  /** The table has one row per piece type and one entry per square. */
  predicate Shaped(t: Table)
  {
    |t| == PIECE_COUNT && forall p :: 0 <= p < |t| ==> |t[p]| == SQUARE_COUNT
  }

  /** The entry of a table that a move updates or reads. */
  datatype Key = Key(piece: PieceId, square: Square)

  function Abs(x: int): nat
  {
    if x < 0 then -x else x
  }

  /**
   * Integer division as C++ performs it: the quotient is truncated toward
   * zero, unlike Dafny's `/`, whose remainder is never negative.
   */
  function TruncDiv(a: int, d: int): (q: int)
    requires d > 0
    ensures Abs(q) * d <= Abs(a) < (Abs(q) + 1) * d
    ensures (a >= 0 ==> q >= 0) && (a <= 0 ==> q <= 0)
  {
    if a >= 0 then DivBounds(a, d); a / d
    else DivBounds(-a, d); -((-a) / d)
  }

  /** Dafny's quotient of a natural number brackets it between consecutive multiples of the divisor. */
  lemma DivBounds(a: nat, d: int)
    requires d > 0
    ensures 0 <= a / d && (a / d) * d <= a < (a / d + 1) * d
  {
    var q := a / d;
    assert a == q * d + a % d;
    assert (q + 1) * d == q * d + d;
  }

  /** `std::min(depth, 12)`. */
  function HistDepth(depth: int): (hd: int)
    ensures hd <= depth && hd <= MAX_HIST_DEPTH
    ensures hd == depth || hd == MAX_HIST_DEPTH
  {
    if depth < MAX_HIST_DEPTH then depth else MAX_HIST_DEPTH
  }

  /** `e -= histDepth * e / 64`. */
  function Decayed(e: int, hd: int): int
  {
    e - TruncDiv(hd * e, DECAY_DIVISOR)
  }

  /** The update of the best move's entry: decay, then add histDepth squared. */
  function Reinforced(e: int, hd: int): int
  {
    Decayed(e, hd) + hd * hd
  }

  /** The update of a quiet move tried before the best move: decay, then subtract histDepth squared. */
  function Weakened(e: int, hd: int): int
  {
    Decayed(e, hd) - hd * hd
  }

  /** The penalty applied n times in a row to one entry. */
  function WeakenedTimes(e: int, hd: int, n: nat): int
  {
    if n == 0 then e else Weakened(WeakenedTimes(e, hd, n - 1), hd)
  }

  /** The table with entry k replaced by v. */
  function SetEntry(t: Table, k: Key, v: int): (r: Table)
    requires Shaped(t)
    ensures Shaped(r)
    ensures r[k.piece][k.square] == v
    ensures forall p, s :: 0 <= p < PIECE_COUNT && 0 <= s < SQUARE_COUNT && Key(p, s) != k ==> r[p][s] == t[p][s]
  {
    t[k.piece := t[k.piece][k.square := v]]
  }

  function Reward(t: Table, k: Key, hd: int): (r: Table)
    requires Shaped(t)
    ensures Shaped(r)
  {
    SetEntry(t, k, Reinforced(t[k.piece][k.square], hd))
  }

  function Penalty(t: Table, k: Key, hd: int): (r: Table)
    requires Shaped(t)
    ensures Shaped(r)
  {
    SetEntry(t, k, Weakened(t[k.piece][k.square], hd))
  }

  /** The penalty applied to the keys in order, first to last. */
  function PenaltyAll(t: Table, keys: seq<Key>, hd: int): (r: Table)
    requires Shaped(t)
    ensures Shaped(r)
    decreases |keys|
  {
    if keys == [] then t else Penalty(PenaltyAll(t, keys[..|keys| - 1], hd), keys[|keys| - 1], hd)
  }

  /**
   * A finished node's update of one table: reward the best move's entry,
   * then penalize the entries of the tried quiet moves in the order tried.
   */
  function Update(t: Table, best: Key, tried: seq<Key>, hd: int): (r: Table)
    requires Shaped(t)
    ensures Shaped(r)
  {
    PenaltyAll(Reward(t, best, hd), tried, hd)
  }

  lemma PenaltyAllSnoc(t: Table, keys: seq<Key>, k: Key, hd: int)
    requires Shaped(t)
    ensures PenaltyAll(t, keys + [k], hd) == Penalty(PenaltyAll(t, keys, hd), k, hd)
  {
    assert (keys + [k])[..|keys|] == keys;
  }

  /**
   * Each entry ends up penalized once per occurrence of its key, and no
   * entry whose key does not occur changes.
   */
  lemma {:induction false} PenaltyAllAt(t: Table, keys: seq<Key>, hd: int, p: PieceId, s: Square)
    requires Shaped(t)
    ensures PenaltyAll(t, keys, hd)[p][s] == WeakenedTimes(t[p][s], hd, multiset(keys)[Key(p, s)])
  {
    if keys != [] {
      var init, last := keys[..|keys| - 1], keys[|keys| - 1];
      assert keys == init + [last];
      PenaltyAllAt(t, init, hd, p, s);
    }
  }

  /**
   * The exact effect of a node's update on every entry: the best move's entry
   * is reinforced once, then every entry is weakened once per tried quiet
   * move that maps to it; everything else keeps its value.
   */
  lemma UpdateAt(t: Table, best: Key, tried: seq<Key>, hd: int, p: PieceId, s: Square)
    requires Shaped(t)
    ensures Update(t, best, tried, hd)[p][s]
         == WeakenedTimes(if Key(p, s) == best then Reinforced(t[p][s], hd) else t[p][s],
                          hd, multiset(tried)[Key(p, s)])
  {
    PenaltyAllAt(Reward(t, best, hd), tried, hd, p, s);
  }

  /** No entry other than the best move's and the tried moves' changes. */
  lemma UpdateLeavesOthers(t: Table, best: Key, tried: seq<Key>, hd: int, p: PieceId, s: Square)
    requires Shaped(t)
    requires Key(p, s) != best && Key(p, s) !in tried
    ensures Update(t, best, tried, hd)[p][s] == t[p][s]
  {
    UpdateAt(t, best, tried, hd, p, s);
  }

  /**
   * For the depths the engine uses, the decay step pulls an entry toward
   * zero without crossing it, whatever the entry's sign.
   */
  lemma DecayTowardZero(e: int, hd: int)
    requires 0 <= hd <= DECAY_DIVISOR
    ensures e >= 0 ==> 0 <= Decayed(e, hd) <= e
    ensures e <= 0 ==> e <= Decayed(e, hd) <= 0
  {
    var q := TruncDiv(hd * e, DECAY_DIVISOR);
    ScaledAbs(hd, e);
    assert Abs(q) <= Abs(e);
  }

  /** hd * e lies between 0 and 64 * e in absolute value and has e's sign. */
  lemma ScaledAbs(hd: int, e: int)
    requires 0 <= hd <= DECAY_DIVISOR
    ensures Abs(hd * e) <= DECAY_DIVISOR * Abs(e)
    ensures (e >= 0 ==> hd * e >= 0) && (e <= 0 ==> hd * e <= 0)
  {
    if e >= 0 {
      assert hd * e <= DECAY_DIVISOR * e;
    } else {
      assert hd * (-e) <= DECAY_DIVISOR * (-e);
    }
  }

  /**
   * A bound on entries that the update keeps: with histDepth at most 12 an
   * entry within 16 * 64 of zero stays there, since decay removes about
   * histDepth * 16 from an entry at the bound and histDepth squared is less.
   */
  const ENTRY_BOUND := 16 * DECAY_DIVISOR

  /** One reinforcement or one penalty keeps an entry within ENTRY_BOUND. */
  lemma StepKeepsBound(e: int, hd: int)
    requires 0 <= hd <= MAX_HIST_DEPTH && Abs(e) <= ENTRY_BOUND
    ensures Abs(Reinforced(e, hd)) <= ENTRY_BOUND && Abs(Weakened(e, hd)) <= ENTRY_BOUND
  {
    var q := TruncDiv(hd * e, DECAY_DIVISOR);
    DecayTowardZero(e, hd);
    SquareBelow(hd);
    if e >= 0 {
      ScaledAbs(hd, e);
      DecayedBelowBound(e, hd, hd * e, q);
    } else {
      ScaledAbs(hd, e);
      DecayedBelowBound(-e, hd, -(hd * e), -q);
    }
  }

  /** histDepth squared is at most 16 * histDepth for the depths used. */
  lemma SquareBelow(hd: int)
    requires 0 <= hd <= MAX_HIST_DEPTH
    ensures 0 <= hd * hd <= 16 * hd
  {
    assert hd * (16 - hd) >= 0;
  }

  /**
   * Decaying a non-negative entry e at most ENTRY_BOUND, with x = hd * e and
   * q its truncated quotient by 64, leaves at most ENTRY_BOUND - 16 * hd.
   */
  lemma DecayedBelowBound(e: int, hd: int, x: int, q: int)
    requires 0 <= hd <= MAX_HIST_DEPTH && 0 <= e <= ENTRY_BOUND
    requires x == hd * e && q * DECAY_DIVISOR <= x < (q + 1) * DECAY_DIVISOR
    ensures e - q <= ENTRY_BOUND - 16 * hd
  {
    assert (DECAY_DIVISOR - hd) * (ENTRY_BOUND - e) >= 0;
  }

  /** Every entry of the table is within ENTRY_BOUND of zero. */
  predicate Bounded(t: Table)
    requires Shaped(t)
  {
    forall p, s :: 0 <= p < PIECE_COUNT && 0 <= s < SQUARE_COUNT ==> Abs(t[p][s]) <= ENTRY_BOUND
  }

  /** Rewarding one entry keeps a bounded table bounded. */
  lemma RewardKeepsBounded(t: Table, k: Key, hd: int)
    requires Shaped(t) && Bounded(t) && 0 <= hd <= MAX_HIST_DEPTH
    ensures Bounded(Reward(t, k, hd))
  {
    StepKeepsBound(t[k.piece][k.square], hd);
  }

  /** Penalizing one entry keeps a bounded table bounded. */
  lemma PenaltyKeepsBounded(t: Table, k: Key, hd: int)
    requires Shaped(t) && Bounded(t) && 0 <= hd <= MAX_HIST_DEPTH
    ensures Bounded(Penalty(t, k, hd))
  {
    StepKeepsBound(t[k.piece][k.square], hd);
  }

  /** Any sequence of penalties keeps a bounded table bounded. */
  lemma {:induction false} PenaltyAllKeepsBounded(t: Table, keys: seq<Key>, hd: int)
    requires Shaped(t) && Bounded(t) && 0 <= hd <= MAX_HIST_DEPTH
    ensures Bounded(PenaltyAll(t, keys, hd))
    decreases |keys|
  {
    if keys != [] {
      PenaltyAllKeepsBounded(t, keys[..|keys| - 1], hd);
      PenaltyKeepsBounded(PenaltyAll(t, keys[..|keys| - 1], hd), keys[|keys| - 1], hd);
    }
  }

  /**
   * A node's whole update keeps a bounded table bounded, however many moves
   * it penalizes, so the history terms of the scores never leave the bound.
   */
  lemma UpdateKeepsBounded(t: Table, best: Key, tried: seq<Key>, hd: int)
    requires Shaped(t) && Bounded(t) && 0 <= hd <= MAX_HIST_DEPTH
    ensures Bounded(Update(t, best, tried, hd))
  {
    RewardKeepsBounded(t, best, hd);
    PenaltyAllKeepsBounded(Reward(t, best, hd), tried, hd);
  }

  /** Example: entry 100 at depth 6 becomes 100 - 600/64 + 36 = 100 - 9 + 36. */
  lemma ReinforceExample()
    ensures Reinforced(100, HistDepth(6)) == 127
  {
  }

  /** For a negative entry the truncating quotient differs from Dafny's Euclidean one. */
  lemma NegativeEntryTruncates()
    ensures TruncDiv(-600, DECAY_DIVISOR) == -9 && -600 / DECAY_DIVISOR == -10
    ensures Decayed(-100, 6) == -91
  {
  }

  /** The entry of a table that move m belongs to, for the side to move. */
  function KeyOf(board: Board, color: Color, m: Move): Key
  {
    Key(board.pieceOnSquare(color, m.startSq), m.endSq)
  }

  function Keys(board: Board, color: Color, ms: seq<Move>): (ks: seq<Key>)
    ensures |ks| == |ms|
    ensures forall i :: 0 <= i < |ms| ==> ks[i] == KeyOf(board, color, ms[i])
  {
    seq(|ms|, i requires 0 <= i < |ms| => KeyOf(board, color, ms[i]))
  }

  /** The non-capturing moves of ms: each quiet move as often as in ms, and no capture. */
  function Quiets(ms: seq<Move>): (r: seq<Move>)
    ensures multiset(r) <= multiset(ms)
    ensures forall m :: multiset(r)[m] == (if m.isCapture then 0 else multiset(ms)[m])
    ensures forall m :: m in r ==> !m.isCapture
    ensures forall i :: 0 <= i < |ms| && !ms[i].isCapture ==> ms[i] in r
    decreases |ms|
  {
    if ms == [] then []
    else
      var init, last := ms[..|ms| - 1], ms[|ms| - 1];
      assert ms == init + [last];
      Quiets(init) + (if last.isCapture then [] else [last])
  }

  /** The keys of the non-capturing moves among the first n moves of ms, in order. */
  function QuietKeysUpTo(board: Board, color: Color, ms: seq<Move>, n: nat): seq<Key>
    requires n <= |ms|
  {
    if n == 0 then []
    else QuietKeysUpTo(board, color, ms, n - 1) + (if ms[n - 1].isCapture then [] else [KeyOf(board, color, ms[n - 1])])
  }

  /** They are the keys of the quiet moves of that prefix. */
  lemma {:induction false} QuietKeysUpToAre(board: Board, color: Color, ms: seq<Move>, n: nat)
    requires n <= |ms|
    ensures QuietKeysUpTo(board, color, ms, n) == Keys(board, color, Quiets(ms[..n]))
  {
    if n > 0 {
      QuietKeysUpToAre(board, color, ms, n - 1);
      var last := if ms[n - 1].isCapture then [] else [ms[n - 1]];
      QuietsStep(ms, n);
      KeysAppend(board, color, Quiets(ms[..n - 1]), last);
      assert Keys(board, color, last) == if ms[n - 1].isCapture then [] else [KeyOf(board, color, ms[n - 1])];
    }
  }

  /** The quiet moves of a prefix one longer: those of the shorter prefix, then the new move if it is quiet. */
  lemma QuietsStep(ms: seq<Move>, n: nat)
    requires 0 < n <= |ms|
    ensures Quiets(ms[..n]) == Quiets(ms[..n - 1]) + (if ms[n - 1].isCapture then [] else [ms[n - 1]])
  {
    assert ms[..n][..n - 1] == ms[..n - 1];
  }

  /** The keys of two lists in a row are the keys of the first followed by those of the second. */
  lemma KeysAppend(board: Board, color: Color, a: seq<Move>, b: seq<Move>)
    ensures Keys(board, color, a + b) == Keys(board, color, a) + Keys(board, color, b)
  {
  }

  /** The moves of ms strictly before the first occurrence of x (all of ms if x does not occur). */
  function BeforeFirst(ms: seq<Move>, x: Move): (r: seq<Move>)
    ensures |r| <= |ms| && r == ms[..|r|]
    ensures x !in r
    ensures |r| < |ms| ==> ms[|r|] == x
  {
    if ms == [] || ms[0] == x then [] else [ms[0]] + BeforeFirst(ms[1..], x)
  }

  /** The prefix before the first x is the only prefix that avoids x and stops at x or at the end. */
  lemma BeforeFirstIs(ms: seq<Move>, x: Move, n: nat)
    requires n <= |ms| && x !in ms[..n]
    requires n < |ms| ==> ms[n] == x
    ensures BeforeFirst(ms, x) == ms[..n]
  {
  }

  /**
   * The quiet moves a finished node penalizes: those among the first
   * index - 1 served moves that come before the first occurrence of the best
   * move. With nothing served (index 0) there are none.
   */
  function TriedQuiets(ms: seq<Move>, index: nat, best: Move): seq<Move>
    requires index <= |ms|
  {
    if index == 0 then [] else Quiets(BeforeFirst(ms[..index - 1], best))
  }

  /**
   * Where a scan of the first n moves that stops at x stops: the position of
   * the first x among them, or n when there is none.
   */
  function ScanEnd(ms: seq<Move>, n: nat, x: Move): (e: nat)
    requires n <= |ms|
    ensures e <= n
    ensures forall j :: 0 <= j < e ==> ms[j] != x
    ensures e < n ==> ms[e] == x
  {
    if n == 0 then 0
    else
      var e := ScanEnd(ms, n - 1, x);
      if e < n - 1 || ms[n - 1] == x then e else n
  }

  /** The keys of the penalized moves, in the order they are penalized. */
  function TriedKeys(board: Board, color: Color, ms: seq<Move>, index: nat, best: Move): seq<Key>
    requires index <= |ms|
  {
    if index == 0 then [] else QuietKeysUpTo(board, color, ms, ScanEnd(ms, index - 1, best))
  }

  /** They are exactly the keys of the penalized moves. */
  lemma TriedKeysAre(board: Board, color: Color, ms: seq<Move>, index: nat, best: Move)
    requires index <= |ms|
    ensures TriedKeys(board, color, ms, index, best) == Keys(board, color, TriedQuiets(ms, index, best))
  {
    if index > 0 {
      var e := ScanEnd(ms, index - 1, best);
      var pre := ms[..index - 1];
      assert pre[..e] == ms[..e];
      BeforeFirstIs(pre, best, e);
      QuietKeysUpToAre(board, color, ms, e);
    }
  }

  /**
   * A scan of the served moves but the last that avoids the best move up to
   * n and stops there (at the best move or at the end) penalizes the quiet
   * moves before n.
   */
  lemma TriedKeysIs(board: Board, color: Color, ms: seq<Move>, index: nat, best: Move, n: nat)
    requires 0 < index <= |ms| && n <= index - 1
    requires forall j :: 0 <= j < n ==> ms[j] != best
    requires n < index - 1 ==> ms[n] == best
    ensures TriedKeys(board, color, ms, index, best) == QuietKeysUpTo(board, color, ms, n)
  {
  }

  /** The penalized moves are quiet moves that were served before the best move, and none is the best move. */
  lemma TriedQuietsServedBefore(ms: seq<Move>, index: nat, best: Move)
    requires index <= |ms|
    ensures forall m :: m in TriedQuiets(ms, index, best) ==> !m.isCapture && m != best
    ensures forall m :: m in TriedQuiets(ms, index, best) ==> exists i :: 0 <= i < index - 1 && ms[i] == m
  {
    if index > 0 {
      var pre := BeforeFirst(ms[..index - 1], best);
      forall m | m in TriedQuiets(ms, index, best)
        ensures !m.isCapture && m != best
        ensures exists i :: 0 <= i < index - 1 && ms[i] == m
      {
        assert m in multiset(pre);
        var i :| 0 <= i < |pre| && pre[i] == m;
        assert pre[i] == ms[..index - 1][i] == ms[i];
      }
    }
  }
}
