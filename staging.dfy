/**
 * The move orderer's state and its transitions as values: the staged
 * generation (hash move, captures, quiets), the fetch loop, and the partial
 * selection sort that serves one move per call. The class in module Orderer
 * is proved to change its fields exactly as these functions say.
 */
module Staging {
  import opened Chess
  import opened Scoring

  /** The generation stages, in the order the enumeration declares them. */
  datatype Stage = StageNone | StageHashMove | StageCaptures | StageQuiets
  {
    function Rank(): (r: nat)
      ensures r <= 3
    {
      match this
      case StageNone => 0
      case StageHashMove => 1
      case StageCaptures => 2
      case StageQuiets => 3
    }
  }

  /** The orderer's mutable fields. */
  datatype OrderState = OrderState(stage: Stage, moves: seq<Move>, scores: seq<int>, quietStart: nat, index: nat)

  /**
   * What holds between calls: scores are a prefix-aligned list no longer than
   * the moves, served positions are scored, the sentinel is not a move, and
   * the stage fixes how many moves are scored. While captures are being
   * served, every move below quietStart is a capture.
   */
  predicate Inv(st: OrderState, hashed: Move)
  {
    && st.index <= |st.scores| <= |st.moves|
    && st.quietStart <= |st.moves|
    && NULL_MOVE !in st.moves
    && (st.stage == StageNone ==> st.scores == [] && st.index == 0 && st.quietStart == 0)
    && (st.stage == StageHashMove ==> st.scores == [] && st.index == 0 && st.quietStart == 0 && hashed != NULL_MOVE)
    && (st.stage == StageCaptures ==>
          |st.scores| == st.quietStart && forall i :: 0 <= i < st.quietStart ==> st.moves[i].isCapture)
    && (st.stage == StageQuiets ==> |st.scores| == |st.moves|)
  }

  /**
   * The position of the first non-capture, or the length when every move is a
   * capture: every move before it is a capture.
   */
  function FirstQuiet(moves: seq<Move>): (q: nat)
    ensures q <= |moves|
    ensures forall i :: 0 <= i < q ==> moves[i].isCapture
    ensures q < |moves| ==> !moves[q].isCapture
  {
    if moves == [] || !moves[0].isCapture then 0 else 1 + FirstQuiet(moves[1..])
  }

  /**
   * The scan stops at the first non-capture: for a capture, a quiet move, a
   * killer and a capture, the quiets start at position 1, and the last
   * capture lies in the quiet partition.
   */
  lemma QuietStartExample()
    ensures var capA, quietB := Move(12, 28, NoPromotion, true), Move(1, 18, NoPromotion, false);
      var killerC, capD := Move(6, 21, NoPromotion, false), Move(3, 39, NoPromotion, true);
      FirstQuiet([capA, quietB, killerC, capD]) == 1
  {
  }

  /** The position of the first occurrence of x, or the length when x does not occur. */
  function FirstIndex(ms: seq<Move>, x: Move): (i: nat)
    ensures i <= |ms|
    ensures forall j :: 0 <= j < i ==> ms[j] != x
    ensures i < |ms| ==> ms[i] == x
  {
    if ms == [] || ms[0] == x then 0 else 1 + FirstIndex(ms[1..], x)
  }

  /**
   * The list with the first occurrence of x taken out. Exactly one copy of x
   * leaves the multiset when x occurs, and nothing else changes.
   */
  function RemoveFirst(ms: seq<Move>, x: Move): (r: seq<Move>)
    ensures multiset(r) == multiset(ms) - multiset{x}
    ensures |r| == if x in ms then |ms| - 1 else |ms|
    ensures x !in ms ==> r == ms
  {
    var i := FirstIndex(ms, x);
    if i == |ms| then
      assert x !in ms by {
        forall j | 0 <= j < |ms| ensures ms[j] != x { }
      }
      ms
    else
      var before, after := ms[..i], ms[i + 1..];
      assert ms == before + [x] + after;
      assert multiset(ms) == multiset(before) + multiset{x} + multiset(after);
      before + after
  }

  /** Deleting the first occurrence, found at position i, is what RemoveFirst does. */
  lemma RemoveFirstAt(ms: seq<Move>, x: Move, i: nat)
    requires i < |ms| && ms[i] == x
    requires forall j :: 0 <= j < i ==> ms[j] != x
    ensures RemoveFirst(ms, x) == ms[..i] + ms[i + 1..]
  {
  }

  /** The sequence with positions i and j exchanged. */
  function Swap<T>(s: seq<T>, i: nat, j: nat): (r: seq<T>)
    requires i < |s| && j < |s|
    ensures |r| == |s| && r[i] == s[j] && r[j] == s[i]
    ensures forall k :: 0 <= k < |s| && k != i && k != j ==> r[k] == s[k]
    ensures multiset(r) == multiset(s)
  {
    s[i := s[j]][j := s[i]]
  }

  /**
   * The first position, at or after from, of the largest score: it is a
   * maximum of s[from..], and every earlier candidate is strictly smaller.
   */
  function BestIndex(s: seq<int>, from: nat): (b: nat)
    requires from < |s|
    ensures from <= b < |s|
    ensures forall j :: from <= j < |s| ==> s[j] <= s[b]
    ensures forall j :: from <= j < b ==> s[j] < s[b]
    decreases |s| - from
  {
    if from == |s| - 1 then from
    else
      var rest := BestIndex(s, from + 1);
      if s[rest] > s[from] then rest else from
  }

  /** A position that is a maximum and beats every earlier candidate is the best index. */
  lemma BestIndexUnique(s: seq<int>, from: nat, b: nat)
    requires from <= b < |s|
    requires forall j :: from <= j < |s| ==> s[j] <= s[b]
    requires forall j :: from <= j < b ==> s[j] < s[b]
    ensures b == BestIndex(s, from)
  {
  }

  /** Finding where the quiets start and scoring every move before that point. */
  function CapturesScored(st: OrderState, ctx: ScoreContext): OrderState
  {
    var q := FirstQuiet(st.moves);
    st.(stage := StageCaptures, quietStart := q, scores := st.scores + CaptureScores(ctx, st.moves[..q]))
  }

  /**
   * One generation step. From the start, a hash move moves the stage to
   * HASH_MOVE and takes the hash move out of the list; otherwise (or after the
   * hash move) the captures are scored; after the captures the quiets are
   * scored; after the quiets nothing happens. The stage only moves forward,
   * scores are only appended, and nothing is served.
   */
  function Advance(st: OrderState, hashed: Move, ctx: ScoreContext): (r: OrderState)
    requires Inv(st, hashed) && ctx.WellFormed()
    ensures Inv(r, hashed)
    ensures r.index == st.index && st.scores <= r.scores
    ensures st.stage == StageQuiets ==> r == st
    ensures st.stage != StageQuiets ==> r.stage.Rank() > st.stage.Rank()
    ensures st.stage != StageNone ==> r.moves == st.moves
    ensures st.stage == StageNone && hashed != NULL_MOVE ==>
              r.stage == StageHashMove && multiset(r.moves) == multiset(st.moves) - multiset{hashed}
    ensures (st.stage == StageNone && hashed == NULL_MOVE) || st.stage == StageHashMove ==>
              r.stage == StageCaptures && r.moves == st.moves && r.quietStart == FirstQuiet(st.moves)
    ensures st.stage == StageCaptures ==> r.stage == StageQuiets && |r.scores| == |r.moves|
  {
    match st.stage
    case StageNone =>
      if hashed != NULL_MOVE then st.(stage := StageHashMove, moves := RemoveFirst(st.moves, hashed))
      else CapturesScored(st, ctx)
    case StageHashMove => CapturesScored(st, ctx)
    case StageCaptures => st.(stage := StageQuiets, scores := st.scores + QuietScores(ctx, st.moves[st.quietStart..]))
    case StageQuiets => st
  }

  /**
   * The fetch loop: generate until a scored move is waiting at index or the
   * quiets have been generated.
   */
  function Fetch(st: OrderState, hashed: Move, ctx: ScoreContext): (r: OrderState)
    requires Inv(st, hashed) && ctx.WellFormed()
    ensures Inv(r, hashed)
    ensures r.index == st.index && st.scores <= r.scores
    ensures r.index < |r.scores| || r.stage == StageQuiets
    ensures r.stage.Rank() >= st.stage.Rank()
    decreases 3 - st.stage.Rank()
  {
    if st.index < |st.scores| || st.stage == StageQuiets then st
    else Fetch(Advance(st, hashed, ctx), hashed, ctx)
  }

  /** How many generation steps the fetch loop takes: at most one per remaining stage, so never more than three. */
  function FetchRounds(st: OrderState, hashed: Move, ctx: ScoreContext): (n: nat)
    requires Inv(st, hashed) && ctx.WellFormed()
    ensures n + st.stage.Rank() <= 3
    decreases 3 - st.stage.Rank()
  {
    if st.index < |st.scores| || st.stage == StageQuiets then 0
    else 1 + FetchRounds(Advance(st, hashed, ctx), hashed, ctx)
  }

  /** n generation steps in a row. */
  function AdvanceN(st: OrderState, hashed: Move, ctx: ScoreContext, n: nat): (r: OrderState)
    requires Inv(st, hashed) && ctx.WellFormed()
    ensures Inv(r, hashed)
    decreases n
  {
    if n == 0 then st else AdvanceN(Advance(st, hashed, ctx), hashed, ctx, n - 1)
  }

  /** The fetch loop is exactly FetchRounds generation steps, so it calls generateMoves at most three times. */
  lemma {:induction false} FetchIsRounds(st: OrderState, hashed: Move, ctx: ScoreContext)
    requires Inv(st, hashed) && ctx.WellFormed()
    ensures Fetch(st, hashed, ctx) == AdvanceN(st, hashed, ctx, FetchRounds(st, hashed, ctx))
    ensures FetchRounds(st, hashed, ctx) <= 3
    decreases 3 - st.stage.Rank()
  {
    if !(st.index < |st.scores| || st.stage == StageQuiets) {
      FetchIsRounds(Advance(st, hashed, ctx), hashed, ctx);
    }
  }

  /**
   * Serving from a fetched state: pick the best remaining score, swap that
   * move and its score into position index, generate the quiets early if
   * captures are being served and the best one is no longer winning, and hand
   * out the move at index.
   */
  function Serve(f: OrderState, hashed: Move, ctx: ScoreContext): (r: (Move, OrderState))
    requires Inv(f, hashed) && ctx.WellFormed() && f.index < |f.scores|
    ensures Inv(r.1, hashed)
  {
    var k := f.index;
    var b := BestIndex(f.scores, k);
    var s := f.(moves := Swap(f.moves, k, b), scores := Swap(f.scores, k, b));
    SwapKeepsInv(f, hashed, b);
    var g := if s.stage == StageCaptures && f.scores[b] < SCORE_WINNING_CAPTURE then Advance(s, hashed, ctx) else s;
    (g.moves[k], g.(index := k + 1))
  }

  /**
   * Exchanging two unserved scored positions, in the moves and the scores
   * together, keeps the invariant: the sentinel stays out, and while captures
   * are served both positions lie below quietStart.
   */
  lemma SwapKeepsInv(f: OrderState, hashed: Move, b: nat)
    requires Inv(f, hashed) && f.index <= b < |f.scores|
    ensures Inv(f.(moves := Swap(f.moves, f.index, b), scores := Swap(f.scores, f.index, b)), hashed)
  {
    var s := f.(moves := Swap(f.moves, f.index, b), scores := Swap(f.scores, f.index, b));
    assert NULL_MOVE !in multiset(s.moves);
  }

  /**
   * One call of nextMove: in the hash stage the hash move is returned and
   * nothing changes; otherwise fetch, and either report the end of the moves
   * with the sentinel or serve the best remaining move.
   */
  function Next(st: OrderState, hashed: Move, ctx: ScoreContext): (r: (Move, OrderState))
    requires Inv(st, hashed) && ctx.WellFormed()
    ensures Inv(r.1, hashed)
  {
    if st.stage == StageHashMove then (hashed, st)
    else
      var f := Fetch(st, hashed, ctx);
      if f.index >= |f.scores| then (NULL_MOVE, f) else Serve(f, hashed, ctx)
  }

  /** Serving, spelled out: swap the best into place, maybe generate the quiets, and hand out the move at index. */
  lemma ServeIs(f: OrderState, hashed: Move, ctx: ScoreContext, b: nat, g: OrderState)
    requires Inv(f, hashed) && ctx.WellFormed() && f.index < |f.scores|
    requires b == BestIndex(f.scores, f.index)
    requires var s := f.(moves := Swap(f.moves, f.index, b), scores := Swap(f.scores, f.index, b));
      && Inv(s, hashed)
      && g == if s.stage == StageCaptures && f.scores[b] < SCORE_WINNING_CAPTURE then Advance(s, hashed, ctx) else s
    ensures f.index < |g.moves|
    ensures Serve(f, hashed, ctx) == (g.moves[f.index], g.(index := f.index + 1))
  {
  }

  /** Outside the hash stage, a call whose fetch finds a scored move waiting serves it; otherwise it returns the sentinel. */
  lemma NextIs(st: OrderState, hashed: Move, ctx: ScoreContext)
    requires Inv(st, hashed) && ctx.WellFormed() && st.stage != StageHashMove
    ensures var f := Fetch(st, hashed, ctx);
      Next(st, hashed, ctx) == if f.index < |f.scores| then Serve(f, hashed, ctx) else (NULL_MOVE, f)
  {
  }
}
