/**
 * What one call of nextMove does, proved about the value model: which moves
 * it may remove, which positions it freezes, which move it selects, and how
 * the served scores are ordered.
 */
module StagingLemmas {
  import opened Chess
  import opened Scoring
  import opened Staging

  /** The moves removed by a stage's generation: the hash move's one copy when leaving the start with a hash move. */
  function Removed(st: OrderState, hashed: Move): multiset<Move>
  {
    if st.stage == StageNone && hashed != NULL_MOVE then multiset{hashed} else multiset{}
  }

  /** The fetch loop takes out at most the one copy of the hash move and otherwise keeps the list as it is. */
  lemma {:induction false} FetchMoves(st: OrderState, hashed: Move, ctx: ScoreContext)
    requires Inv(st, hashed) && ctx.WellFormed()
    ensures st.stage != StageNone ==> Fetch(st, hashed, ctx).moves == st.moves
    ensures multiset(Fetch(st, hashed, ctx).moves) == multiset(st.moves) - Removed(st, hashed)
    decreases 3 - st.stage.Rank()
  {
    if !(st.index < |st.scores| || st.stage == StageQuiets) {
      FetchMoves(Advance(st, hashed, ctx), hashed, ctx);
    }
  }

  /**
   * Serving keeps the list a permutation of the fetched one and only
   * exchanges positions index and the best index, in moves and scores alike.
   */
  lemma ServeSwaps(f: OrderState, hashed: Move, ctx: ScoreContext)
    requires Inv(f, hashed) && ctx.WellFormed() && f.index < |f.scores|
    ensures var r := Serve(f, hashed, ctx); var b := BestIndex(f.scores, f.index);
      && r.1.moves == Swap(f.moves, f.index, b)
      && |f.scores| <= |r.1.scores|
      && r.1.scores[..|f.scores|] == Swap(f.scores, f.index, b)
      && r.1.index == f.index + 1
      && r.0 == r.1.moves[f.index]
  {
  }

  /**
   * A call in the hash stage returns the hash move and changes nothing. Any
   * other call either serves the move at index and moves index on by one, or
   * returns the sentinel, which happens exactly when the quiets are generated
   * and every move has been served.
   */
  lemma NextServesOrEnds(st: OrderState, hashed: Move, ctx: ScoreContext)
    requires Inv(st, hashed) && ctx.WellFormed()
    ensures var r := Next(st, hashed, ctx);
      && (st.stage == StageHashMove ==> r == (hashed, st))
      && (r.0 == NULL_MOVE <==> st.stage != StageHashMove && r.1.index == st.index)
      && (r.0 == NULL_MOVE ==> r.1.stage == StageQuiets && r.1.index == |r.1.moves|)
      && (st.stage != StageHashMove && r.0 != NULL_MOVE ==> r.1.index == st.index + 1 && r.0 == r.1.moves[st.index])
  {
    if st.stage != StageHashMove {
      var f := Fetch(st, hashed, ctx);
      if f.index < |f.scores| {
        ServeSwaps(f, hashed, ctx);
      }
    }
  }

  /**
   * Across a call the move multiset only loses the hash move's copy, and only
   * when the call starts before any generation with a hash move.
   */
  lemma NextMovesMultiset(st: OrderState, hashed: Move, ctx: ScoreContext)
    requires Inv(st, hashed) && ctx.WellFormed()
    ensures multiset(Next(st, hashed, ctx).1.moves) == multiset(st.moves) - Removed(st, hashed)
  {
    if st.stage != StageHashMove {
      var f := Fetch(st, hashed, ctx);
      FetchMoves(st, hashed, ctx);
      if f.index < |f.scores| {
        ServeSwaps(f, hashed, ctx);
      }
    }
  }

  /** Serving leaves each position before index as it was. */
  lemma ServeKeepsPosition(f: OrderState, hashed: Move, ctx: ScoreContext, j: nat)
    requires Inv(f, hashed) && ctx.WellFormed() && f.index < |f.scores| && j < f.index
    ensures var r := Serve(f, hashed, ctx);
      && j < |r.1.scores|
      && r.1.moves[j] == f.moves[j]
      && r.1.scores[j] == f.scores[j]
  {
    var r := Serve(f, hashed, ctx);
    ServeSwaps(f, hashed, ctx);
    assert r.1.scores[j] == r.1.scores[..|f.scores|][j];
  }

  /** A call never moves index, the number of scores or the stage backwards. */
  lemma NextProgress(st: OrderState, hashed: Move, ctx: ScoreContext)
    requires Inv(st, hashed) && ctx.WellFormed()
    ensures var r := Next(st, hashed, ctx);
      && st.index <= r.1.index
      && |st.scores| <= |r.1.scores|
      && r.1.stage.Rank() >= st.stage.Rank()
  {
    if st.stage != StageHashMove {
      var f := Fetch(st, hashed, ctx);
      if f.index < |f.scores| {
        ServeSwaps(f, hashed, ctx);
      }
    }
  }

  /**
   * Positions before index are frozen: a call leaves every move and score
   * already served where it was.
   */
  lemma NextKeepsServed(st: OrderState, hashed: Move, ctx: ScoreContext, j: nat)
    requires Inv(st, hashed) && ctx.WellFormed() && j < st.index
    ensures var r := Next(st, hashed, ctx);
      && j < |r.1.scores|
      && r.1.moves[j] == st.moves[j]
      && r.1.scores[j] == st.scores[j]
  {
    if st.stage != StageHashMove {
      var f := Fetch(st, hashed, ctx);
      NextIs(st, hashed, ctx);
      FetchMoves(st, hashed, ctx);
      assert f.scores[j] == st.scores[j];
      if f.index < |f.scores| {
        ServeKeepsPosition(f, hashed, ctx, j);
      }
    }
  }

  /**
   * The served move is the one with the largest remaining score when it was
   * selected (ties to the lowest position), and it carries its own score to
   * position index.
   */
  lemma NextSelectsBest(st: OrderState, hashed: Move, ctx: ScoreContext)
    requires Inv(st, hashed) && ctx.WellFormed()
    requires st.stage != StageHashMove && Next(st, hashed, ctx).0 != NULL_MOVE
    ensures var f := Fetch(st, hashed, ctx); var r := Next(st, hashed, ctx); var k := st.index;
      && k < |f.scores| <= |r.1.scores|
      && var b := BestIndex(f.scores, k);
      && r.0 == f.moves[b]
      && r.1.scores[k] == f.scores[b]
      && (forall j :: k <= j < |f.scores| ==> f.scores[j] <= r.1.scores[k])
      && (forall j :: k <= j < b ==> f.scores[j] < r.1.scores[k])
  {
    ServeSwaps(Fetch(st, hashed, ctx), hashed, ctx);
  }

  /** The scores paired with their moves, position by position. */
  function Pairs(moves: seq<Move>, scores: seq<int>): (ps: seq<(Move, int)>)
    requires |scores| <= |moves|
    ensures |ps| == |scores|
    ensures forall i :: 0 <= i < |scores| ==> ps[i] == (moves[i], scores[i])
  {
    seq(|scores|, i requires 0 <= i < |scores| => (moves[i], scores[i]))
  }

  /** A call never separates a move from its score: the scored pairs are permuted, not re-matched. */
  lemma NextKeepsPairs(st: OrderState, hashed: Move, ctx: ScoreContext)
    requires Inv(st, hashed) && ctx.WellFormed()
    requires st.stage != StageHashMove && Next(st, hashed, ctx).0 != NULL_MOVE
    ensures var f := Fetch(st, hashed, ctx); var r := Next(st, hashed, ctx);
      && |f.scores| <= |r.1.scores|
      && multiset(Pairs(r.1.moves, r.1.scores[..|f.scores|])) == multiset(Pairs(f.moves, f.scores))
  {
    var f := Fetch(st, hashed, ctx);
    var r := Serve(f, hashed, ctx);
    assert Next(st, hashed, ctx) == r;
    ServeSwaps(f, hashed, ctx);
    var k, b := f.index, BestIndex(f.scores, f.index);
    var before := Pairs(f.moves, f.scores);
    var after := Pairs(r.1.moves, r.1.scores[..|f.scores|]);
    SwapPairs(f.moves, f.scores, k, b);
    assert after == Swap(before, k, b);
  }

  /** Swapping the two lists at the same positions swaps their pairing. */
  lemma SwapPairs(moves: seq<Move>, scores: seq<int>, i: nat, j: nat)
    requires |scores| <= |moves| && i < |scores| && j < |scores|
    ensures Pairs(Swap(moves, i, j), Swap(scores, i, j)) == Swap(Pairs(moves, scores), i, j)
  {
  }

  /**
   * While captures are being served, the quiets are generated right after a
   * selection exactly when the selected score is below the winning-capture band.
   */
  lemma NextGeneratesQuietsEarly(st: OrderState, hashed: Move, ctx: ScoreContext)
    requires Inv(st, hashed) && ctx.WellFormed()
    requires st.stage != StageHashMove && Next(st, hashed, ctx).0 != NULL_MOVE
    requires Fetch(st, hashed, ctx).stage == StageCaptures
    ensures var r := Next(st, hashed, ctx);
      && (r.1.stage == StageQuiets <==> r.1.scores[st.index] < SCORE_WINNING_CAPTURE)
      && (r.1.stage != StageQuiets ==> |r.1.scores| == |Fetch(st, hashed, ctx).scores|)
  {
    NextSelectsBest(st, hashed, ctx);
  }

  /**
   * Two calls in a row serve non-increasing scores when the first one
   * generates nothing after its selection and a scored move is still waiting
   * for the second, even if the history tables change between the calls.
   */
  lemma ConsecutiveScoresNonIncreasing(st: OrderState, st1: OrderState, hashed: Move, ctx1: ScoreContext, ctx2: ScoreContext)
    requires Inv(st, hashed) && ctx1.WellFormed() && ctx2.WellFormed()
    requires st.stage != StageHashMove
    requires Next(st, hashed, ctx1).0 != NULL_MOVE && st1 == Next(st, hashed, ctx1).1
    requires |st1.scores| == |Fetch(st, hashed, ctx1).scores|
    requires st.index + 1 < |st1.scores|
    ensures Next(st1, hashed, ctx2).0 != NULL_MOVE
    ensures Next(st1, hashed, ctx2).1.scores[st.index + 1] <= st1.scores[st.index]
  {
    NextServesOrEnds(st, hashed, ctx1);
    NextServesBestWaiting(st1, hashed, ctx2);
    NextLeavesSmaller(st, st1, hashed, ctx1, BestIndex(st1.scores, st.index + 1));
  }

  /** A call made while a scored move waits at index serves the best waiting score, without generating first. */
  lemma NextServesBestWaiting(st: OrderState, hashed: Move, ctx: ScoreContext)
    requires Inv(st, hashed) && ctx.WellFormed() && st.index < |st.scores|
    ensures var r := Next(st, hashed, ctx);
      && r.0 != NULL_MOVE
      && st.index < |r.1.scores|
      && r.1.scores[st.index] == st.scores[BestIndex(st.scores, st.index)]
  {
    NextIs(st, hashed, ctx);
    assert Fetch(st, hashed, ctx) == st;
    ServeSwaps(st, hashed, ctx);
  }

  /**
   * A call that appends no score after its selection leaves behind index only
   * scores no larger than the one it served.
   */
  lemma NextLeavesSmaller(st: OrderState, st1: OrderState, hashed: Move, ctx: ScoreContext, j: nat)
    requires Inv(st, hashed) && ctx.WellFormed() && st.stage != StageHashMove
    requires Next(st, hashed, ctx).0 != NULL_MOVE && st1 == Next(st, hashed, ctx).1
    requires |st1.scores| == |Fetch(st, hashed, ctx).scores|
    requires st.index < j < |st1.scores|
    ensures st1.scores[j] <= st1.scores[st.index]
  {
    var f := Fetch(st, hashed, ctx);
    NextSelectsBest(st, hashed, ctx);
    var r := Serve(f, hashed, ctx);
    assert Next(st, hashed, ctx) == r;
    ServeRestBelow(f, hashed, ctx, j);
  }

  /** After serving, no score left behind index beats the one just served. */
  lemma ServeRestBelow(f: OrderState, hashed: Move, ctx: ScoreContext, j: nat)
    requires Inv(f, hashed) && ctx.WellFormed() && f.index < j < |f.scores|
    ensures var r := Serve(f, hashed, ctx);
      && |f.scores| <= |r.1.scores|
      && r.1.scores[j] <= r.1.scores[f.index]
  {
    var r := Serve(f, hashed, ctx);
    var k, b := f.index, BestIndex(f.scores, f.index);
    ServeSwaps(f, hashed, ctx);
    assert r.1.scores[j] == Swap(f.scores, k, b)[j];
    assert r.1.scores[k] == Swap(f.scores, k, b)[k];
  }

  /**
   * A call made before any generation, with a hash move, passes through the
   * hash stage without returning the hash move: the move is only taken out
   * of the list (when the list holds it at most once, it is gone).
   */
  lemma NextFromStartSkipsHashMove(st: OrderState, hashed: Move, ctx: ScoreContext)
    requires Inv(st, hashed) && ctx.WellFormed()
    requires st.stage == StageNone && hashed != NULL_MOVE && multiset(st.moves)[hashed] <= 1
    ensures var r := Next(st, hashed, ctx);
      && r.1.stage.Rank() >= StageCaptures.Rank()
      && hashed !in r.1.moves
      && r.0 != hashed
  {
    var r := Next(st, hashed, ctx);
    NextMovesMultiset(st, hashed, ctx);
    NextServesOrEnds(st, hashed, ctx);
    assert multiset(r.1.moves)[hashed] == 0;
  }

  /** Once the quiets are generated and every move has been served, a call returns the sentinel and changes nothing. */
  lemma SentinelPersists(st: OrderState, hashed: Move, ctx: ScoreContext)
    requires Inv(st, hashed) && ctx.WellFormed()
    requires st.stage == StageQuiets && st.index >= |st.scores|
    ensures Next(st, hashed, ctx) == (NULL_MOVE, st)
  {
  }

  /** After a call returns the sentinel, every later call returns it too, whatever the tables then hold. */
  lemma SentinelThenSentinel(st: OrderState, hashed: Move, ctx1: ScoreContext, ctx2: ScoreContext)
    requires Inv(st, hashed) && ctx1.WellFormed() && ctx2.WellFormed()
    requires Next(st, hashed, ctx1).0 == NULL_MOVE
    ensures var st1 := Next(st, hashed, ctx1).1; Next(st1, hashed, ctx2) == (NULL_MOVE, st1)
  {
    NextServesOrEnds(st, hashed, ctx1);
    SentinelPersists(Next(st, hashed, ctx1).1, hashed, ctx2);
  }

  /**
   * A run of nextMove calls, one scoring context per call (the history tables
   * may change between calls): the moves served, the final state, and whether
   * the run stopped at the sentinel.
   */
  function Run(st: OrderState, hashed: Move, ctxs: seq<ScoreContext>): (r: (seq<Move>, OrderState, bool))
    requires Inv(st, hashed) && forall i :: 0 <= i < |ctxs| ==> ctxs[i].WellFormed()
    ensures Inv(r.1, hashed)
    decreases |ctxs|, 1
  {
    if ctxs == [] then ([], st, false) else RunStep(st, hashed, ctxs)
  }

  /** A run of at least one call: the first call, then either the sentinel or its move followed by the rest of the run. */
  function RunStep(st: OrderState, hashed: Move, ctxs: seq<ScoreContext>): (r: (seq<Move>, OrderState, bool))
    requires Inv(st, hashed) && forall i :: 0 <= i < |ctxs| ==> ctxs[i].WellFormed()
    requires ctxs != []
    ensures Inv(r.1, hashed)
    decreases |ctxs|, 0
  {
    var n := Next(st, hashed, ctxs[0]);
    if n.0 == NULL_MOVE then ([], n.1, true)
    else
      var rest := Run(n.1, hashed, ctxs[1..]);
      ([n.0] + rest.0, rest.1, rest.2)
  }

  /**
   * A run serves list positions in order, each once. From any state outside
   * the hash stage, the moves served are those at positions index, index + 1,
   * ... of the final list, and the positions already served are left alone.
   * A run that stops at the sentinel has generated the quiets and served
   * every position.
   */
  lemma RunServesInOrder(st: OrderState, hashed: Move, ctxs: seq<ScoreContext>)
    requires Inv(st, hashed) && forall i :: 0 <= i < |ctxs| ==> ctxs[i].WellFormed()
    requires st.stage != StageHashMove
    ensures var r := Run(st, hashed, ctxs); var served, fin, ended := r.0, r.1, r.2;
      && st.index <= fin.index <= |fin.moves|
      && served == fin.moves[st.index..fin.index]
      && (forall j :: 0 <= j < st.index ==> fin.moves[j] == st.moves[j])
      && (ended ==> fin.stage == StageQuiets && fin.index == |fin.moves|)
  {
    RunBounds(st, hashed, ctxs);
    RunKeepsServed(st, hashed, ctxs);
    RunServedSlice(st, hashed, ctxs);
  }

  /** A run only moves index forward, and stops at the sentinel only when every move is served. */
  lemma {:induction false} RunBounds(st: OrderState, hashed: Move, ctxs: seq<ScoreContext>)
    requires Inv(st, hashed) && forall i :: 0 <= i < |ctxs| ==> ctxs[i].WellFormed()
    requires st.stage != StageHashMove
    ensures var r := Run(st, hashed, ctxs);
      && st.index <= r.1.index <= |r.1.moves|
      && (r.2 ==> r.1.stage == StageQuiets && r.1.index == |r.1.moves|)
    decreases |ctxs|
  {
    if ctxs != [] {
      var n := Next(st, hashed, ctxs[0]);
      if n.0 == NULL_MOVE {
        NextEndStep(st, hashed, ctxs[0]);
      } else {
        NextServedStep(st, hashed, ctxs[0]);
        RunBounds(n.1, hashed, ctxs[1..]);
      }
    }
  }

  /** A run leaves every position already served alone. */
  lemma RunKeepsServed(st: OrderState, hashed: Move, ctxs: seq<ScoreContext>)
    requires Inv(st, hashed) && forall i :: 0 <= i < |ctxs| ==> ctxs[i].WellFormed()
    requires st.stage != StageHashMove
    ensures var fin := Run(st, hashed, ctxs).1;
      st.index <= |fin.moves| && forall j :: 0 <= j < st.index ==> fin.moves[j] == st.moves[j]
  {
    RunBounds(st, hashed, ctxs);
    forall j | 0 <= j < st.index
      ensures Run(st, hashed, ctxs).1.moves[j] == st.moves[j]
    {
      RunKeepsServedAt(st, hashed, ctxs, j);
    }
  }

  /** One served position, followed through a run. */
  lemma {:induction false} RunKeepsServedAt(st: OrderState, hashed: Move, ctxs: seq<ScoreContext>, j: nat)
    requires Inv(st, hashed) && forall i :: 0 <= i < |ctxs| ==> ctxs[i].WellFormed()
    requires st.stage != StageHashMove && j < st.index
    ensures var fin := Run(st, hashed, ctxs).1; j < |fin.moves| && fin.moves[j] == st.moves[j]
    decreases |ctxs|
  {
    if ctxs != [] {
      var n := Next(st, hashed, ctxs[0]);
      NextKeepsServed(st, hashed, ctxs[0], j);
      if n.0 != NULL_MOVE {
        NextServedStep(st, hashed, ctxs[0]);
        RunKeepsServedAt(n.1, hashed, ctxs[1..], j);
      }
    }
  }

  /** The moves a run serves are the final list's positions from the starting index to the final one. */
  lemma RunServedSlice(st: OrderState, hashed: Move, ctxs: seq<ScoreContext>)
    requires Inv(st, hashed) && forall i :: 0 <= i < |ctxs| ==> ctxs[i].WellFormed()
    requires st.stage != StageHashMove
    ensures var r := Run(st, hashed, ctxs);
      st.index <= r.1.index <= |r.1.moves| && r.0 == r.1.moves[st.index..r.1.index]
  {
    var r := Run(st, hashed, ctxs);
    RunBounds(st, hashed, ctxs);
    RunServedCount(st, hashed, ctxs);
    forall k | 0 <= k < |r.0|
      ensures r.0[k] == r.1.moves[st.index + k]
    {
      RunServedAt(st, hashed, ctxs, r, k);
    }
  }

  /** A run serves one move per position it moves index across. */
  lemma {:induction false} RunServedCount(st: OrderState, hashed: Move, ctxs: seq<ScoreContext>)
    requires Inv(st, hashed) && forall i :: 0 <= i < |ctxs| ==> ctxs[i].WellFormed()
    requires st.stage != StageHashMove
    ensures var r := Run(st, hashed, ctxs); |r.0| == r.1.index - st.index
    decreases |ctxs|
  {
    if ctxs != [] {
      var n := Next(st, hashed, ctxs[0]);
      if n.0 == NULL_MOVE {
        NextEndStep(st, hashed, ctxs[0]);
      } else {
        NextServedStep(st, hashed, ctxs[0]);
        RunServedCount(n.1, hashed, ctxs[1..]);
      }
    }
  }

  /** r is the outcome of the run of ctxs from st. */
  predicate IsRun(st: OrderState, hashed: Move, ctxs: seq<ScoreContext>, r: (seq<Move>, OrderState, bool))
    requires Inv(st, hashed) && forall i :: 0 <= i < |ctxs| ==> ctxs[i].WellFormed()
  {
    r == Run(st, hashed, ctxs)
  }

  /** The k-th move a run serves sits at position index + k of the final list. */
  lemma {:induction false} RunServedAt(st: OrderState, hashed: Move, ctxs: seq<ScoreContext>, r: (seq<Move>, OrderState, bool), k: nat)
    requires Inv(st, hashed) && forall i :: 0 <= i < |ctxs| ==> ctxs[i].WellFormed()
    requires st.stage != StageHashMove && IsRun(st, hashed, ctxs, r) && k < |r.0|
    ensures st.index + k < |r.1.moves| && r.0[k] == r.1.moves[st.index + k]
    decreases |ctxs|
  {
    if k == 0 {
      RunHeadServed(st, hashed, ctxs, r);
    } else {
      var st1, rest := RunUncons(st, hashed, ctxs, r);
      RunServedAt(st1, hashed, ctxs[1..], rest, k - 1);
    }
  }

  /** The first move a run serves is the one at the starting index of the final list. */
  lemma RunHeadServed(st: OrderState, hashed: Move, ctxs: seq<ScoreContext>, r: (seq<Move>, OrderState, bool))
    requires Inv(st, hashed) && forall i :: 0 <= i < |ctxs| ==> ctxs[i].WellFormed()
    requires st.stage != StageHashMove && IsRun(st, hashed, ctxs, r) && |r.0| > 0
    ensures st.index < |r.1.moves| && r.0[0] == r.1.moves[st.index]
  {
    var st1, rest := RunUncons(st, hashed, ctxs, r);
    RunKeepsServedAt(st1, hashed, ctxs[1..], st.index);
  }

  /** A run that serves a move: the state after its first call, and the rest of the run from there. */
  lemma RunUncons(st: OrderState, hashed: Move, ctxs: seq<ScoreContext>, r: (seq<Move>, OrderState, bool))
    returns (st1: OrderState, rest: (seq<Move>, OrderState, bool))
    requires Inv(st, hashed) && forall i :: 0 <= i < |ctxs| ==> ctxs[i].WellFormed()
    requires st.stage != StageHashMove && IsRun(st, hashed, ctxs, r) && |r.0| > 0
    ensures ctxs != [] && Inv(st1, hashed) && st1.stage != StageHashMove
    ensures st1.index == st.index + 1 <= |st1.moves| && r.0[0] == st1.moves[st.index]
    ensures IsRun(st1, hashed, ctxs[1..], rest) && r.0 == [r.0[0]] + rest.0 && r.1 == rest.1 && r.2 == rest.2
    ensures multiset(st1.moves) - Removed(st1, hashed) == multiset(st.moves) - Removed(st, hashed)
  {
    RunServedSome(st, hashed, ctxs);
    var n := Next(st, hashed, ctxs[0]);
    NextServedStep(st, hashed, ctxs[0]);
    RunCons(st, hashed, ctxs);
    st1 := n.1;
    rest := Run(st1, hashed, ctxs[1..]);
  }

  /** A run that serves anything made at least one call, and that call served a move. */
  lemma RunServedSome(st: OrderState, hashed: Move, ctxs: seq<ScoreContext>)
    requires Inv(st, hashed) && forall i :: 0 <= i < |ctxs| ==> ctxs[i].WellFormed()
    requires |Run(st, hashed, ctxs).0| > 0
    ensures ctxs != [] && Next(st, hashed, ctxs[0]).0 != NULL_MOVE
  {
    assert ctxs != [];
    assert Run(st, hashed, ctxs) == RunStep(st, hashed, ctxs);
  }

  /** A run whose first call serves a move is that move followed by the run from the new state. */
  lemma RunCons(st: OrderState, hashed: Move, ctxs: seq<ScoreContext>)
    requires Inv(st, hashed) && forall i :: 0 <= i < |ctxs| ==> ctxs[i].WellFormed()
    requires ctxs != [] && Next(st, hashed, ctxs[0]).0 != NULL_MOVE
    ensures var n := Next(st, hashed, ctxs[0]); var rest := Run(n.1, hashed, ctxs[1..]);
      Run(st, hashed, ctxs) == ([n.0] + rest.0, rest.1, rest.2)
  {
  }

  /**
   * No move is lost: when a run from a state outside the hash stage stops at
   * the sentinel, the moves served earlier and the moves served by the run are
   * exactly the list, less the hash move's removed copy.
   */
  lemma RunServesAll(st: OrderState, hashed: Move, ctxs: seq<ScoreContext>)
    requires Inv(st, hashed) && forall i :: 0 <= i < |ctxs| ==> ctxs[i].WellFormed()
    requires st.stage != StageHashMove
    ensures var r := Run(st, hashed, ctxs); var served, fin, ended := r.0, r.1, r.2;
      && st.index <= |fin.moves|
      && (ended ==> multiset(fin.moves[..st.index]) + multiset(served) == multiset(st.moves) - Removed(st, hashed))
  {
    RunServesAllOf(st, hashed, ctxs, Run(st, hashed, ctxs));
  }

  /** RunServesAll, by induction on the run r. */
  lemma {:induction false} RunServesAllOf(st: OrderState, hashed: Move, ctxs: seq<ScoreContext>, r: (seq<Move>, OrderState, bool))
    requires Inv(st, hashed) && forall i :: 0 <= i < |ctxs| ==> ctxs[i].WellFormed()
    requires st.stage != StageHashMove && IsRun(st, hashed, ctxs, r)
    ensures st.index <= |r.1.moves|
    ensures r.2 ==> multiset(r.1.moves[..st.index]) + multiset(r.0) == multiset(st.moves) - Removed(st, hashed)
    decreases |ctxs|
  {
    if r.0 == [] {
      RunNothingServed(st, hashed, ctxs, r);
    } else {
      var st1, rest := RunUncons(st, hashed, ctxs, r);
      RunServesAllOf(st1, hashed, ctxs[1..], rest);
      RunHeadServed(st, hashed, ctxs, r);
      if r.2 {
        ServedMultisetStep(r.1.moves, st.index, st1.index, r.0[0], rest.0, multiset(st.moves) - Removed(st, hashed));
      }
    }
  }

  /** A run that serves nothing either made no call or stopped at the sentinel on its first call. */
  lemma RunNothingServed(st: OrderState, hashed: Move, ctxs: seq<ScoreContext>, r: (seq<Move>, OrderState, bool))
    requires Inv(st, hashed) && forall i :: 0 <= i < |ctxs| ==> ctxs[i].WellFormed()
    requires st.stage != StageHashMove && IsRun(st, hashed, ctxs, r) && r.0 == []
    ensures st.index <= |r.1.moves|
    ensures r.2 ==> multiset(r.1.moves[..st.index]) == multiset(st.moves) - Removed(st, hashed)
  {
    if ctxs != [] {
      RunStopsAtFirst(st, hashed, ctxs);
      NextEndStep(st, hashed, ctxs[0]);
    }
  }

  /** A run of at least one call that serves nothing stopped at the sentinel on that call. */
  lemma RunStopsAtFirst(st: OrderState, hashed: Move, ctxs: seq<ScoreContext>)
    requires Inv(st, hashed) && forall i :: 0 <= i < |ctxs| ==> ctxs[i].WellFormed()
    requires ctxs != [] && Run(st, hashed, ctxs).0 == []
    ensures var n := Next(st, hashed, ctxs[0]); n.0 == NULL_MOVE && Run(st, hashed, ctxs) == ([], n.1, true)
  {
    assert Run(st, hashed, ctxs) == RunStep(st, hashed, ctxs);
  }

  /** A call that serves a move: what a run needs to know about it. */
  lemma NextServedStep(st: OrderState, hashed: Move, ctx: ScoreContext)
    requires Inv(st, hashed) && ctx.WellFormed() && st.stage != StageHashMove
    requires Next(st, hashed, ctx).0 != NULL_MOVE
    ensures var n := Next(st, hashed, ctx);
      && n.1.stage != StageHashMove
      && n.1.index == st.index + 1 <= |n.1.moves|
      && n.0 == n.1.moves[st.index]
      && multiset(n.1.moves) - Removed(n.1, hashed) == multiset(st.moves) - Removed(st, hashed)
  {
    NextServesOrEnds(st, hashed, ctx);
    NextMovesMultiset(st, hashed, ctx);
  }

  /** A call that returns the sentinel: everything is served and the list is the old one less the removed copy. */
  lemma NextEndStep(st: OrderState, hashed: Move, ctx: ScoreContext)
    requires Inv(st, hashed) && ctx.WellFormed()
    requires Next(st, hashed, ctx).0 == NULL_MOVE
    ensures var n := Next(st, hashed, ctx);
      && n.1.stage == StageQuiets
      && n.1.index == st.index == |n.1.moves|
      && multiset(n.1.moves[..st.index]) == multiset(st.moves) - Removed(st, hashed)
  {
    NextServesOrEnds(st, hashed, ctx);
    NextMovesMultiset(st, hashed, ctx);
    var n := Next(st, hashed, ctx);
    assert n.1.moves[..st.index] == n.1.moves;
  }

  /** Moving the move at position k from the prefix to the front of the served moves keeps their multiset. */
  lemma ServedMultisetStep(moves: seq<Move>, k: nat, next: nat, m: Move, rest: seq<Move>, total: multiset<Move>)
    requires k < next == k + 1 <= |moves| && moves[k] == m
    requires multiset(moves[..next]) + multiset(rest) == total
    ensures multiset(moves[..k]) + multiset([m] + rest) == total
  {
    assert moves[..k + 1] == moves[..k] + [m];
  }
}
