/**
 * The move orderer as the engine runs it: an object whose methods update its
 * stage, move list, score list, quietStart and index in place, and which
 * writes to history tables that belong to the search and outlive it. Every
 * method is proved to change the fields exactly as the value model in module
 * Staging (or, for the history update, module History) says.
 */
module Orderer {
  import opened Chess
  import opened History
  import opened Scoring
  import opened Staging

  /** The search-wide tables the orderer reads and writes: killer moves per ply and one history table per side. */
  class SearchParameters {
    var killers: seq<seq<Move>>
    var historyTable: seq<Table>

    constructor(killers: seq<seq<Move>>, historyTable: seq<Table>)
      ensures this.killers == killers && this.historyTable == historyTable
    {
      this.killers := killers;
      this.historyTable := historyTable;
    }

    /** The best move's update of one side's entry: decay, then add histDepth squared. */
    method Reinforce(color: Color, k: Key, histDepth: int)
      requires color < |historyTable| && Shaped(historyTable[color])
      modifies this`historyTable
      ensures historyTable == old(historyTable)[color := Reward(old(historyTable[color]), k, histDepth)]
    {
      var e := historyTable[color][k.piece][k.square];
      e := e - TruncDiv(histDepth * e, DECAY_DIVISOR);
      e := e + histDepth * histDepth;
      historyTable := historyTable[color := SetEntry(historyTable[color], k, e)];
    }

    /** A tried quiet move's update of one side's entry: decay, then subtract histDepth squared. */
    method Weaken(color: Color, k: Key, histDepth: int)
      requires color < |historyTable| && Shaped(historyTable[color])
      modifies this`historyTable
      ensures historyTable == old(historyTable)[color := Penalty(old(historyTable[color]), k, histDepth)]
    {
      var e := historyTable[color][k.piece][k.square];
      e := e - TruncDiv(histDepth * e, DECAY_DIVISOR);
      e := e - histDepth * histDepth;
      historyTable := historyTable[color := SetEntry(historyTable[color], k, e)];
    }
  }

  /** A piece-to-square history table that a search node may point to (counter-move or follow-up history). */
  class PieceSquareHistory {
    var entries: Table

    constructor(entries: Table)
      ensures this.entries == entries
    {
      this.entries := entries;
    }

    method Reinforce(k: Key, histDepth: int)
      requires Shaped(entries)
      modifies this
      ensures entries == Reward(old(entries), k, histDepth)
    {
      var e := entries[k.piece][k.square];
      e := e - TruncDiv(histDepth * e, DECAY_DIVISOR);
      e := e + histDepth * histDepth;
      entries := SetEntry(entries, k, e);
    }

    method Weaken(k: Key, histDepth: int)
      requires Shaped(entries)
      modifies this
      ensures entries == Penalty(old(entries), k, histDepth)
    {
      var e := entries[k.piece][k.square];
      e := e - TruncDiv(histDepth * e, DECAY_DIVISOR);
      e := e - histDepth * histDepth;
      entries := SetEntry(entries, k, e);
    }
  }

  /** The per-node search stack entry: its ply and the two optional history tables. */
  class SearchStackInfo {
    var ply: nat
    var counterMoveHistory: PieceSquareHistory?
    var followupMoveHistory: PieceSquareHistory?

    constructor(ply: nat, counterMoveHistory: PieceSquareHistory?, followupMoveHistory: PieceSquareHistory?)
      ensures this.ply == ply
      ensures this.counterMoveHistory == counterMoveHistory && this.followupMoveHistory == followupMoveHistory
    {
      this.ply := ply;
      this.counterMoveHistory := counterMoveHistory;
      this.followupMoveHistory := followupMoveHistory;
    }
  }

  /**
   * The selection scan of nextMove: the first position, from index on, of the
   * largest score (a later equal score does not replace it), and that score.
   */
  method FindBest(scores: seq<int>, index: nat) returns (bestIndex: nat, bestScore: int)
    requires index < |scores|
    ensures index <= bestIndex < |scores| && bestScore == scores[bestIndex]
    ensures forall j :: index <= j < |scores| ==> scores[j] <= bestScore
    ensures forall j :: index <= j < bestIndex ==> scores[j] < bestScore
    ensures bestIndex == BestIndex(scores, index)
  {
    bestIndex := index;
    bestScore := scores[index];
    for i := index + 1 to |scores|
      invariant index <= bestIndex < i
      invariant bestScore == scores[bestIndex]
      invariant forall j :: index <= j < i ==> scores[j] <= bestScore
      invariant forall j :: index <= j < bestIndex ==> scores[j] < bestScore
    {
      if scores[i] > bestScore {
        bestIndex := i;
        bestScore := scores[bestIndex];
      }
    }
    BestIndexUnique(scores, index, bestIndex);
  }

  class MoveOrder {
    const board: Board
    const color: Color
    const depth: int
    const isPVNode: bool
    const searchParams: SearchParameters
    const ssi: SearchStackInfo
    const hashed: Move
    var mgStage: Stage
    var legalMoves: seq<Move>
    var scores: seq<int>
    var quietStart: nat
    var index: nat

    /** The orderer's mutable fields as one value of the model. */
    function Snapshot(): OrderState
      reads this
    {
      OrderState(mgStage, legalMoves, scores, quietStart, index)
    }

    /** The invariant between calls. */
    ghost predicate Valid()
      reads this
    {
      Inv(Snapshot(), hashed)
    }

    /**
     * What the orderer reads outside itself is in range: the node's ply has a
     * killer slot, there is a history table per side, and every table has a
     * row per piece and an entry per square.
     */
    predicate ContextOk()
      reads searchParams, ssi, ssi.counterMoveHistory, ssi.followupMoveHistory
    {
      && ssi.ply < |searchParams.killers| && |searchParams.killers[ssi.ply]| > 0
      && |searchParams.historyTable| == 2
      && (forall c :: 0 <= c < 2 ==> Shaped(searchParams.historyTable[c]))
      && (ssi.counterMoveHistory != null ==> Shaped(ssi.counterMoveHistory.entries))
      && (ssi.followupMoveHistory != null ==> Shaped(ssi.followupMoveHistory.entries))
    }

    /** Everything scoring reads, as one value: the board, the side, the node kind, the killer and the three tables. */
    function ScoreCtx(): (ctx: ScoreContext)
      requires ContextOk()
      reads searchParams, ssi, ssi.counterMoveHistory, ssi.followupMoveHistory
      ensures ctx.WellFormed()
    {
      ScoreContext(
        board, color, isPVNode,
        searchParams.killers[ssi.ply][0],
        searchParams.historyTable[color],
        if ssi.counterMoveHistory == null then None else Some(ssi.counterMoveHistory.entries),
        if ssi.followupMoveHistory == null then None else Some(ssi.followupMoveHistory.entries))
    }

    /** The orderer starts before any generation, with nothing scored or served and its own copy of the moves. */
    constructor(board: Board, color: Color, depth: int, isPVNode: bool,
                searchParams: SearchParameters, ssi: SearchStackInfo, hashed: Move, legalMoves: seq<Move>)
      requires NULL_MOVE !in legalMoves
      ensures this.board == board && this.color == color && this.depth == depth && this.isPVNode == isPVNode
      ensures this.searchParams == searchParams && this.ssi == ssi && this.hashed == hashed
      ensures Snapshot() == OrderState(StageNone, legalMoves, [], 0, 0)
      ensures Valid()
    {
      this.board := board;
      this.color := color;
      this.depth := depth;
      this.isPVNode := isPVNode;
      this.searchParams := searchParams;
      this.ssi := ssi;
      mgStage := StageNone;
      quietStart := 0;
      index := 0;
      this.hashed := hashed;
      this.legalMoves := legalMoves;
      scores := [];
    }

    /** One generation step: the stage moves on and the list and scores change as Advance says. */
    method GenerateMoves()
      requires Valid() && ContextOk()
      modifies this
      ensures Snapshot() == Advance(old(Snapshot()), hashed, ScoreCtx())
      ensures Valid()
    {
      match mgStage
      case StageNone =>
        if hashed != NULL_MOVE {
          mgStage := StageHashMove;
          RemoveHashMove();
        } else {
          FindQuietStart();
          mgStage := StageCaptures;
          ScoreCaptures();
        }
      case StageHashMove =>
        FindQuietStart();
        mgStage := StageCaptures;
        ScoreCaptures();
      case StageCaptures =>
        mgStage := StageQuiets;
        ScoreQuiets();
      case StageQuiets =>
    }

    /** Takes the first copy of the hash move out of the list, if it is there. */
    method RemoveHashMove()
      modifies this`legalMoves
      ensures legalMoves == RemoveFirst(old(legalMoves), hashed)
    {
      for i := 0 to |legalMoves|
        invariant legalMoves == old(legalMoves)
        invariant forall j :: 0 <= j < i ==> legalMoves[j] != hashed
      {
        if legalMoves[i] == hashed {
          RemoveFirstAt(legalMoves, hashed, i);
          legalMoves := legalMoves[..i] + legalMoves[i + 1..];
          return;
        }
      }
    }

    /** Appends one score per move below quietStart, as CaptureScore rates it. */
    method ScoreCaptures()
      requires ContextOk() && quietStart <= |legalMoves|
      modifies this`scores
      ensures scores == old(scores) + CaptureScores(ScoreCtx(), legalMoves[..quietStart])
    {
      ghost var ctx := ScoreCtx();
      ghost var start := scores;
      for i := 0 to quietStart
        invariant scores == start + CaptureScores(ctx, legalMoves[..i])
      {
        var m := legalMoves[i];
        var score := CaptureMoveScore(m);
        scores := scores + [score];
        CaptureScoresStep(ctx, legalMoves, i);
      }
    }

    /**
     * The body of the capture-scoring loop for one move: at a PV node the
     * exchange evaluation decides the band and is added in, otherwise the
     * cheap exchange estimate decides and the full evaluation is consulted
     * only when the estimate is negative.
     */
    method CaptureMoveScore(m: Move) returns (score: int)
      requires ContextOk()
      ensures score == CaptureScore(ScoreCtx(), m)
    {
      if isPVNode {
        var see := board.seeForMove(color, m);
        if see > 0 {
          score := SCORE_WINNING_CAPTURE + see + board.mvvLvaScore(color, m);
        } else if see == 0 {
          score := SCORE_EVEN_CAPTURE + board.mvvLvaScore(color, m);
        } else {
          score := SCORE_LOSING_CAPTURE + see + board.mvvLvaScore(color, m);
        }
      } else {
        var exchange := board.exchangeScore(color, m);
        if exchange > 0 {
          score := SCORE_WINNING_CAPTURE + board.mvvLvaScore(color, m);
        } else if exchange == 0 {
          score := SCORE_EVEN_CAPTURE + board.mvvLvaScore(color, m);
        } else {
          var see := board.seeForMove(color, m);
          if see > 0 {
            score := SCORE_WINNING_CAPTURE + board.mvvLvaScore(color, m);
          } else if see == 0 {
            score := SCORE_EVEN_CAPTURE + board.mvvLvaScore(color, m);
          } else {
            score := SCORE_LOSING_CAPTURE + board.mvvLvaScore(color, m);
          }
        }
      }
    }

    /** Appends one score per move from quietStart to the end, as QuietScore rates it. */
    method ScoreQuiets()
      requires ContextOk() && quietStart <= |legalMoves|
      modifies this`scores
      ensures scores == old(scores) + QuietScores(ScoreCtx(), legalMoves[quietStart..])
    {
      ghost var ctx := ScoreCtx();
      ghost var start := scores;
      for i := quietStart to |legalMoves|
        invariant scores == start + QuietScores(ctx, legalMoves[quietStart..i])
      {
        var m := legalMoves[i];
        var score := QuietMoveScore(m);
        scores := scores + [score];
        QuietScoresStep(ctx, legalMoves, quietStart, i);
      }
      assert legalMoves[quietStart..|legalMoves|] == legalMoves[quietStart..];
    }

    /**
     * The body of the quiet-scoring loop for one move: the killer just below
     * the even-capture band, a queen promotion in its own band, and any other
     * move the base quiet score plus its entries in the side's history table
     * and in each per-node table that is present.
     */
    method QuietMoveScore(m: Move) returns (score: int)
      requires ContextOk()
      ensures score == QuietScore(ScoreCtx(), m)
    {
      if m == searchParams.killers[ssi.ply][0] {
        score := SCORE_EVEN_CAPTURE - 1;
      } else if m.promotion == PromoteQueen {
        score := SCORE_QUEEN_PROMO;
      } else {
        var startSq := m.startSq;
        var endSq := m.endSq;
        var pieceID := board.pieceOnSquare(color, startSq);
        score := SCORE_QUIET_MOVE
          + searchParams.historyTable[color][pieceID][endSq]
          + (if ssi.counterMoveHistory != null then ssi.counterMoveHistory.entries[pieceID][endSq] else 0)
          + (if ssi.followupMoveHistory != null then ssi.followupMoveHistory.entries[pieceID][endSq] else 0);
      }
    }

    /**
     * Sets quietStart to the position of the first non-capture, or to the
     * length when every move is a capture.
     */
    method FindQuietStart()
      modifies this`quietStart
      ensures quietStart <= |legalMoves|
      ensures forall j :: 0 <= j < quietStart ==> legalMoves[j].isCapture
      ensures quietStart < |legalMoves| ==> !legalMoves[quietStart].isCapture
      ensures quietStart == FirstQuiet(legalMoves)
    {
      for i := 0 to |legalMoves|
        invariant forall j :: 0 <= j < i ==> legalMoves[j].isCapture
      {
        if !legalMoves[i].isCapture {
          quietStart := i;
          return;
        }
      }
      quietStart := |legalMoves|;
    }

    /**
     * Hands out the next move, or the sentinel when none is left: the move
     * returned and the new fields are exactly those of Next.
     */
    method NextMove() returns (m: Move)
      requires Valid() && ContextOk()
      modifies this
      ensures (m, Snapshot()) == Next(old(Snapshot()), hashed, ScoreCtx())
      ensures Valid()
    {
      if mgStage == StageHashMove {
        return hashed;
      }
      ghost var ctx := ScoreCtx();
      ghost var st0 := Snapshot();
      var exhausted := FetchScored();
      assert ScoreCtx() == ctx;
      if exhausted {
        NextIs(st0, hashed, ctx);
        return NULL_MOVE;
      }
      m := ServeBest();
      assert ScoreCtx() == ctx;
      NextIs(st0, hashed, ctx);
    }

    /**
     * The fetch loop of nextMove: generate until a scored move waits at index
     * or the quiets are generated; reports whether nothing is left to serve.
     */
    method FetchScored() returns (exhausted: bool)
      requires Valid() && ContextOk()
      modifies this
      ensures Snapshot() == Fetch(old(Snapshot()), hashed, ScoreCtx())
      ensures Valid()
      ensures exhausted <==> index >= |scores|
    {
      ghost var f := Fetch(Snapshot(), hashed, ScoreCtx());
      while index >= |scores|
        invariant Valid()
        invariant Fetch(Snapshot(), hashed, ScoreCtx()) == f
        decreases 3 - mgStage.Rank()
      {
        if mgStage == StageQuiets {
          return true;
        }
        GenerateMoves();
      }
      return false;
    }

    /**
     * The selection part of nextMove: swap the best remaining move and its
     * score into position index, generate the quiets early when the best
     * capture is not winning, and hand out the move at index.
     */
    method ServeBest() returns (m: Move)
      requires Valid() && ContextOk() && index < |scores|
      modifies this
      ensures (m, Snapshot()) == Serve(old(Snapshot()), hashed, ScoreCtx())
      ensures Valid()
    {
      ghost var ctx := ScoreCtx();
      ghost var f := Snapshot();
      var bestIndex, bestScore := FindBest(scores, index);
      SwapIntoPlace(bestIndex);
      GenerateQuietsEarly(bestScore);
      assert ScoreCtx() == ctx;
      ghost var g := Snapshot();
      m := legalMoves[index];
      index := index + 1;
      ServeIs(f, hashed, ctx, bestIndex, g);
      assert Snapshot() == g.(index := f.index + 1);
    }

    /**
     * Once captures are being served and the best remaining one is no longer
     * winning, the quiets are generated so that killers and promotions can
     * compete with the remaining captures.
     */
    method GenerateQuietsEarly(bestScore: int)
      requires Valid() && ContextOk()
      modifies this
      ensures Snapshot() == if old(mgStage) == StageCaptures && bestScore < SCORE_WINNING_CAPTURE
                            then Advance(old(Snapshot()), hashed, ScoreCtx()) else old(Snapshot())
      ensures Valid()
    {
      if mgStage == StageCaptures && bestScore < SCORE_WINNING_CAPTURE {
        GenerateMoves();
      }
    }

    /** Exchanges position index with position b, in the moves and the scores alike. */
    method SwapIntoPlace(b: nat)
      requires Valid() && index <= b < |scores|
      modifies this`legalMoves, this`scores
      ensures Snapshot() == old(Snapshot()).(moves := Swap(old(legalMoves), index, b), scores := Swap(old(scores), index, b))
      ensures Valid()
    {
      SwapKeepsInv(Snapshot(), hashed, b);
      legalMoves := legalMoves[index := legalMoves[b]][b := legalMoves[index]];
      scores := scores[index := scores[b]][b := scores[index]];
    }

    /**
     * The penalty of one tried quiet move, applied where the node's update
     * applies it: the side's history table and each present per-node table.
     * Tables that already hold the penalties for keys then hold those for
     * keys followed by k.
     */
    method PenalizeKey(counter: PieceSquareHistory?, followup: PieceSquareHistory?, k: Key, histDepth: int,
                       ghost keys: seq<Key>, ghost others: seq<Table>,
                       ghost rewarded: Table, ghost rewardedCounter: Table, ghost rewardedFollowup: Table)
      requires |others| == 2 && Shaped(rewarded)
      requires counter != null ==> Shaped(rewardedCounter)
      requires followup != null ==> Shaped(rewardedFollowup)
      requires counter != null && followup != null ==> counter != followup
      requires searchParams.historyTable == others[color := PenaltyAll(rewarded, keys, histDepth)]
      requires counter != null ==> counter.entries == PenaltyAll(rewardedCounter, keys, histDepth)
      requires followup != null ==> followup.entries == PenaltyAll(rewardedFollowup, keys, histDepth)
      modifies searchParams`historyTable, counter, followup
      ensures searchParams.historyTable == others[color := PenaltyAll(rewarded, keys + [k], histDepth)]
      ensures counter != null ==> counter.entries == PenaltyAll(rewardedCounter, keys + [k], histDepth)
      ensures followup != null ==> followup.entries == PenaltyAll(rewardedFollowup, keys + [k], histDepth)
    {
      PenaltyAllSnoc(rewarded, keys, k, histDepth);
      searchParams.Weaken(color, k, histDepth);
      if counter != null {
        PenaltyAllSnoc(rewardedCounter, keys, k, histDepth);
        counter.Weaken(k, histDepth);
      }
      if followup != null {
        PenaltyAllSnoc(rewardedFollowup, keys, k, histDepth);
        followup.Weaken(k, histDepth);
      }
    }

    /**
     * After a node finishes with bestMove: in the side's history table and in
     * each present per-node table, the best move's entry is reinforced and
     * then every quiet move served before it is weakened, as Update says.
     */
    method UpdateHistories(bestMove: Move)
      requires Valid() && ContextOk()
      requires ssi.counterMoveHistory != null && ssi.followupMoveHistory != null ==>
                 ssi.counterMoveHistory != ssi.followupMoveHistory
      modifies searchParams`historyTable, ssi.counterMoveHistory, ssi.followupMoveHistory
      ensures ContextOk()
      ensures var best, tried, hd := KeyOf(board, color, bestMove),
                                     TriedKeys(board, color, legalMoves, index, bestMove),
                                     HistDepth(depth);
        && searchParams.historyTable
             == old(searchParams.historyTable)[color := Update(old(searchParams.historyTable[color]), best, tried, hd)]
        && (ssi.counterMoveHistory != null ==>
              ssi.counterMoveHistory.entries == Update(old(ssi.counterMoveHistory.entries), best, tried, hd))
        && (ssi.followupMoveHistory != null ==>
              ssi.followupMoveHistory.entries == Update(old(ssi.followupMoveHistory.entries), best, tried, hd))
    {
      var histDepth := if depth < MAX_HIST_DEPTH then depth else MAX_HIST_DEPTH;
      var counter, followup := ssi.counterMoveHistory, ssi.followupMoveHistory;

      var startSq := bestMove.startSq;
      var endSq := bestMove.endSq;
      var pieceID := board.pieceOnSquare(color, startSq);
      var best := Key(pieceID, endSq);
      searchParams.Reinforce(color, best, histDepth);
      if counter != null {
        counter.Reinforce(best, histDepth);
      }
      if followup != null {
        followup.Reinforce(best, histDepth);
      }

      ghost var others := searchParams.historyTable;
      ghost var rewarded := others[color];
      ghost var rewardedCounter := if counter != null then counter.entries else [];
      ghost var rewardedFollowup := if followup != null then followup.entries else [];
      assert others[color := rewarded] == others;
      PenalizeTried(bestMove, histDepth, others, rewarded, rewardedCounter, rewardedFollowup);
    }

    /**
     * The penalty loop of the update: every quiet move among the first
     * index - 1 served moves, up to the first occurrence of the best move,
     * has its entry weakened, in the order served.
     */
    method PenalizeTried(bestMove: Move, histDepth: int, ghost others: seq<Table>,
                         ghost rewarded: Table, ghost rewardedCounter: Table, ghost rewardedFollowup: Table)
      requires index <= |legalMoves|
      requires |others| == 2 && Shaped(rewarded)
      requires ssi.counterMoveHistory != null ==> Shaped(rewardedCounter)
      requires ssi.followupMoveHistory != null ==> Shaped(rewardedFollowup)
      requires ssi.counterMoveHistory != null && ssi.followupMoveHistory != null ==>
                 ssi.counterMoveHistory != ssi.followupMoveHistory
      requires searchParams.historyTable == others[color := rewarded]
      requires ssi.counterMoveHistory != null ==> ssi.counterMoveHistory.entries == rewardedCounter
      requires ssi.followupMoveHistory != null ==> ssi.followupMoveHistory.entries == rewardedFollowup
      modifies searchParams`historyTable, ssi.counterMoveHistory, ssi.followupMoveHistory
      ensures var tried := TriedKeys(board, color, legalMoves, index, bestMove);
        && searchParams.historyTable == others[color := PenaltyAll(rewarded, tried, histDepth)]
        && (ssi.counterMoveHistory != null ==>
              ssi.counterMoveHistory.entries == PenaltyAll(rewardedCounter, tried, histDepth))
        && (ssi.followupMoveHistory != null ==>
              ssi.followupMoveHistory.entries == PenaltyAll(rewardedFollowup, tried, histDepth))
    {
      if index <= 0 {
        return;
      }
      var counter, followup := ssi.counterMoveHistory, ssi.followupMoveHistory;
      ghost var keys: seq<Key> := [];
      for i := 0 to index - 1
        invariant forall j :: 0 <= j < i ==> legalMoves[j] != bestMove
        invariant keys == QuietKeysUpTo(board, color, legalMoves, i)
        invariant searchParams.historyTable == others[color := PenaltyAll(rewarded, keys, histDepth)]
        invariant counter != null ==> counter.entries == PenaltyAll(rewardedCounter, keys, histDepth)
        invariant followup != null ==> followup.entries == PenaltyAll(rewardedFollowup, keys, histDepth)
      {
        var m := legalMoves[i];
        if m == bestMove {
          TriedKeysIs(board, color, legalMoves, index, bestMove, i);
          return;
        }
        if m.isCapture {
          continue;
        }
        var startSq := m.startSq;
        var endSq := m.endSq;
        var pieceID := board.pieceOnSquare(color, startSq);
        var k := Key(pieceID, endSq);
        PenalizeKey(counter, followup, k, histDepth, keys, others, rewarded, rewardedCounter, rewardedFollowup);
        keys := keys + [k];
      }
      TriedKeysIs(board, color, legalMoves, index, bestMove, index - 1);
    }
  }
}
