/**
 * The per-move scores of the move orderer: captures by static exchange and
 * attacker/victim value, quiet moves by killer, promotion and history, all
 * placed in fixed integer bands so that every move of a better band sorts
 * ahead of every move of a worse one.
 */
module Scoring {
  import opened Chess
  import opened History

  const SCORE_IID_MOVE: int := 0x10_0000                      // 1 << 20
  const SCORE_WINNING_CAPTURE: int := 0x4_0000                // 1 << 18
  const SCORE_QUEEN_PROMO: int := 0x2_0000                    // 1 << 17
  const SCORE_EVEN_CAPTURE: int := 0x1_0000                   // 1 << 16
  const SCORE_QUIET_MOVE: int := -0x4000_0000                 // -(1 << 30)
  const SCORE_LOSING_CAPTURE: int := -0x4000_0000 - 0x1000_0000  // -(1 << 30) - (1 << 28)

  /**
   * Everything a score depends on at one node: the board queries, the side to
   * move, whether the node is a principal-variation node, this ply's first
   * killer move, the side to move's history table, and the optional
   * counter-move and follow-up-move tables (absent when the pointer is null).
   */
  datatype ScoreContext = ScoreContext(
    board: Board,
    color: Color,
    isPVNode: bool,
    killer: Move,
    history: Table,
    counterMoveHistory: Option<Table>,
    followupMoveHistory: Option<Table>)
  {
    predicate WellFormed()
    {
      && Shaped(history)
      && (counterMoveHistory.Some? ==> Shaped(counterMoveHistory.value))
      && (followupMoveHistory.Some? ==> Shaped(followupMoveHistory.value))
    }
  }

  /**
   * The score of a move in the capture partition. At a PV node the static
   * exchange value decides the band and is added to the score; elsewhere the
   * cheap exchange score decides unless it is negative, and only then is the
   * static exchange value consulted, without being added.
   */
  function CaptureScore(ctx: ScoreContext, m: Move): int
  {
    var mvvLva := ctx.board.mvvLvaScore(ctx.color, m);
    if ctx.isPVNode then
      var see := ctx.board.seeForMove(ctx.color, m);
      if see > 0 then SCORE_WINNING_CAPTURE + see + mvvLva
      else if see == 0 then SCORE_EVEN_CAPTURE + mvvLva
      else SCORE_LOSING_CAPTURE + see + mvvLva
    else
      var exchange := ctx.board.exchangeScore(ctx.color, m);
      if exchange > 0 then SCORE_WINNING_CAPTURE + mvvLva
      else if exchange == 0 then SCORE_EVEN_CAPTURE + mvvLva
      else
        var see := ctx.board.seeForMove(ctx.color, m);
        if see > 0 then SCORE_WINNING_CAPTURE + mvvLva
        else if see == 0 then SCORE_EVEN_CAPTURE + mvvLva
        else SCORE_LOSING_CAPTURE + mvvLva
  }

  /** The value a table contributes to a quiet move's score: nothing when the table is absent. */
  function Contribution(t: Option<Table>, k: Key): int
    requires t.Some? ==> Shaped(t.value)
  {
    if t.Some? then t.value[k.piece][k.square] else 0
  }

  /**
   * The score of a move in the quiet partition: the killer test comes first,
   * then queen promotion, then the history sum.
   */
  function QuietScore(ctx: ScoreContext, m: Move): int
    requires ctx.WellFormed()
  {
    if m == ctx.killer then SCORE_EVEN_CAPTURE - 1
    else if m.promotion == PromoteQueen then SCORE_QUEEN_PROMO
    else
      var k := KeyOf(ctx.board, ctx.color, m);
      SCORE_QUIET_MOVE + ctx.history[k.piece][k.square]
        + Contribution(ctx.counterMoveHistory, k)
        + Contribution(ctx.followupMoveHistory, k)
  }

  /** One capture score per move, position by position. */
  function CaptureScores(ctx: ScoreContext, ms: seq<Move>): (r: seq<int>)
    ensures |r| == |ms|
    ensures forall i :: 0 <= i < |ms| ==> r[i] == CaptureScore(ctx, ms[i])
  {
    seq(|ms|, i requires 0 <= i < |ms| => CaptureScore(ctx, ms[i]))
  }

  /** One quiet score per move, position by position. */
  function QuietScores(ctx: ScoreContext, ms: seq<Move>): (r: seq<int>)
    requires ctx.WellFormed()
    ensures |r| == |ms|
    ensures forall i :: 0 <= i < |ms| ==> r[i] == QuietScore(ctx, ms[i])
  {
    seq(|ms|, i requires 0 <= i < |ms| => QuietScore(ctx, ms[i]))
  }

  /** Scoring one more capture of a prefix appends that capture's score. */
  lemma CaptureScoresStep(ctx: ScoreContext, ms: seq<Move>, i: nat)
    requires i < |ms|
    ensures CaptureScores(ctx, ms[..i + 1]) == CaptureScores(ctx, ms[..i]) + [CaptureScore(ctx, ms[i])]
  {
  }

  /** Scoring one more quiet move of a slice appends that move's score. */
  lemma QuietScoresStep(ctx: ScoreContext, ms: seq<Move>, lo: nat, i: nat)
    requires ctx.WellFormed() && lo <= i < |ms|
    ensures QuietScores(ctx, ms[lo..i + 1]) == QuietScores(ctx, ms[lo..i]) + [QuietScore(ctx, ms[i])]
  {
  }

  /** The band constants are strictly ordered, highest first. */
  lemma BandConstantsOrdered()
    ensures SCORE_IID_MOVE > SCORE_WINNING_CAPTURE > SCORE_QUEEN_PROMO > SCORE_EVEN_CAPTURE > 0
    ensures 0 > SCORE_QUIET_MOVE > SCORE_LOSING_CAPTURE
  {
  }

  /** Magnitude bound on the static exchange, attacker/victim and history terms under which bands cannot overlap. */
  const TERM_BOUND: int := 0x8000   // 1 << 15

  /** The kinds of move the scores rank, worst first. */
  datatype Band = LosingCapture | QuietMove | Killer | EvenCapture | QueenPromotion | WinningCapture
  {
    function Level(): nat
    {
      match this
      case LosingCapture => 0
      case QuietMove => 1
      case Killer => 2
      case EvenCapture => 3
      case QueenPromotion => 4
      case WinningCapture => 5
    }

    /** The lowest score a move of this band can get with bounded terms. */
    function Low(): int
    {
      match this
      case LosingCapture => SCORE_LOSING_CAPTURE - TERM_BOUND
      case QuietMove => SCORE_QUIET_MOVE - 3 * TERM_BOUND
      case Killer => SCORE_EVEN_CAPTURE - 1
      case EvenCapture => SCORE_EVEN_CAPTURE
      case QueenPromotion => SCORE_QUEEN_PROMO
      case WinningCapture => SCORE_WINNING_CAPTURE
    }

    /** The highest score a move of this band can get with bounded terms. */
    function High(): int
    {
      match this
      case LosingCapture => SCORE_LOSING_CAPTURE + TERM_BOUND
      case QuietMove => SCORE_QUIET_MOVE + 3 * TERM_BOUND
      case Killer => SCORE_EVEN_CAPTURE - 1
      case EvenCapture => SCORE_EVEN_CAPTURE + TERM_BOUND
      case QueenPromotion => SCORE_QUEEN_PROMO
      case WinningCapture => SCORE_WINNING_CAPTURE + 2 * TERM_BOUND
    }
  }

  function SignBand(x: int): Band
  {
    if x > 0 then WinningCapture else if x == 0 then EvenCapture else LosingCapture
  }

  /**
   * How the exchange evaluation classifies a capture: by the static exchange
   * value at a PV node; elsewhere by the cheap exchange score, falling back to
   * the static exchange value when the cheap score is negative.
   */
  function CaptureBand(ctx: ScoreContext, m: Move): Band
  {
    var exchange := ctx.board.exchangeScore(ctx.color, m);
    if ctx.isPVNode || exchange < 0 then SignBand(ctx.board.seeForMove(ctx.color, m))
    else SignBand(exchange)
  }

  /** How a quiet move is classified: killer first, then queen promotion, else by history. */
  function QuietBand(ctx: ScoreContext, m: Move): Band
  {
    if m == ctx.killer then Killer
    else if m.promotion == PromoteQueen then QueenPromotion
    else QuietMove
  }

  predicate CaptureTermsBounded(ctx: ScoreContext, m: Move)
  {
    && 0 <= ctx.board.mvvLvaScore(ctx.color, m) < TERM_BOUND
    && -TERM_BOUND < ctx.board.seeForMove(ctx.color, m) < TERM_BOUND
  }

  predicate QuietTermsBounded(ctx: ScoreContext, m: Move)
    requires ctx.WellFormed()
  {
    var k := KeyOf(ctx.board, ctx.color, m);
    && Abs(ctx.history[k.piece][k.square]) < TERM_BOUND
    && Abs(Contribution(ctx.counterMoveHistory, k)) < TERM_BOUND
    && Abs(Contribution(ctx.followupMoveHistory, k)) < TERM_BOUND
  }

  /**
   * Tables whose entries are within History.ENTRY_BOUND, which every node's
   * update keeps so (UpdateKeepsBounded), give every quiet move history terms
   * inside the band bounds.
   */
  lemma BoundedTablesBoundQuietTerms(ctx: ScoreContext, m: Move)
    requires ctx.WellFormed() && Bounded(ctx.history)
    requires ctx.counterMoveHistory.Some? ==> Bounded(ctx.counterMoveHistory.value)
    requires ctx.followupMoveHistory.Some? ==> Bounded(ctx.followupMoveHistory.value)
    ensures QuietTermsBounded(ctx, m)
  {
    var k := KeyOf(ctx.board, ctx.color, m);
    assert Abs(ctx.history[k.piece][k.square]) <= ENTRY_BOUND;
  }

  /** A better band's lowest score is above a worse band's highest: the bands do not overlap. */
  lemma BandsDisjoint(better: Band, worse: Band)
    requires better.Level() > worse.Level()
    ensures better.Low() > worse.High()
  {
  }

  /** A capture's score lies in the band its exchange classification names. */
  lemma CaptureScoreInBand(ctx: ScoreContext, m: Move)
    requires CaptureTermsBounded(ctx, m)
    ensures CaptureBand(ctx, m).Low() <= CaptureScore(ctx, m) <= CaptureBand(ctx, m).High()
  {
  }

  /** A quiet move's score lies in the band of its classification. */
  lemma QuietScoreInBand(ctx: ScoreContext, m: Move)
    requires ctx.WellFormed() && QuietTermsBounded(ctx, m)
    ensures QuietBand(ctx, m).Low() <= QuietScore(ctx, m) <= QuietBand(ctx, m).High()
  {
  }

  /**
   * Band order decides score order between any two scored moves, captures
   * or quiets, whenever their terms are bounded.
   */
  lemma BetterBandScoresHigher(ctx: ScoreContext, x: Move, xIsCapture: bool, y: Move, yIsCapture: bool)
    requires ctx.WellFormed()
    requires if xIsCapture then CaptureTermsBounded(ctx, x) else QuietTermsBounded(ctx, x)
    requires if yIsCapture then CaptureTermsBounded(ctx, y) else QuietTermsBounded(ctx, y)
    requires (if xIsCapture then CaptureBand(ctx, x) else QuietBand(ctx, x)).Level()
           > (if yIsCapture then CaptureBand(ctx, y) else QuietBand(ctx, y)).Level()
    ensures (if xIsCapture then CaptureScore(ctx, x) else QuietScore(ctx, x))
          > (if yIsCapture then CaptureScore(ctx, y) else QuietScore(ctx, y))
  {
    if xIsCapture { CaptureScoreInBand(ctx, x); } else { QuietScoreInBand(ctx, x); }
    if yIsCapture { CaptureScoreInBand(ctx, y); } else { QuietScoreInBand(ctx, y); }
    BandsDisjoint(if xIsCapture then CaptureBand(ctx, x) else QuietBand(ctx, x),
                  if yIsCapture then CaptureBand(ctx, y) else QuietBand(ctx, y));
  }

  /**
   * At a PV node a capture that wins material by static exchange always
   * sorts ahead of one that loses material, for attacker/victim and static
   * exchange terms within the band bounds.
   */
  lemma WinningBeatsLosing(ctx: ScoreContext, win: Move, lose: Move)
    requires ctx.isPVNode
    requires CaptureTermsBounded(ctx, win) && CaptureTermsBounded(ctx, lose)
    requires ctx.board.seeForMove(ctx.color, win) > 0 && ctx.board.seeForMove(ctx.color, lose) < 0
    ensures CaptureScore(ctx, win) > CaptureScore(ctx, lose)
  {
    CaptureScoreInBand(ctx, win);
    CaptureScoreInBand(ctx, lose);
    BandsDisjoint(WinningCapture, LosingCapture);
  }

  /**
   * Off the principal variation a non-negative exchange score decides the
   * capture's score alone: the static exchange value is not consulted.
   */
  lemma NonPVSkipsSEE(ctx: ScoreContext, other: Board, m: Move)
    requires !ctx.isPVNode
    requires ctx.board.exchangeScore(ctx.color, m) >= 0
    requires other.exchangeScore(ctx.color, m) == ctx.board.exchangeScore(ctx.color, m)
    requires other.mvvLvaScore(ctx.color, m) == ctx.board.mvvLvaScore(ctx.color, m)
    ensures CaptureScore(ctx.(board := other), m) == CaptureScore(ctx, m)
  {
  }

  /** Off the principal variation no exchange term is added: a capture scores its band constant plus its attacker/victim value. */
  lemma NonPVAddsNoSEE(ctx: ScoreContext, m: Move)
    requires !ctx.isPVNode
    ensures CaptureScore(ctx, m) - ctx.board.mvvLvaScore(ctx.color, m)
            in {SCORE_WINNING_CAPTURE, SCORE_EVEN_CAPTURE, SCORE_LOSING_CAPTURE}
  {
  }

  /** A killer move is scored just below an even capture, even when it also promotes to a queen. */
  lemma KillerFirst(ctx: ScoreContext, m: Move)
    requires ctx.WellFormed() && m == ctx.killer
    ensures QuietScore(ctx, m) == SCORE_EVEN_CAPTURE - 1
  {
  }
}
