# MoveOrder of the Laser chess engine, in Dafny

This project models the move orderer of the Laser UCI chess engine. At each
node of the alpha-beta search, the orderer hands out the node's legal moves one
at a time, best first:

1. the hash move, if the transposition table supplied one;
2. the captures, scored by static exchange evaluation (SEE) or the cheap
   exchange score, plus the attacker/victim (MVV/LVA) value;
3. the quiet moves, scored as a killer, a queen promotion, or by the
   history tables.

Generation is staged (NONE, HASH_MOVE, CAPTURES, QUIETS), so the quiet moves
are only scored once the captures no longer win material. Each call picks the
best remaining move with one pass of a partial selection sort. When a node
finishes, `updateHistories` rewards the best move's history entry. It then
penalizes the entries of the quiet moves that were tried before it.

The modules:

- `Chess` holds the collaborators the orderer reads: moves (start square, end
  square, promotion, capture flag), the `NULL_MOVE` sentinel, and the board's
  SEE, exchange, MVV/LVA and piece-on-square queries, as total functions.
- `History` holds the history tables as values. It defines C++ truncating
  division, the decay-and-reinforce and decay-and-penalize rules, the update
  of a whole table, and which moves a finished node penalizes.
- `Scoring` holds the band constants, the capture and quiet score formulas,
  and the band lemmas: a move in a better band always sorts ahead of a move in
  a worse band.
- `Staging` is the value model of the orderer's fields (`OrderState`), with
  one function per step:
  - `Advance` is `generateMoves`;
  - `Fetch` is the generation loop of `nextMove`;
  - `Serve` is the selection, the swap and the early quiet generation;
  - `Next` is a whole `nextMove` call.
- `StagingLemmas` holds what one `nextMove` call guarantees: which move it
  selects, which positions it leaves untouched, and how the multiset of moves
  changes. Between calls that generate nothing, scores are served in
  non-increasing order (`ConsecutiveScoresNonIncreasing`). It also holds
  what a whole run of calls guarantees (`Run`, one scoring context per call):
  - the moves served are consecutive positions of the final list;
  - positions already served stay put;
  - once the sentinel is returned it is returned for good;
  - a run that ends at the sentinel has served every move of the list except
    the removed copy of the hash move.
- `Orderer` holds the imperative code:
  - the classes `SearchParameters`, `PieceSquareHistory`, `SearchStackInfo`
    and `MoveOrder`;
  - methods with loops and in-place updates, each proved to change the fields
    exactly as the `Staging` or `History` function says.

Three expectations one might hold of the orderer do not match the code; the
model follows the code in all three:

- **The capture/quiet partition.** One might expect every move before
  `quietStart` to be a capture for the orderer's whole lifetime. The code keeps
  that only while captures are being served: once the quiet moves are scored,
  the selection sort swaps moves across `quietStart`. `Staging.Inv` therefore
  states the partition only for the CAPTURES stage.
- **Where the quiets start.** `quietStart` is the position of the first
  non-capture, not the number of captures. For the list `[capture, quiet,
  killer, capture]` it is 1, not 2 (`Staging.QuietStartExample`), and the
  capture after the quiet moves is then scored as a quiet move.
- **Scores in non-increasing order.** One might expect the moves to come out
  in non-increasing score order. Serving a capture scored below the winning
  band generates the quiets at once (`StagingLemmas.NextGeneratesQuietsEarly`).
  The next call can then serve a higher score: a queen promotion, or a killer
  after a losing capture. Non-increasing order holds only between calls that
  generate nothing (`StagingLemmas.ConsecutiveScoresNonIncreasing`).

## Model

| member | source | states |
|---|---|---|
| History.TruncDiv | moveorder.cpp:208-209 | the quotient of `histDepth * entry / 64` truncates toward zero (C++ semantics): its magnitude is the floor of the magnitudes' quotient and it has the dividend's sign |
| History.HistDepth | moveorder.cpp:202 | the update depth is the search depth capped at 12 |
| History.Decayed | moveorder.cpp:208-209 | the decay step `e -= histDepth * e / 64`, with the product divided by truncation toward zero; DecayTowardZero states where it lands |
| History.Reinforced | moveorder.cpp:208-210 | the best move's entry update: the decayed entry plus histDepth squared |
| History.Weakened | moveorder.cpp:235-237 | a tried quiet move's entry update: the decayed entry minus histDepth squared |
| History.DecayTowardZero | moveorder.cpp:208-209 | for depths 0..64, the decay step pulls an entry toward zero without crossing it, for either sign |
| History.ReinforceExample | moveorder.cpp:208-210 | entry 100 at depth 6 becomes 127 (100 - 9 + 36) |
| History.StepKeepsBound | moveorder.cpp:202-210 | with histDepth in 0..12, reinforcing or penalizing an entry within ±1024 (16 times the decay divisor) leaves it within ±1024 |
| History.RewardKeepsBounded | moveorder.cpp:208-210 | rewarding the best move's entry keeps every entry of a bounded table within ±1024 |
| History.PenaltyKeepsBounded | moveorder.cpp:235-237 | penalizing one tried move's entry keeps every entry of a bounded table within ±1024 |
| History.PenaltyAllKeepsBounded | moveorder.cpp:225-248 | the whole penalty loop, over any number of tried moves, keeps a bounded table bounded |
| History.UpdateKeepsBounded | moveorder.cpp:201-248 | a node's whole update keeps a table whose entries are within ±1024 within ±1024, so the bound is an invariant of the history tables |
| History.NegativeEntryTruncates | moveorder.cpp:235-236 | for a negative entry, the truncating quotient (-9) differs from the Euclidean one (-10), and -100 decays to -91 at depth 6 |
| History.PenaltyAllAt | moveorder.cpp:225-248 | after the penalty loop, each entry has been weakened once per occurrence of its key among the tried moves, and no other entry has changed |
| History.Update | moveorder.cpp:201-248 | one table's whole update: reward the best move's entry, then penalize the tried quiet moves' entries in the order served; UpdateAt gives its effect on every entry |
| History.UpdateAt | moveorder.cpp:201-249 | the exact new value of every table entry: the best move's entry is reinforced once, then each entry is weakened once per tried quiet move that maps to it |
| History.UpdateLeavesOthers | moveorder.cpp:201-249 | an entry that belongs neither to the best move nor to a tried move keeps its value |
| History.Quiets | moveorder.cpp:228-229 | the non-captures of a list: every quiet move occurs in it exactly as often as in the list, and no capture occurs |
| History.QuietKeysUpToAre | moveorder.cpp:225-233 | the keys penalized by the first n loop iterations are the keys of the quiet moves among the first n moves |
| History.BeforeFirst | moveorder.cpp:225-227 | the prefix of the list strictly before the first occurrence of the best move, or the whole list when it does not occur |
| History.BeforeFirstIs | moveorder.cpp:225-227 | any prefix that avoids the best move and ends at it (or at the end of the list) is that prefix |
| History.ScanEnd | moveorder.cpp:225-227 | the loop over the first n moves stops at the first occurrence of the best move, or after n moves |
| History.TriedQuiets | moveorder.cpp:222-229 | the moves the loop penalizes: the quiet moves among the first index - 1 served moves that come before the first occurrence of the best move; none when index is 0 |
| History.TriedKeysAre | moveorder.cpp:222-233 | the keys the loop penalizes are exactly the keys of the quiet moves among the first index - 1 served moves before the best move; none when index is 0 |
| History.TriedKeysIs | moveorder.cpp:222-227 | a scan that avoids the best move up to n and stops there penalizes exactly the quiet moves before n |
| History.TriedQuietsServedBefore | moveorder.cpp:199-229 | every penalized move is a quiet move, is not the best move, and was served before the last served position |
| Scoring.CaptureScore | moveorder.cpp:92-128 | the score of one capture: at a PV node the SEE sign picks the band and SEE is added; elsewhere the exchange score's sign picks it, with SEE consulted only when the exchange score is negative and never added; MVV/LVA is always added. CaptureScoreInBand states its band |
| Scoring.QuietScore | moveorder.cpp:137-155 | the score of one quiet move: killer (slot 0 of the ply) first, then queen promotion, then the quiet constant plus the side's history entry and each present per-node table's entry. QuietScoreInBand and KillerFirst state its bands |
| Scoring.CaptureScores | moveorder.cpp:88-130 | one score per capture, position by position, with each capture scored by the PV/non-PV branch rules |
| Scoring.QuietScores | moveorder.cpp:134-156 | one score per quiet move, position by position, with the killer, promotion and history rules |
| Scoring.CaptureScoresStep | moveorder.cpp:88-89 | scoring one more capture of the prefix appends exactly that capture's score |
| Scoring.QuietScoresStep | moveorder.cpp:134-135 | scoring one more quiet move appends exactly that move's score |
| Scoring.BandConstantsOrdered | moveorder.cpp:22-27 | IID > winning capture > queen promotion > even capture > 0 > quiet > losing capture |
| Scoring.BandsDisjoint | moveorder.cpp:22-27 | with bounded terms, the lowest score of a better band is above the highest score of a worse band |
| Scoring.CaptureScoreInBand | moveorder.cpp:92-128 | a capture's score lies in the band that its exchange classification names (PV: SEE sign; otherwise exchange sign, with SEE as fallback) |
| Scoring.QuietScoreInBand | moveorder.cpp:137-154 | a quiet move's score lies in its killer, promotion or history band |
| Scoring.BoundedTablesBoundQuietTerms | moveorder.cpp:146-153 | history, counter-move and follow-up tables within ±1024 give every quiet move history terms within the band bounds, so the quiet band lemmas apply to tables the update has maintained |
| Scoring.BetterBandScoresHigher | moveorder.cpp:86-157 | between any two scored moves, captures or quiets, a better band means a strictly higher score |
| Scoring.WinningBeatsLosing | moveorder.cpp:91-101 | at a PV node, a capture that wins by SEE scores above one that loses, for MVV/LVA and SEE terms within the band bounds |
| Scoring.NonPVSkipsSEE | moveorder.cpp:104-115 | off the PV, a non-negative exchange score fixes the score without SEE: boards that agree on the exchange and MVV/LVA values give the same score |
| Scoring.NonPVAddsNoSEE | moveorder.cpp:105-128 | off the PV, a capture's score is its band constant plus its MVV/LVA value, with no exchange term added |
| Scoring.KillerFirst | moveorder.cpp:137-143 | a killer scores just below an even capture, even when it also promotes to a queen |
| Staging.Stage.Rank | moveorder.h:27-29 | the stages in declaration order, NONE through QUIETS |
| Staging.Inv | moveorder.h:38-43 | what holds between calls: index <= number of scores <= number of moves, quietStart within the list, the sentinel not in the list, nothing scored or served before CAPTURES, exactly the captures scored (all below quietStart) in CAPTURES, every move scored in QUIETS |
| Staging.FirstQuiet | moveorder.cpp:251-261 | the first non-capture's position, or the list length when every move is a capture; every move before it is a capture |
| Staging.QuietStartExample | moveorder.cpp:251-261 | for [capture, quiet, killer, capture], quietStart is 1: the scan stops at the first non-capture |
| Staging.FirstIndex | moveorder.cpp:55-56 | the first position that holds the move, or the length when it is absent |
| Staging.RemoveFirst | moveorder.cpp:54-60 | removing the hash move takes exactly one copy of it out of the multiset when present; otherwise the list is unchanged |
| Staging.RemoveFirstAt | moveorder.cpp:55-58 | deleting at the first matching position is that removal |
| Staging.Swap | moveorder.cpp:187-189 | the two positions are exchanged, every other position is kept, and the multiset is unchanged |
| Staging.BestIndex | moveorder.cpp:177-185 | the first position, from index on, of a maximum remaining score: no later score is larger and no earlier candidate is equal |
| Staging.BestIndexUnique | moveorder.cpp:177-185 | any position with those two properties is that best index |
| Staging.Advance | moveorder.cpp:47-84 | one generation step: NONE with a hash move goes to HASH_MOVE and removes the hash move; NONE without one, or HASH_MOVE, sets quietStart and scores the captures; CAPTURES scores the quiets; QUIETS changes nothing. The stage moves forward, scores are only appended, and the invariant holds |
| Staging.Fetch | moveorder.cpp:169-175 | the fetch loop ends with a scored move waiting at index, or with the quiets generated; index is unchanged and scores are only appended |
| Staging.FetchRounds | moveorder.cpp:169-175 | the number of generation rounds the fetch loop takes, at most one per remaining stage (FetchIsRounds ties it to the loop) |
| Staging.AdvanceN | moveorder.cpp:169-175 | n generateMoves calls in a row keep the invariant |
| Staging.FetchIsRounds | moveorder.cpp:169-175 | the fetch loop is exactly FetchRounds generateMoves calls, and that number is at most three |
| Staging.Serve | moveorder.cpp:177-196 | serving a waiting move keeps the orderer's invariant |
| Staging.SwapKeepsInv | moveorder.cpp:187-189 | swapping two unserved scored positions keeps the invariant, including the capture partition |
| Staging.Next | moveorder.cpp:162-197 | a nextMove call keeps the invariant |
| StagingLemmas.FetchMoves | moveorder.cpp:169-175 | the fetch loop removes at most the one copy of the hash move and otherwise leaves the move list unchanged |
| StagingLemmas.ServeSwaps | moveorder.cpp:177-196 | serving exchanges exactly positions index and best index in the moves and scores, moves index on by one, and returns the move now at the old index |
| StagingLemmas.NextServesOrEnds | moveorder.cpp:162-197 | the hash stage returns the hash move and changes nothing; otherwise a call serves the move at index and increments index, or returns the sentinel exactly when the quiets are generated and every move has been served |
| StagingLemmas.NextMovesMultiset | moveorder.cpp:47-63 | across a call, the multiset of moves only loses the hash move's one copy, and only on the first generation |
| StagingLemmas.ServeKeepsPosition | moveorder.cpp:187-189 | serving leaves every position before index unchanged |
| StagingLemmas.NextProgress | moveorder.cpp:162-197 | a call never moves index, the number of scores or the stage backwards |
| StagingLemmas.NextKeepsServed | moveorder.cpp:177-196 | every move and score already served stays in its position |
| StagingLemmas.NextSelectsBest | moveorder.cpp:177-189 | the served move is the first maximum of the remaining scores, and it carries its own score to position index |
| StagingLemmas.NextKeepsPairs | moveorder.cpp:187-189 | the (move, score) pairs are permuted, never re-matched |
| StagingLemmas.SwapPairs | moveorder.cpp:187-189 | swapping the moves and the scores at the same positions swaps their pairing |
| StagingLemmas.NextGeneratesQuietsEarly | moveorder.cpp:191-194 | while captures are served, the quiets are generated after a selection exactly when the selected score is below the winning-capture band; otherwise nothing is appended |
| StagingLemmas.ConsecutiveScoresNonIncreasing | moveorder.cpp:159-196 | two calls in a row with no generation between them serve non-increasing scores, even if the history tables change between the calls |
| StagingLemmas.NextServesBestWaiting | moveorder.cpp:169-189 | when a scored move is waiting, a call generates nothing and serves the best waiting score |
| StagingLemmas.NextLeavesSmaller | moveorder.cpp:177-189 | after a call that generates nothing, no score behind index beats the one served |
| StagingLemmas.ServeRestBelow | moveorder.cpp:177-189 | after serving, every remaining score is at most the one just served |
| StagingLemmas.NextFromStartSkipsHashMove | moveorder.cpp:50-72 | a first call with a hash move (held at most once) generates past the hash stage, removes that move from the list and does not return it |
| StagingLemmas.SentinelPersists | moveorder.cpp:168-171 | with the quiets generated and every scored move served, a call returns the sentinel and leaves the state exactly as it was |
| StagingLemmas.SentinelThenSentinel | moveorder.cpp:162-175 | after a call returns the sentinel, the next call returns it again and changes nothing, whatever the tables hold then |
| StagingLemmas.Run | moveorder.cpp:162-197 | a run of calls, one scoring context each, stopping at the first sentinel; every state it reaches keeps the invariant |
| StagingLemmas.RunServesInOrder | moveorder.cpp:162-197 | from any state past the hash stage, the moves a run serves are exactly the final list's positions from the old index to the new one, earlier positions keep their moves, and a run that stops at the sentinel has generated the quiets and served every position |
| StagingLemmas.RunBounds | moveorder.cpp:168-197 | a run only moves index forward, within the list, and stops at the sentinel only with the quiets generated and every position served |
| StagingLemmas.RunKeepsServed | moveorder.cpp:177-196 | every position served before a run keeps its move through the whole run |
| StagingLemmas.RunServedSlice | moveorder.cpp:177-196 | the sequence of moves a run returns equals the final list sliced from the old index to the new one |
| StagingLemmas.RunServedAt | moveorder.cpp:196 | the k-th move a run returns is the one at position index + k of the final list |
| StagingLemmas.RunServedCount | moveorder.cpp:196 | a run returns one move per position that index moves across |
| StagingLemmas.RunServesAll | moveorder.cpp:162-197 | no move is lost or duplicated: when a run stops at the sentinel, the moves served before it plus the moves it served are, as a multiset, the list it started from less the removed copy of the hash move |
| Orderer.SearchParameters.Reinforce | moveorder.cpp:208-210 | the side's history entry for the key is reinforced and nothing else changes |
| Orderer.SearchParameters.Weaken | moveorder.cpp:235-237 | the side's history entry for the key is penalized and nothing else changes |
| Orderer.PieceSquareHistory.Reinforce | moveorder.cpp:211-219 | the per-node table's entry for the key is reinforced |
| Orderer.PieceSquareHistory.Weaken | moveorder.cpp:238-247 | the per-node table's entry for the key is penalized |
| Orderer.FindBest | moveorder.cpp:177-185 | the scan returns a maximum of the remaining scores at its first position, and that position is BestIndex |
| Orderer.MoveOrder.constructor | moveorder.cpp:30-43 | the orderer starts in NONE, with nothing scored, quietStart and index 0, and its own copy of the moves |
| Orderer.MoveOrder.GenerateMoves | moveorder.cpp:47-84 | the new fields are exactly Advance of the old ones, and the invariant is kept |
| Orderer.MoveOrder.RemoveHashMove | moveorder.cpp:54-60 | the list loses the first occurrence of the hash move, as RemoveFirst says |
| Orderer.MoveOrder.ScoreCaptures | moveorder.cpp:87-131 | appends the capture scores of the moves before quietStart, in order |
| Orderer.MoveOrder.CaptureMoveScore | moveorder.cpp:89-128 | the score one loop iteration appends for a capture is CaptureScore |
| Orderer.MoveOrder.ScoreQuiets | moveorder.cpp:133-157 | appends the quiet scores of the moves from quietStart on, in order |
| Orderer.MoveOrder.QuietMoveScore | moveorder.cpp:135-155 | the score one loop iteration appends for a quiet move is QuietScore |
| Orderer.MoveOrder.FindQuietStart | moveorder.cpp:251-261 | quietStart is the first non-capture's position, or the length when there is none |
| Orderer.MoveOrder.NextMove | moveorder.cpp:162-197 | the returned move and the new fields are exactly Next of the old fields, and the invariant is kept |
| Orderer.MoveOrder.FetchScored | moveorder.cpp:167-175 | the fields become Fetch of the old ones; reports exhaustion exactly when no scored move waits at index |
| Orderer.MoveOrder.ServeBest | moveorder.cpp:177-196 | the returned move and the new fields are exactly Serve of the old fields |
| Orderer.MoveOrder.GenerateQuietsEarly | moveorder.cpp:191-194 | generates exactly when captures are served and the best score is below winning, and otherwise changes nothing |
| Orderer.MoveOrder.SwapIntoPlace | moveorder.cpp:187-189 | exchanges positions index and b in the moves and scores, in place, and changes nothing else |
| Orderer.MoveOrder.PenalizeKey | moveorder.cpp:231-247 | one penalty iteration extends the applied penalty sequence by one key, in the side's table and in each present per-node table |
| Orderer.MoveOrder.UpdateHistories | moveorder.cpp:201-249 | the side's history table, and each present counter-move and follow-up table, become Update(old, best move's key, keys of the tried quiet moves, min(depth, 12)) |
| Orderer.MoveOrder.PenalizeTried | moveorder.cpp:222-248 | from the rewarded tables, the loop applies the penalty to the tried quiet moves' keys, in order |

## Left out

- Board internals (SEE, the exchange score, MVV/LVA, piece lookup) are not part of this model. They appear as arbitrary total functions of the side and the move.
- The move encoding is not modelled. A move is its start square, end square, promotion piece and capture flag. `NULL_MOVE` is one fixed value that the constructor requires to be absent from the legal moves.
- `MoveList.remove` is modelled as an order-preserving deletion of the first match. Because the list class is not part of this model, the lemmas about it promise only multiset facts (`StagingLemmas.NextMovesMultiset`), not order.
- Staging.Inv: the capture/quiet partition is stated only for the CAPTURES stage, because selection swaps moves across `quietStart` once the quiet moves are scored.
- 32-bit `int` wrap-around of scores and history entries is not modelled; integers are unbounded.
- History.UpdateKeepsBounded: stated for histDepth in 0..12, that is, for a non-negative search depth. The search driver that passes the depth is not part of this model.
- Scoring.BandsDisjoint: this lemma and the band lemmas built on it assume bounded terms. For a capture, the MVV/LVA value must satisfy 0 <= MVV/LVA < 2^15, and SEE must be below 2^15 in magnitude. The exchange score is not bounded, because it only picks the band and is never added. For a quiet move, the history entry and each present per-node entry must be below 2^15 in magnitude. For the history terms this follows from the model: `History.UpdateKeepsBounded` shows the update keeps every entry within ±1024, and `Scoring.BoundedTablesBoundQuietTerms` turns that into the quiet bound. Tables must start within ±1024, for example cleared to zero; where the tables are created and cleared is not part of this model. Under these bounds no score overflows. The separation of even captures from killers depends on MVV/LVA being non-negative: with a negative MVV/LVA an even capture can score at or below a killer's `SCORE_EVEN_CAPTURE - 1`.
- `SCORE_IID_MOVE` is declared but never used to score a move. It appears only in `Scoring.BandConstantsOrdered`.
- Orderer.MoveOrder.UpdateHistories requires the counter-move and follow-up tables, when both are present, to be distinct objects. Aliasing between them is not modelled.
- `nextMove`, `scoreCaptures`, `scoreQuiets` and `updateHistories` are each split into helper methods. Examples are `FetchScored`, `ServeBest` and `PenalizeTried`. The order of field updates is unchanged.
- Concurrency and the search driver that calls the orderer are not part of this model.
- The killer table is read only at slot 0 of the node's ply, as the code does. The table's other slots are not modelled.
