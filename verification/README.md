# Checkers rules engine, evaluators and move driver

A Dafny model of the core of a two-agent checkers program. It covers three parts.

- **The rules engine.** This is the piece and player constants, the diagonal move and jump
  tables, and `GameState`:
  - the opening layout;
  - single-move and first-jump enumeration;
  - the recursive multi-jump search `find_all_capture_sequence`;
  - the mandatory-capture rule of `get_possible_moves`;
  - `perform_move`: promotion, removal of the jumped pieces, the no-capture counter and the
    turn flip.
- **The evaluators.** These are the `utility` functions of the simple, better_h and
  improved_better_h players, their `evaluate_position` tables, and the selective-deepening
  tests.
- **The decision logic of `get_move`.** The clock is abstracted away. The searches to depth
  1, 2, 3, ... arrive as a sequence of outcomes, and the sequence ends where time ran out. The
  model covers:
  - the fallback move;
  - the stop on a won or lost value;
  - the three-unchanged-rounds rule of the improved players;
  - the turns-left-in-round counter.

The board is a map from the 64 grid cells to pieces. Scores are `NegInf | Fin(real) | PosInf`.
The move dicts of the program are functions of the square. Their keys are the playable squares,
visited in row-major order.

Each generator is stated twice: once as the program computes it, and once against a rules-level
predicate. Examples of the rules-level predicates are `MoveGen.IsSingleMove`,
`MoveGen.IsFirstJump` and `MoveGen.IsCaptureMove`. Lemmas prove the two agree in both
directions.

Modules, in dependency order:

| module | file | contents |
|---|---|---|
| `Consts` | consts.dfy | pieces, players, colour tables, square enumerations |
| `Moves` | moves.dfy | `GameMove` and the move tables |
| `MoveTables` | move_tables.dfy | the geometry of the move tables |
| `Board` | board.dfy | the game state and the generators |
| `CaptureChains` | capture_chains.dfy | the multi-jump search |
| `MoveGen` | move_gen.dfy | generators against the rules |
| `Play` | play.dfy | the opening position and playing a move |
| `Evaluation` | evaluation.dfy | what the utilities share |
| `SimplePlayer` | simple_player.dfy | simple player evaluator |
| `BetterH` | better_h.dfy | better_h evaluator |
| `ImprovedBetterH` | improved_better_h.dfy | improved_better_h evaluator |
| `ImprovedPlayer` | improved_player.dfy | improved player's deepening test |
| `Driver` | driver.dfy | the `get_move` decision logic |

## Model

| member | source | states |
|---|---|---|
| Consts.DarkSquaresPlayable | checkers/consts.py:23 | the enumeration of playable squares holds exactly the on-board squares whose row + column is even |
| Consts.DarkSquaresOrdered | checkers/moves.py:77-80 | the tables' key order visits the playable squares in strictly increasing row-major order, each once |
| Consts.ColorTables | checkers/consts.py:26-41 | a side's own colours are its pawn and king, which differ; they are what the opponent counts as opponent colours, they share nothing with the colours this side counts as the opponent's, and neither set holds the empty cell |
| Consts.BackRows | checkers/consts.py:44-47 | red is crowned on row 7 and black on row 0, and the two back rows differ |
| Consts.OpponentInvolution | checkers/consts.py:50-53 | the opponent map swaps the two players: it has no fixed point and is its own inverse |
| Consts.AllCellsExact | checkers/board.py:12-14 | the board's cells are exactly the 64 grid cells, each listed once |
| Moves.MakeMove | checkers/moves.py:19-31 | a move built without jumped locations is not a capture; given locations are kept as the jumped list |
| MoveTables.SingleMovesAt | checkers/moves.py:56-71 | a directional single-move table has an entry exactly at the playable squares whose neighbour in that direction is on the board, and the entry is that neighbour |
| MoveTables.StepGeometry | checkers/moves.py:56-71 | a diagonal step keeps a square playable, and the landing of a jump is two steps away in the same direction |
| MoveTables.CaptureMovesAt | checkers/moves.py:91-102 | a capture table has an entry exactly where two steps stay on the board, and the entry is the neighbour with the square beyond it |
| MoveTables.SingleListsAt | checkers/moves.py:77-88 | the up, down and king lists hold the on-board neighbours in the order up-right, up-left, down-right, down-left, the king list being the up list followed by the down list |
| MoveTables.CaptureListsAt | checkers/moves.py:108-119 | the same for the combined capture lists |
| MoveTables.TablesOffDark | checkers/moves.py:77-119 | a square that is not playable has no entry in any table |
| MoveTables.TablesAt | checkers/moves.py:122-137 | a red pawn uses the down tables, a black pawn the up tables, and both kings all four directions |
| MoveTables.PawnsMoveForward | checkers/moves.py:122-130 | a red pawn's steps and jumps increase the row, a black pawn's decrease it |
| MoveTables.StepsMembers | checkers/moves.py:77-88 | a step list holds exactly the on-board neighbours in the listed directions, at most one per direction |
| MoveTables.StepsNoRepeats | checkers/moves.py:77-88 | steps in distinct directions reach distinct squares |
| MoveTables.ListedMovesPlayable | checkers/moves.py:91-94 | from a playable square every listed step and jump lands on a playable square, with the jumped square between origin and landing |
| Board.PlaceRow | checkers/board.py:16-25 | placing a row fills exactly that row's playable squares and leaves every other cell unchanged |
| Board.Initial | checkers/board.py:9-28 | the initial state has red to move, a no-capture counter of 0 and an entry for every grid cell |
| Play.InitialLayout | checkers/board.py:9-28 | the initial state has red pawns exactly on the playable squares of rows 0-2, black pawns on rows 5-7, all else empty, red to move, counter 0 |
| Play.StartNoCaptures | checkers/board.py:46-62 | in the opening position no first jump exists by the rules, and the capture list is empty |
| Play.StartMovesExact | checkers/board.py:30-44 | the moves offered in the opening position are exactly the seven row-2 red pawn steps onto row 3 |
| Play.StartMoveCount | checkers/board.py:9-44 | the opening position offers exactly 7 moves, none listed twice |
| Play.InitialMoveCount | checkers/board.py:9-44 | the initial state offers exactly 7 moves |
| Board.CalcSingleMoves | checkers/board.py:30-44 | every listed single move starts on a playable square holding the mover's piece, is played by that piece, jumps nothing and ends on an empty on-board square |
| MoveGen.SingleMovesExact | checkers/board.py:30-44 | a move is listed iff it is an ordinary move by the rules: the mover's piece steps diagonally, in a direction its kind may move in, onto an empty square |
| MoveGen.SingleMovesNoRepeats | checkers/board.py:30-44 | the single-move list has no repeated move |
| Board.CalcCaptureMoves | checkers/board.py:46-62 | every first jump listed starts on the mover's piece, jumps an on-board opponent piece and lands on the empty square beyond |
| MoveGen.CaptureMovesExact | checkers/board.py:46-62 | a first jump is listed iff it is one by the rules |
| ImprovedPlayer.CapturesExist | checkers/board.py:46-62 | the capture list is non-empty iff some first jump exists by the rules |
| Board.FilterNext | checkers/board.py:78-82 | the next jumps kept are exactly the table entries over an opponent piece not yet jumped, landing on an empty square or the origin |
| Board.UnjumpedShrinks | checkers/board.py:86-89 | each recursive call jumps one more opponent piece, so the set of opponent pieces not yet jumped shrinks and the search terminates |
| Board.FindAllCaptureSequence | checkers/board.py:64-96 | the search never returns an empty list |
| CaptureChains.PrefixMember | checkers/board.py:90-91 | a prefixed sequence is one found further on with the jumped square put in front |
| CaptureChains.ExtendAllMember | checkers/board.py:84-91 | the extended sequences are exactly those that start with one of the next jumps and continue with a sequence found after it |
| CaptureChains.FindAllExact | checkers/board.py:78-96 | a sequence is found iff it is a chain of legal jumps along the table that ends where no legal jump is left |
| CaptureChains.EmptySequence | checkers/board.py:93-94 | the empty sequence is found iff it ends on the current square and no legal jump is left there |
| CaptureChains.FindAllFirstJump | checkers/board.py:78-91 | a non-empty sequence is found iff its first jump is a legal next jump and its rest is found from the landing square |
| CaptureChains.ChainProperties | checkers/board.py:78-82 | in a chain no square is jumped twice, every jumped square holds an opponent piece, and the final square is empty or the origin |
| CaptureChains.FindAllStops | checkers/board.py:93-96 | the search returns the bare current square iff no legal next jump exists; otherwise every sequence it returns jumps at least once |
| Board.CaptureOrigins | checkers/board.py:104 | every capture origin holds a pawn or king of the player to move |
| Board.CaptureSeqMoves | checkers/board.py:106-111 | every move collected from the capture origins starts on one of them and is played by the piece there; a non-empty origin list yields at least one move |
| Board.MandatoryCaptures | checkers/board.py:102-113 | when some piece can capture, at least one move is offered, each played by a piece of the player to move from a square with a first jump |
| Board.GetPossibleMoves | checkers/board.py:98-116 | every offered move is played by a piece of the player to move from its own square; when a first jump exists, moves are offered and each starts on a piece that has one; otherwise no offered move captures and each ends on an empty on-board square |
| MoveGen.OriginHasJump | checkers/board.py:102-109 | a piece of the player to move is a capture origin iff its own capture table offers a legal first jump |
| MoveGen.CaptureSeqMovesMember | checkers/board.py:106-111 | a capture move is listed iff it starts on a listed origin, is played by that piece, and its sequence is found from that origin |
| MoveGen.CaptureMovesByRules | checkers/board.py:102-113 | when some piece can capture, the moves offered are exactly the capture moves by the rules: maximal chains of at least one legal jump |
| MoveGen.CapturesOffered | checkers/board.py:102-113 | when some piece can capture, at least one move is offered |
| MoveGen.CaptureMovesOrderFree | checkers/board.py:104-113 | visiting the capture origins in any order without repeats offers the same multiset of moves |
| MoveGen.MandatoryCapture | checkers/board.py:98-116 | if a first jump exists, moves are offered and all are captures; otherwise the offered moves are exactly the ordinary moves by the rules |
| Evaluation.OfferedMoveOrigin | checkers/board.py:98-116 | every offered move starts on an on-board square holding a piece of the player to move, and is played by that piece |
| Play.OfferedMoveShape | checkers/board.py:98-116 | every offered move has distinct on-board jumped squares holding opponent pieces, an on-board target that is empty or the origin, and starts and ends on playable squares |
| Play.ChainEndsPlayable | checkers/board.py:78-96 | a chain of legal jumps along a piece's table that starts on a playable square ends on one |
| Play.CaptureOnPlayable | checkers/board.py:64-96 | a capture move by the rules starts and ends on playable squares |
| Play.InitialOnPlayable | checkers/board.py:16-25 | in the initial state every piece stands on a playable square |
| Play.OfferedMoveKeepsPlayable | checkers/board.py:118-129 | playing an offered move keeps every piece on a playable square |
| Board.ClearAll | checkers/board.py:128-129 | clearing empties exactly the listed squares and leaves every other square unchanged |
| Board.Placed | checkers/board.py:120-126 | any piece other than the mover's pawn lands unchanged; the mover's piece stays the mover's, and lands as a king iff it was one or reaches the mover's back row |
| Board.PerformMove | checkers/board.py:118-136 | the jumped squares are emptied, the target holds the possibly crowned piece, the origin is emptied, every other square is unchanged, and the turn passes; a capture resets the counter, any other move adds 0.5 |
| Play.PromotionExact | checkers/board.py:120-126 | the placed piece stays the mover's, and it is a king iff it was a king or it lands on the mover's back row |
| Play.CounterExact | checkers/board.py:130-136 | from a non-negative counter, the counter after a move is 0 iff the move captured, is never negative, and the player changes |
| Play.PerformKeepsCells | checkers/board.py:118-129 | playing a well-shaped move keeps the board's cells exactly the 64 grid cells |
| Play.OpponentSquaresAfter | checkers/board.py:128-129 | after a well-shaped move the opponent's pieces are those before, minus the jumped squares |
| Play.OwnSquaresAfter | checkers/board.py:119-126 | after a well-shaped move the mover's squares are those before with the origin replaced by the target |
| Play.PerformCountsPieces | checkers/board.py:118-129 | a well-shaped move removes one opponent piece per jumped square and keeps the mover's piece count |
| Play.OfferedMoveCounts | checkers/board.py:118-129 | every offered move keeps the board total, removes exactly its jumped opponent pieces, and never changes the mover's count |
| Play.StateEqCongruent | checkers/board.py:156-157 | state equality ignores the no-capture counter, and the same move played from equal states gives equal states |
| Play.StateEqEquivalence | checkers/board.py:156-157 | state equality is reflexive, symmetric and transitive |
| Evaluation.Negate | players/simple_player/__init__.py:93-94 | the opponent's view of a score swaps the two sentinels and negates a finite value |
| Evaluation.Terminal | players/simple_player/__init__.py:92-96 | with no moves the value is +inf when the opponent is to move and -inf when we are; otherwise, once the no-capture counter, growing by 0.5 per ply, reaches 50 (100 plies, 50 full moves, without a capture), it is the draw 0; otherwise play goes on |
| Evaluation.TerminalZeroSum | players/simple_player/__init__.py:92-96 | the two sides see the same terminal verdict with opposite signs |
| Evaluation.Count | players/simple_player/__init__.py:98-101 | the count over a cell list is at most its length, and zero iff no listed cell holds the piece |
| Evaluation.PieceCount | players/simple_player/__init__.py:98-101 | a piece count is at most 64, and zero iff no cell on the board holds the piece |
| Evaluation.NoPiecesNoMoves | players/simple_player/__init__.py:109-114 | a player to move with no piece left has no move |
| SimplePlayer.Material | players/simple_player/__init__.py:105-108 | a side's weighted material is non-negative and zero iff that side has no piece |
| SimplePlayer.Utility | players/simple_player/__init__.py:92-116 | the terminal verdict when there is one; otherwise -inf iff we have no piece, +inf iff we have pieces and the opponent none, and else our material minus the opponent's |
| SimplePlayer.UtilityZeroSum | players/simple_player/__init__.py:92-116 | the opponent's utility of every position is the negation of ours |
| SimplePlayer.SelectiveDeepening | players/simple_player/__init__.py:118-120 | the simple player never deepens beyond its limit |
| BetterH.EvaluatePosition | players/AI2_313298424_034477588/better_h_player/__init__.py:133-137 | a square scores 5 or 3 |
| BetterH.PositionSymmetric | players/AI2_313298424_034477588/better_h_player/__init__.py:133-137 | the table is invariant under transposing and mirroring the board; it scores 5 exactly on the border |
| BetterH.TallyAsWritten | players/AI2_313298424_034477588/better_h_player/__init__.py:45-71 | as written, every cell counts for exactly one side, so the two piece counts add up to the number of cells; counts and sums are never negative |
| BetterH.TallyAsWrittenCounts | players/AI2_313298424_034477588/better_h_player/__init__.py:45-71 | as written, our count is our pawns plus our kings, the opponent's is every other listed cell, and each side's king feature is half its number of kings |
| BetterH.TallyAsWrittenPositions | players/AI2_313298424_034477588/better_h_player/__init__.py:45-71 | as written, our position sum is the table total over our pieces' cells and the opponent's is the total over every other cell, empty ones included |
| BetterH.OpponentLossIgnoredAsWritten | players/AI2_313298424_034477588/better_h_player/__init__.py:45-85 | as written, the piece feature is the number of cells minus twice our count, and removing an opponent piece changes neither piece count nor either position sum |
| BetterH.OwnLossRewardedAsWritten | players/AI2_313298424_034477588/better_h_player/__init__.py:45-71 | as written, removing one of our pieces moves its cell from our count to the opponent's |
| BetterH.UtilityAsWritten | players/AI2_313298424_034477588/better_h_player/__init__.py:29-113 | the terminal verdict when there is one; otherwise 100 times (the 64 cells not ours minus our pieces) plus 10 times (half the opponent's kings minus half ours) plus the average position of those other cells minus ours |
| BetterH.ScoreAsWritten | players/AI2_313298424_034477588/better_h_player/__init__.py:85-113 | as written, the weighted features are the opponent's minus ours, so the score is the negation of the intended one |
| BetterH.AsWrittenScore | players/AI2_313298424_034477588/better_h_player/__init__.py:45-113 | as written, the one-pass score of a board equals the code's weighted formula over its piece counts and position totals |
| BetterH.OpponentPawnsIgnoredAsWritten | players/AI2_313298424_034477588/better_h_player/__init__.py:45-113 | as written, two boards with our pieces on the same squares and as many opponent kings score alike, whatever opponent pawns stand where |
| BetterH.OpponentPawnsIgnoredByUtilityAsWritten | players/AI2_313298424_034477588/better_h_player/__init__.py:29-113 | as written, the same holds for the utility of two positions where play goes on |
| BetterH.TallyOf | players/AI2_313298424_034477588/better_h_player/__init__.py:45-71 | as intended, each side's count is non-negative and together they count at most the cells |
| BetterH.TallyOfCounts | players/AI2_313298424_034477588/better_h_player/__init__.py:45-71 | as intended, each side's count is its pawns plus its kings among the listed cells |
| BetterH.TallyOfKings | players/AI2_313298424_034477588/better_h_player/__init__.py:49-50 | as intended, each side's king feature is half its number of kings; the code's lines 68-69 add 0.5 per opponent king the same way |
| BetterH.TallyOfPositions | players/AI2_313298424_034477588/better_h_player/__init__.py:51-52 | as intended, each side's position sum is the table total over the cells of its own pieces; the code's lines 70-71 do the same for the opponent |
| BetterH.OpponentLossCounted | players/AI2_313298424_034477588/better_h_player/__init__.py:66-71 | as intended, removing an opponent piece lowers the opponent's count by one per listing of its cell and keeps ours |
| BetterH.TallySwap | players/AI2_313298424_034477588/better_h_player/__init__.py:45-71 | as intended, the opponent's tally is ours with the sides exchanged |
| BetterH.ScoreAntisymmetric | players/AI2_313298424_034477588/better_h_player/__init__.py:85-113 | as intended, exchanging the sides negates the weighted score |
| BetterH.ScoreOf | players/AI2_313298424_034477588/better_h_player/__init__.py:85-113 | as intended, a tally in which both sides have the same counts, king features and position sums scores 0 |
| BetterH.IntendedScore | players/AI2_313298424_034477588/better_h_player/__init__.py:45-113 | as intended, the one-pass score of a board equals the weighted formula, ours minus theirs, over its piece counts and position totals |
| BetterH.Utility | players/AI2_313298424_034477588/better_h_player/__init__.py:29-113 | as intended: the terminal verdict when there is one; otherwise 100 times (our pieces minus theirs) plus 10 times (half our kings minus half theirs) plus our average position minus theirs |
| BetterH.UtilityZeroSum | players/AI2_313298424_034477588/better_h_player/__init__.py:29-113 | as intended, the opponent's utility of every position is the negation of ours |
| Evaluation.Average | players/AI2_313298424_034477588/better_h_player/__init__.py:94-101 | with a non-zero count the average times the count is the sum; a zero count with a zero sum averages 0 |
| ImprovedBetterH.EvaluatePosition | players/AI2_313298424_034477588/improved_better_h_player/__init__.py:171-183 | a square's score is never negative; a king scores 5; against at least 2 opponent pawns a pawn off the first and last rows scores 3.5 on a side column and 3 elsewhere |
| ImprovedBetterH.EndGamePawnScore | players/AI2_313298424_034477588/improved_better_h_player/__init__.py:174-177 | against fewer than 2 opponent pawns, a pawn scores 7 minus its distance from its crowning row, a value in 0..7 |
| ImprovedBetterH.EndGamePawnsAdvance | players/AI2_313298424_034477588/improved_better_h_player/__init__.py:174-177 | in the end game, of two pawns the one nearer its crowning row scores more |
| ImprovedBetterH.MiddleGameRows | players/AI2_313298424_034477588/improved_better_h_player/__init__.py:178-183 | otherwise a pawn on the first or last row scores 5, corners included |
| ImprovedBetterH.PositionSymmetric | players/AI2_313298424_034477588/improved_better_h_player/__init__.py:171-183 | mirroring left to right changes no score, and mirroring top to bottom while exchanging colours changes none |
| ImprovedBetterH.PositionSums | players/AI2_313298424_034477588/improved_better_h_player/__init__.py:75-90 | our sum is the total score of our pieces' squares against the opponent's pawn count, theirs that of the opponent's pieces against our pawn count; both are non-negative |
| ImprovedBetterH.PositionSumsSwap | players/AI2_313298424_034477588/improved_better_h_player/__init__.py:75-90 | the opponent's position sums are ours exchanged |
| ImprovedBetterH.DistanceFeatureDirection | players/AI2_313298424_034477588/improved_better_h_player/__init__.py:115-125 | with a king of ours and at least as many kings as the opponent the feature is larger the closer our kings are; with fewer kings it is larger the farther they are; with no king of ours the distance does not matter |
| ImprovedBetterH.KingDistance | players/AI2_313298424_034477588/improved_better_h_player/__init__.py:115-125 | with no king of ours the feature is 0; with at least as many kings as the opponent it is 1 minus the distance; with fewer, the distance |
| ImprovedBetterH.Utility | players/AI2_313298424_034477588/improved_better_h_player/__init__.py:49-138 | the terminal verdict when there is one; otherwise -inf iff we have no piece, +inf iff we have pieces and the opponent none, and else the balance of the board's piece counts and position totals plus our king-distance feature |
| ImprovedBetterH.BalanceAntisymmetric | players/AI2_313298424_034477588/improved_better_h_player/__init__.py:92-113 | exchanging the sides negates the piece, king and position features |
| ImprovedBetterH.Balance | players/AI2_313298424_034477588/improved_better_h_player/__init__.py:92-113 | equal counts and equal position sums give 0; with equal kings and equal average positions only the pawn difference counts, 100 per pawn |
| ImprovedBetterH.UtilityAntisymmetric | players/AI2_313298424_034477588/improved_better_h_player/__init__.py:49-138 | terminal verdicts and sentinels are exchanged between the sides; finite values are negations of each other once each side's king-distance feature is taken off |
| ImprovedPlayer.SelectiveDeepening | players/AI2_313298424_034477588/improved_player/__init__.py:102-121 | the search deepens iff a first jump exists; then moves are offered and every one is a capture, otherwise none is; improved_better_h uses the same test (its lines 274-280) |
| Driver.NextTurns | players/simple_player/__init__.py:84-89 | the last turn of a round starts a new round of k turns; any other turn counts down |
| Driver.RoundCycle | players/AI2_313298424_034477588/improved_player/__init__.py:94-99 | from a count in 1..k the count stays in 1..k, reaches k after exactly `turns` moves, and repeats every k moves |
| Driver.RoundStart | players/AI2_313298424_034477588/improved_better_h_player/__init__.py:261-266 | a full round of k moves returns the count to where it was |
| Driver.CountDown | players/simple_player/__init__.py:84-89 | within a round, n moves lower the count by n, and the move that ends the round resets it to k |
| Driver.Deepen | players/simple_player/__init__.py:40-82 | the result is the fallback or the move of some completed depth |
| Driver.DeepenStops | players/simple_player/__init__.py:71-80 | the loop returns the move of the last completed depth before time ran out, or the fallback when none completed, or the move of the first depth whose value is a sentinel |
| Driver.Converge | players/AI2_313298424_034477588/improved_player/__init__.py:48-92 | the result is the fallback or the move of some completed depth; improved_better_h runs the same loop (its lines 215-259) with its own minimum depth |
| Driver.ThreeUnchangedRoundsStop | players/AI2_313298424_034477588/improved_player/__init__.py:70-78 | three completed depths past the minimum with the previous value and the best move's squares stop the loop on the third; the result is the second's move |
| Driver.ChangeResets | players/AI2_313298424_034477588/improved_better_h_player/__init__.py:237-241 | a completed depth whose value or move squares changed resets the count to 0 |
| Driver.ConvergeExits | players/AI2_313298424_034477588/improved_player/__init__.py:57-90 | on a turn other than the last of the round, with the first depths completed with finite values and none completing three unchanged rounds: a time-out returns the last completed depth's move (the fallback when none completed), a depth completing three unchanged rounds returns the move of the depth before it, and otherwise a ±inf value returns its own move |
| Driver.ConvergeWithoutWindowIsDeepen | players/AI2_313298424_034477588/improved_player/__init__.py:48-92 | when no three unchanged rounds occur before the loop ends, the improved loop returns exactly what the simple player's loop returns |
| Driver.EarlyDepthsReset | players/AI2_313298424_034477588/improved_player/__init__.py:70-74 | up to the minimum depth every completed round resets the count, so the loop passes those depths without stopping and carries the last value and move on |
| Driver.ImprovedPlayersSearchEarlyDepths | players/AI2_313298424_034477588/improved_player/__init__.py:10-74 | with the minimum depths 4 (improved player) and 5 (improved_better_h, its line 20), the first 4 or 5 depths are searched to the end before the convergence rule applies |
| Driver.LastTurnDeepensFully | players/AI2_313298424_034477588/improved_better_h_player/__init__.py:243-246 | on the last turn of a round the convergence rule is off, and the loop returns what the simple loop would |
| Driver.GetMove | players/simple_player/__init__.py:34-90 | the move is a legal one when the searches return legal moves; a single legal move is returned at once; in that case the simple player leaves the turn counter alone and the improved players advance it; otherwise every player advances it |
| Driver.FallbackMove | players/AI2_313298424_034477588/improved_player/__init__.py:38-42 | when no depth completes, every strategy returns the first legal move |

## Left out

- The minimax search with alpha-beta pruning, `run_with_limited_time`, `ExceededTimeError` and `INFINITY` belong to `utils`, which is not part of this model. The driver takes the per-depth search results as input.
- The clock is left out: `time.process_time`, `no_more_time`, the per-move and per-round time arithmetic, and `MemoryError` handling. An outcome `OutOfTime`, or the end of the outcome sequence, stands for any of these ending the deepening loop.
- ImprovedBetterH.Utility: the king-distance feature is computed with a floating-point square root and normalised by the king count and `BOARD_ROWS`. That computation (`calculate_distance`, improved_better_h lines 83-85 and 117-118) is replaced by the real parameter `kingDist`. Only its sign logic (`DistanceFeature`) is modelled.
- Evaluation.PieceCount: the utilities iterate over the board dict's values. The model iterates over the 64 grid cells. These are the same cells for every board reached from the initial state through offered moves (`Play.PerformKeepsCells`).
- Board.CaptureOrigins: `get_possible_moves` collects capture origins in a hash set, whose iteration order is unspecified. The model fixes one order, and `MoveGen.CaptureMovesOrderFree` shows every order gives the same multiset of moves.
- Output code is left out: `draw_board`, `GameState.__hash__`, `GameMove.__str__` and all `print` calls.
- `run_game.py`, `test.py` and `grapher.py` are match plumbing and plotting, and are not part of this model.
- The commented-out criterion in improved_player (lines 107-119) and `ROW_BEFORE_BACK_ROW` are dead code.
- The commented-out blocks of better_h are dead code.
- The replacement of a zero piece count by 0.00001 in improved_better_h (lines 103-109) is unreachable after the two infinite verdicts. It is modelled anyway, through `Evaluation.Average`.
- Python floats are modelled as exact reals: the position averages, the 0.5 king steps of better_h and the 0.5 no-capture counter steps. Rounding is not modelled.
- `Board.PerformMove` has no precondition, as in `perform_move`. Facts about the resulting board are proved for well-shaped moves, which include every offered move.

## Findings

| source | as written | input that shows it | evidently intended | confidence | as-written member | corrected member |
|---|---|---|---|---|---|---|
| players/AI2_313298424_034477588/better_h_player/__init__.py:45-113 | every cell that does not hold one of our pieces, empty cells included, is counted as an opponent piece; the features are the opponent's minus ours | any non-terminal position: removing one of our pieces moves its cell to the opponent's count and raises the piece feature by 2 (worth +200); removing an opponent piece changes neither piece count nor either position sum (`BetterH.OwnLossRewardedAsWritten`, `BetterH.OpponentLossIgnoredAsWritten`); two positions that differ only in the opponent's pawns have the same utility (`BetterH.OpponentPawnsIgnoredByUtilityAsWritten`) | count only cells holding opponent pieces, and take our features minus the opponent's, as the simple and improved_better_h players do; the evaluation is then zero-sum (`BetterH.UtilityZeroSum`) | not executed | BetterH.UtilityAsWritten | BetterH.Utility |
