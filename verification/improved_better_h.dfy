/** The improved_better_h player's evaluation: piece, king, average-position and king-distance
    features weighted 100, 50, 1 and 1. The king-distance feature is computed with a floating-point
    square root; it enters here as the real `kingDist`, the normalised distance of our kings from
    the opponent's pieces. */
module ImprovedBetterH {
  import opened Consts
  import opened Board
  import opened Evaluation

  function Abs(x: int): nat {
    if x < 0 then -x else x
  }

  /** The score of a piece on column `x`, row `y`: a king scores 5 anywhere. A pawn whose opponent has
      fewer than 2 pawns left scores by how far it has advanced; otherwise a pawn scores 5 on the
      first and last rows, 3.5 on the side columns and 3 elsewhere. */
  function EvaluatePosition(x: int, y: int, isKing: bool, opponentPawnCount: int, color: Player): (r: real)
    ensures 0.0 <= r
    ensures isKing ==> r == 5.0
    ensures !isKing && opponentPawnCount >= 2 && y != 0 && y != 7 ==> r == (if x == 0 || x == 7 then 3.5 else 3.0)
  {
    if isKing then 5.0
    else if opponentPawnCount < 2 then Abs(7 - BackRow(color) - y) as real
    else if y == 0 || y == 7 then 5.0
    else if x == 0 || x == 7 then 3.5
    else 3.0
  }

  /** In the end game a pawn on the board scores 7 minus its distance from the row where it is
      crowned, a value in 0..7 that grows as the pawn advances. */
  lemma EndGamePawnScore(x: int, y: int, opponentPawnCount: int, color: Player)
    requires 0 <= y < BoardRows && opponentPawnCount < 2
    ensures EvaluatePosition(x, y, false, opponentPawnCount, color) == (7 - Abs(BackRow(color) - y)) as real
    ensures 0.0 <= EvaluatePosition(x, y, false, opponentPawnCount, color) <= 7.0
  {
  }

  /** In the end game, of two pawns of the same colour the one nearer its crowning row scores more. */
  lemma EndGamePawnsAdvance(x1: int, y1: int, x2: int, y2: int, opponentPawnCount: int, color: Player)
    requires 0 <= y1 < BoardRows && 0 <= y2 < BoardRows && opponentPawnCount < 2
    requires Abs(BackRow(color) - y2) < Abs(BackRow(color) - y1)
    ensures EvaluatePosition(x2, y2, false, opponentPawnCount, color) > EvaluatePosition(x1, y1, false, opponentPawnCount, color)
  {
    EndGamePawnScore(x1, y1, opponentPawnCount, color);
    EndGamePawnScore(x2, y2, opponentPawnCount, color);
  }

  /** The table treats the two colours alike: mirroring the board left to right changes no score,
      and mirroring it top to bottom while exchanging the colours changes none either. */
  lemma PositionSymmetric(x: int, y: int, isKing: bool, opponentPawnCount: int, color: Player)
    requires 0 <= x < BoardCols && 0 <= y < BoardRows
    ensures EvaluatePosition(7 - x, y, isKing, opponentPawnCount, color) == EvaluatePosition(x, y, isKing, opponentPawnCount, color)
    ensures EvaluatePosition(x, 7 - y, isKing, opponentPawnCount, Opponent(color)) == EvaluatePosition(x, y, isKing, opponentPawnCount, color)
  {
  }

  /** In the middle game a pawn on the first or last row scores 5, the row test taking precedence
      over the column test, so the corners score 5 as well. */
  lemma MiddleGameRows(x: int, y: int, opponentPawnCount: int, color: Player)
    requires opponentPawnCount >= 2 && (y == 0 || y == 7)
    ensures EvaluatePosition(x, y, false, opponentPawnCount, color) == 5.0
  {
  }

  /** The two position sums of the loop over the board. */
  datatype Sums = Sums(mine: real, theirs: real)

  /** The position total of `side` over the cells `ls`: the score of every cell holding one of its
      pieces, a king or pawn of its colour, scored against `otherPawns`, the other side's pawn count. */
  function SideSum(b: map<Loc, Piece>, ls: seq<Loc>, side: Player, otherPawns: int): real
    requires forall l | l in ls :: l in b
  {
    if ls == [] then 0.0
    else
      var l := ls[0];
      (if b[l] in MyColors(side) then EvaluatePosition(l.col, l.row, b[l] == KingColor(side), otherPawns, side) else 0.0) +
      SideSum(b, ls[1..], side, otherPawns)
  }

  /** `SideSum` over the whole board. */
  function BoardSideSum(b: map<Loc, Piece>, side: Player, otherPawns: int): real
    requires Total(b)
  {
    AllCellsExact();
    SideSum(b, AllCells, side, otherPawns)
  }

  /** Position sums over the cells `ls`, in one pass: ours is the position total of our pieces
      scored against the opponent's pawn count, theirs the total of the opponent's pieces scored
      against our pawn count. */
  function PositionSums(b: map<Loc, Piece>, ls: seq<Loc>, me: Player, myPawns: int, oppPawns: int): (r: Sums)
    requires forall l | l in ls :: l in b
    ensures r.mine == SideSum(b, ls, me, oppPawns)
    ensures r.theirs == SideSum(b, ls, Opponent(me), myPawns)
    ensures 0.0 <= r.mine && 0.0 <= r.theirs
  {
    ColorTables(me);
    ColorTables(Opponent(me));
    OpponentInvolution(me);
    if ls == [] then Sums(0.0, 0.0)
    else
      var rest := PositionSums(b, ls[1..], me, myPawns, oppPawns);
      var l := ls[0];
      if b[l] == EM then rest
      else if b[l] in MyColors(me) then
        rest.(mine := rest.mine + EvaluatePosition(l.col, l.row, b[l] == KingColor(me), oppPawns, me))
      else
        rest.(theirs := rest.theirs + EvaluatePosition(l.col, l.row, b[l] == KingColor(Opponent(me)), myPawns, Opponent(me)))
  }

  /** Each piece is scored the same way from both sides, so the opponent's sums are ours exchanged. */
  lemma {:induction false} PositionSumsSwap(b: map<Loc, Piece>, ls: seq<Loc>, me: Player, myPawns: int, oppPawns: int)
    requires forall l | l in ls :: l in b
    ensures PositionSums(b, ls, Opponent(me), oppPawns, myPawns) ==
      Sums(PositionSums(b, ls, me, myPawns, oppPawns).theirs, PositionSums(b, ls, me, myPawns, oppPawns).mine)
  {
    ColorTables(me);
    ColorTables(Opponent(me));
    OpponentInvolution(me);
    if ls != [] {
      PositionSumsSwap(b, ls[1..], me, myPawns, oppPawns);
      var p := b[ls[0]];
      assert p == EM || p in MyColors(me) || p in MyColors(Opponent(me));
    }
  }

  /** The king-distance feature: with no king of ours it is 0; otherwise it is the normalised
      distance when the opponent has more kings (keep away), and 1 minus it when we have at least
      as many (close in). */
  function DistanceFeature(myKings: nat, kingDifference: int, kingDist: real): (r: real)
    ensures myKings == 0 ==> r == 0.0
    ensures myKings > 0 ==> r + (if kingDifference >= 0 then kingDist else -kingDist) == (if kingDifference >= 0 then 1.0 else 0.0)
  {
    if myKings > 0 then (if kingDifference >= 0 then 1.0 - kingDist else kingDist) else 0.0
  }

  /** The feature steers our kings: with at least as many kings as the opponent it grows as the
      distance to the opponent's pieces shrinks (close in); with fewer it grows with the distance
      (keep away); with no king of ours the distance does not matter. */
  lemma DistanceFeatureDirection(myKings: nat, kingDifference: int, d1: real, d2: real)
    requires d1 < d2
    ensures myKings > 0 && kingDifference >= 0 ==>
      DistanceFeature(myKings, kingDifference, d1) > DistanceFeature(myKings, kingDifference, d2)
    ensures myKings > 0 && kingDifference < 0 ==>
      DistanceFeature(myKings, kingDifference, d1) < DistanceFeature(myKings, kingDifference, d2)
    ensures myKings == 0 ==> DistanceFeature(myKings, kingDifference, d1) == DistanceFeature(myKings, kingDifference, d2)
  {
  }

  /** The king-distance feature of `me` in `s`. */
  function KingDistance(s: State, me: Player, kingDist: real): (r: real)
    requires Total(s.board)
    ensures PieceCount(s.board, KingColor(me)) == 0 ==> r == 0.0
    ensures (PieceCount(s.board, KingColor(me)) > 0 &&
             PieceCount(s.board, KingColor(me)) >= PieceCount(s.board, KingColor(Opponent(me)))) ==> r == 1.0 - kingDist
    ensures (PieceCount(s.board, KingColor(me)) > 0 &&
             PieceCount(s.board, KingColor(me)) < PieceCount(s.board, KingColor(Opponent(me)))) ==> r == kingDist
  {
    var myKings := PieceCount(s.board, KingColor(me));
    DistanceFeature(myKings, myKings - PieceCount(s.board, KingColor(Opponent(me))), kingDist)
  }

  /** The utility of `s` for `me`: the terminal verdict when there is one; otherwise -inf when we
      have no piece, else +inf when the opponent has none, else the weighted features. */
  function Utility(s: State, me: Player, kingDist: real): (r: Score)
    requires Total(s.board)
    ensures Terminal(s, me).Some? ==> r == Terminal(s, me).value
    ensures Terminal(s, me).None? ==>
      (r == NegInf <==> NoPieces(s.board, me)) &&
      (r == PosInf <==> !NoPieces(s.board, me) && NoPieces(s.board, Opponent(me)))
    ensures Terminal(s, me).None? && r.Fin? ==>
      var b := s.board;
      var myPawns, myKings := PieceCount(b, PawnColor(me)), PieceCount(b, KingColor(me));
      var oppPawns, oppKings := PieceCount(b, PawnColor(Opponent(me))), PieceCount(b, KingColor(Opponent(me)));
      r.value == Balance(myPawns, myKings, oppPawns, oppKings,
                         Sums(BoardSideSum(b, me, oppPawns), BoardSideSum(b, Opponent(me), myPawns))) +
                 KingDistance(s, me, kingDist)
  {
    var t := Terminal(s, me);
    if t.Some? then t.value
    else
      var b := s.board;
      var myPawns, myKings := PieceCount(b, PawnColor(me)), PieceCount(b, KingColor(me));
      var oppPawns, oppKings := PieceCount(b, PawnColor(Opponent(me))), PieceCount(b, KingColor(Opponent(me)));
      var myPieces, oppPieces := myPawns + myKings, oppPawns + oppKings;
      AllCellsExact();
      var sums := PositionSums(b, AllCells, me, myPawns, oppPawns);
      if myPieces == 0 && myKings == 0 then NegInf
      else if oppPieces == 0 && oppKings == 0 then PosInf
      else
        Fin(Balance(myPawns, myKings, oppPawns, oppKings, sums) + DistanceFeature(myKings, myKings - oppKings, kingDist))
  }

  /** The piece, king and average-position features, weighted 100, 50 and 1, ours minus the
      opponent's; a side's pieces are its pawns and kings together. */
  function Balance(myPawns: nat, myKings: nat, oppPawns: nat, oppKings: nat, sums: Sums): (r: real)
    ensures myPawns == oppPawns && myKings == oppKings && sums.mine == sums.theirs ==> r == 0.0
    ensures (myKings == oppKings && myPawns + myKings > 0 && oppPawns + oppKings > 0 &&
             sums.mine / (myPawns + myKings) as real == sums.theirs / (oppPawns + oppKings) as real) ==>
      r == 100.0 * (myPawns - oppPawns) as real
  {
    var myPieces, oppPieces := myPawns + myKings, oppPawns + oppKings;
    100.0 * (myPieces - oppPieces) as real + 50.0 * (myKings - oppKings) as real +
    (Average(sums.mine, myPieces as real) - Average(sums.theirs, oppPieces as real))
  }

  /** Exchanging the two sides negates the balance. */
  lemma BalanceAntisymmetric(myPawns: nat, myKings: nat, oppPawns: nat, oppKings: nat, sums: Sums)
    ensures Balance(oppPawns, oppKings, myPawns, myKings, Sums(sums.theirs, sums.mine)) ==
      -Balance(myPawns, myKings, oppPawns, oppKings, sums)
  {
  }

  /** Apart from the king-distance feature, which looks only at our own kings, the evaluation is
      zero-sum: terminal verdicts and sentinels are exchanged, and while play goes on the finite
      values are negations of each other once each side's distance feature is taken off. */
  lemma UtilityAntisymmetric(s: State, me: Player, d1: real, d2: real)
    requires Total(s.board)
    ensures Terminal(s, me).Some? || IsSentinel(Utility(s, me, d1)) ==>
      Utility(s, Opponent(me), d2) == Negate(Utility(s, me, d1))
    ensures Terminal(s, me).None? && Utility(s, me, d1).Fin? ==>
      (Utility(s, Opponent(me), d2).Fin? &&
       Utility(s, me, d1).value - KingDistance(s, me, d1) ==
       -(Utility(s, Opponent(me), d2).value - KingDistance(s, Opponent(me), d2)))
  {
    TerminalZeroSum(s, me);
    OpponentInvolution(me);
    if Terminal(s, me).None? {
      var b := s.board;
      AllCellsExact();
      var myPawns, myKings := PieceCount(b, PawnColor(me)), PieceCount(b, KingColor(me));
      var oppPawns, oppKings := PieceCount(b, PawnColor(Opponent(me))), PieceCount(b, KingColor(Opponent(me)));
      var sums := PositionSums(b, AllCells, me, myPawns, oppPawns);
      PositionSumsSwap(b, AllCells, me, myPawns, oppPawns);
      BalanceAntisymmetric(myPawns, myKings, oppPawns, oppKings, sums);
      if NoPieces(b, me) && NoPieces(b, Opponent(me)) {
        TwoPlayers(me, s.curr);
        NoPiecesNoMoves(s);
        assert false;
      }
      if Utility(s, me, d1).Fin? {
        assert Utility(s, me, d1).value == Balance(myPawns, myKings, oppPawns, oppKings, sums) + KingDistance(s, me, d1);
        assert Utility(s, Opponent(me), d2).value ==
          Balance(oppPawns, oppKings, myPawns, myKings, Sums(sums.theirs, sums.mine)) + KingDistance(s, Opponent(me), d2);
      }
    }
  }
}
