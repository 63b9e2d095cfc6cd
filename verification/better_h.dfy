/** The better_h player's evaluation: piece, king and average-position features weighted 100, 10
    and 1. `UtilityAsWritten` follows the code, which counts every cell that does not hold one of
    our pieces, empty ones included, for the opponent and subtracts our features from the
    opponent's. `Utility` is the evaluation as evidently intended: opponent features count only
    opponent pieces, and ours are taken minus theirs, as in the other two players. */
module BetterH {
  import opened Consts
  import opened Board
  import opened Evaluation

  /** Border squares are worth 5, inner squares 3. `utility` calls it with the column first. */
  function EvaluatePosition(x: int, y: int): (r: real)
    ensures r == 5.0 || r == 3.0
  {
    if x == 0 || x == 7 || y == 0 || y == 7 then 5.0 else 3.0
  }

  /** The position table is invariant under the symmetries of the 8x8 board: swapping the two
      coordinates and mirroring either of them; border squares score 5 and inner ones 3. */
  lemma PositionSymmetric(x: int, y: int)
    requires 0 <= x < BoardCols && 0 <= y < BoardRows
    ensures EvaluatePosition(x, y) == EvaluatePosition(y, x)
    ensures EvaluatePosition(x, y) == EvaluatePosition(7 - x, y)
    ensures EvaluatePosition(x, y) == EvaluatePosition(x, 7 - y)
    ensures EvaluatePosition(x, y) == 5.0 <==> x in {0, 7} || y in {0, 7}
  {
  }

  /** The running sums of the loop over the board: piece counts, king counts (0.5 per king) and
      position sums for us and for the other side. */
  datatype Tally = Tally(myPieces: real, myKings: real, myPos: real, oppPieces: real, oppKings: real, oppPos: real)

  const NoTally := Tally(0.0, 0.0, 0.0, 0.0, 0.0, 0.0)

  /** What the code counts for the opponent: every cell content that is not one of our colours. */
  function NotMyColors(p: Player): set<Piece> {
    {EM} + OpponentColors(p)
  }

  /** The position scores of the cells of `ls` whose piece is one of `cs`, added up. */
  function PositionTotal(b: map<Loc, Piece>, ls: seq<Loc>, cs: set<Piece>): real
    requires forall l | l in ls :: l in b
  {
    if ls == [] then 0.0
    else (if b[ls[0]] in cs then EvaluatePosition(ls[0].col, ls[0].row) else 0.0) + PositionTotal(b, ls[1..], cs)
  }

  /** The position total of the pieces in `cs` over the whole board. */
  function BoardPositionTotal(b: map<Loc, Piece>, cs: set<Piece>): real
    requires Total(b)
  {
    AllCellsExact();
    PositionTotal(b, AllCells, cs)
  }

  /** The tally as the code builds it: a cell holding one of our pieces counts for us, every other
      cell, empty or not, counts for the opponent. Kings count half. */
  function TallyAsWritten(b: map<Loc, Piece>, ls: seq<Loc>, me: Player): (t: Tally)
    requires forall l | l in ls :: l in b
    ensures t.myPieces + t.oppPieces == |ls| as real
    ensures 0.0 <= t.myPieces && 0.0 <= t.oppPieces
  {
    if ls == [] then NoTally
    else
      var t := TallyAsWritten(b, ls[1..], me);
      var l := ls[0];
      var pos := EvaluatePosition(l.col, l.row);
      if b[l] in MyColors(me) then
        t.(myPieces := t.myPieces + 1.0,
           myKings := t.myKings + (if b[l] == KingColor(me) then 0.5 else 0.0),
           myPos := t.myPos + pos)
      else
        t.(oppPieces := t.oppPieces + 1.0,
           oppKings := t.oppKings + (if b[l] == KingColor(Opponent(me)) then 0.5 else 0.0),
           oppPos := t.oppPos + pos)
  }

  /** The tally as intended: cells holding an opponent piece count for the opponent, empty cells
      for nobody. */
  function TallyOf(b: map<Loc, Piece>, ls: seq<Loc>, me: Player): (t: Tally)
    requires forall l | l in ls :: l in b
    ensures 0.0 <= t.myPieces && 0.0 <= t.oppPieces
    ensures t.myPieces + t.oppPieces <= |ls| as real
  {
    if ls == [] then NoTally
    else
      var t := TallyOf(b, ls[1..], me);
      var l := ls[0];
      var pos := EvaluatePosition(l.col, l.row);
      if b[l] in MyColors(me) then
        t.(myPieces := t.myPieces + 1.0,
           myKings := t.myKings + (if b[l] == KingColor(me) then 0.5 else 0.0),
           myPos := t.myPos + pos)
      else if b[l] in OpponentColors(me) then
        t.(oppPieces := t.oppPieces + 1.0,
           oppKings := t.oppKings + (if b[l] == KingColor(Opponent(me)) then 0.5 else 0.0),
           oppPos := t.oppPos + pos)
      else t
  }

  /** What the code's tally holds: our pieces and half our kings; for the opponent, every other
      cell and half the opponent's kings. */
  lemma {:induction false} TallyAsWrittenCounts(b: map<Loc, Piece>, ls: seq<Loc>, me: Player)
    requires forall l | l in ls :: l in b
    ensures var t := TallyAsWritten(b, ls, me);
      t.myPieces == (Count(b, ls, PawnColor(me)) + Count(b, ls, KingColor(me))) as real &&
      t.oppPieces == |ls| as real - t.myPieces &&
      t.myKings == 0.5 * Count(b, ls, KingColor(me)) as real &&
      t.oppKings == 0.5 * Count(b, ls, KingColor(Opponent(me))) as real
  {
    ColorTables(me);
    if ls != [] {
      TallyAsWrittenCounts(b, ls[1..], me);
    }
  }

  /** The code's position sums: ours over our pieces, the opponent's over every cell that is empty
      or holds an opponent piece. */
  lemma {:induction false} TallyAsWrittenPositions(b: map<Loc, Piece>, ls: seq<Loc>, me: Player)
    requires forall l | l in ls :: l in b
    ensures var t := TallyAsWritten(b, ls, me);
      t.myPos == PositionTotal(b, ls, MyColors(me)) &&
      t.oppPos == PositionTotal(b, ls, NotMyColors(me))
  {
    ColorTables(me);
    if ls != [] {
      TallyAsWrittenPositions(b, ls[1..], me);
    }
  }

  /** What the intended tally holds: each side's pieces; empty cells count for nobody. */
  lemma {:induction false} TallyOfCounts(b: map<Loc, Piece>, ls: seq<Loc>, me: Player)
    requires forall l | l in ls :: l in b
    ensures var t := TallyOf(b, ls, me);
      t.myPieces == (Count(b, ls, PawnColor(me)) + Count(b, ls, KingColor(me))) as real &&
      t.oppPieces == (Count(b, ls, PawnColor(Opponent(me))) + Count(b, ls, KingColor(Opponent(me)))) as real
  {
    ColorTables(me);
    if ls != [] {
      TallyOfCounts(b, ls[1..], me);
    }
  }

  /** The intended king counts: half a point per king of each side. */
  lemma {:induction false} TallyOfKings(b: map<Loc, Piece>, ls: seq<Loc>, me: Player)
    requires forall l | l in ls :: l in b
    ensures var t := TallyOf(b, ls, me);
      t.myKings == 0.5 * Count(b, ls, KingColor(me)) as real &&
      t.oppKings == 0.5 * Count(b, ls, KingColor(Opponent(me))) as real
  {
    ColorTables(me);
    if ls != [] {
      TallyOfKings(b, ls[1..], me);
    }
  }

  /** The intended position sums: each side's over its own pieces. */
  lemma {:induction false} TallyOfPositions(b: map<Loc, Piece>, ls: seq<Loc>, me: Player)
    requires forall l | l in ls :: l in b
    ensures var t := TallyOf(b, ls, me);
      t.myPos == PositionTotal(b, ls, MyColors(me)) &&
      t.oppPos == PositionTotal(b, ls, OpponentColors(me))
  {
    ColorTables(me);
    if ls != [] {
      TallyOfPositions(b, ls[1..], me);
    }
  }

  /** The same tally seen from the other side. */
  function Swap(t: Tally): Tally {
    Tally(t.oppPieces, t.oppKings, t.oppPos, t.myPieces, t.myKings, t.myPos)
  }

  /** The weighted features of the code: opponent minus ours, weights 100, 10 and 1. With the
      sign turned around this is the intended score. */
  function ScoreAsWritten(t: Tally): (r: real)
    ensures r == -ScoreOf(t)
  {
    100.0 * (t.oppPieces - t.myPieces) + 10.0 * (t.oppKings - t.myKings) +
    (Average(t.oppPos, t.oppPieces) - Average(t.myPos, t.myPieces))
  }

  /** The weighted features as intended: ours minus the opponent's. Two sides level in pieces,
      kings and position sums score 0. */
  function ScoreOf(t: Tally): (r: real)
    ensures t.myPieces == t.oppPieces && t.myKings == t.oppKings && t.myPos == t.oppPos ==> r == 0.0
  {
    100.0 * (t.myPieces - t.oppPieces) + 10.0 * (t.myKings - t.oppKings) +
    (Average(t.myPos, t.myPieces) - Average(t.oppPos, t.oppPieces))
  }

  /** Exchanging the two sides negates the intended score. */
  lemma ScoreAntisymmetric(t: Tally)
    ensures ScoreOf(Swap(t)) == -ScoreOf(t)
  {
  }

  /** The code's evaluation from the counts over the 64 cells: our pieces, half our kings and our
      position total against the other 64 - n cells, half the opponent's kings and the position
      total of every cell not holding one of our pieces, weighted 100, 10 and 1, opponent minus
      ours. */
  function AsWrittenFeatures(myPawns: nat, myKings: nat, oppKings: nat, myPos: real, otherPos: real): real {
    var mine := (myPawns + myKings) as real;
    var others := (64 - myPawns - myKings) as real;
    100.0 * (others - mine) + 10.0 * (0.5 * oppKings as real - 0.5 * myKings as real) +
    (Average(otherPos, others) - Average(myPos, mine))
  }

  /** The intended evaluation from the counts: our pieces, half our kings and our average position
      against the opponent's, weighted 100, 10 and 1, ours minus theirs. */
  function IntendedFeatures(myPawns: nat, myKings: nat, oppPawns: nat, oppKings: nat, myPos: real, oppPos: real): real {
    var mine, theirs := (myPawns + myKings) as real, (oppPawns + oppKings) as real;
    100.0 * (mine - theirs) + 10.0 * (0.5 * myKings as real - 0.5 * oppKings as real) +
    (Average(myPos, mine) - Average(oppPos, theirs))
  }

  /** The code's score of a whole board, computed by one pass over the cells, is its evaluation of
      the board's piece counts and position totals. */
  function AsWrittenScore(b: map<Loc, Piece>, me: Player): (r: real)
    requires Total(b)
    ensures r == AsWrittenFeatures(PieceCount(b, PawnColor(me)), PieceCount(b, KingColor(me)),
      PieceCount(b, KingColor(Opponent(me))), BoardPositionTotal(b, MyColors(me)), BoardPositionTotal(b, NotMyColors(me)))
  {
    AllCellsExact();
    var tally := TallyAsWritten(b, AllCells, me);
    assert tally == Tally((PieceCount(b, PawnColor(me)) + PieceCount(b, KingColor(me))) as real,
                          0.5 * PieceCount(b, KingColor(me)) as real, BoardPositionTotal(b, MyColors(me)),
                          (64 - PieceCount(b, PawnColor(me)) - PieceCount(b, KingColor(me))) as real,
                          0.5 * PieceCount(b, KingColor(Opponent(me))) as real,
                          BoardPositionTotal(b, NotMyColors(me))) by {
      TallyAsWrittenCounts(b, AllCells, me);
      TallyAsWrittenPositions(b, AllCells, me);
    }
    ScoreAsWritten(tally)
  }

  /** The intended score of a whole board is the intended evaluation of its piece counts and
      position totals. */
  function IntendedScore(b: map<Loc, Piece>, me: Player): (r: real)
    requires Total(b)
    ensures r == IntendedFeatures(PieceCount(b, PawnColor(me)), PieceCount(b, KingColor(me)),
      PieceCount(b, PawnColor(Opponent(me))), PieceCount(b, KingColor(Opponent(me))),
      BoardPositionTotal(b, MyColors(me)), BoardPositionTotal(b, OpponentColors(me)))
  {
    AllCellsExact();
    var tally := TallyOf(b, AllCells, me);
    assert tally == Tally((PieceCount(b, PawnColor(me)) + PieceCount(b, KingColor(me))) as real,
                          0.5 * PieceCount(b, KingColor(me)) as real, BoardPositionTotal(b, MyColors(me)),
                          (PieceCount(b, PawnColor(Opponent(me))) + PieceCount(b, KingColor(Opponent(me)))) as real,
                          0.5 * PieceCount(b, KingColor(Opponent(me))) as real,
                          BoardPositionTotal(b, OpponentColors(me))) by {
      TallyOfCounts(b, AllCells, me);
      TallyOfKings(b, AllCells, me);
      TallyOfPositions(b, AllCells, me);
    }
    ScoreOf(tally)
  }

  /** The utility as the code computes it: the terminal verdict, otherwise the code's evaluation of
      the board's counts. */
  function UtilityAsWritten(s: State, me: Player): (r: Score)
    requires Total(s.board)
    ensures Terminal(s, me).Some? ==> r == Terminal(s, me).value
    ensures Terminal(s, me).None? ==> r == Fin(AsWrittenFeatures(
      PieceCount(s.board, PawnColor(me)), PieceCount(s.board, KingColor(me)), PieceCount(s.board, KingColor(Opponent(me))),
      BoardPositionTotal(s.board, MyColors(me)), BoardPositionTotal(s.board, NotMyColors(me))))
  {
    var t := Terminal(s, me);
    if t.Some? then t.value else Fin(AsWrittenScore(s.board, me))
  }

  /** The utility as intended: the terminal verdict, otherwise the intended evaluation of the
      board's counts. */
  function Utility(s: State, me: Player): (r: Score)
    requires Total(s.board)
    ensures Terminal(s, me).Some? ==> r == Terminal(s, me).value
    ensures Terminal(s, me).None? ==> r == Fin(IntendedFeatures(
      PieceCount(s.board, PawnColor(me)), PieceCount(s.board, KingColor(me)),
      PieceCount(s.board, PawnColor(Opponent(me))), PieceCount(s.board, KingColor(Opponent(me))),
      BoardPositionTotal(s.board, MyColors(me)), BoardPositionTotal(s.board, OpponentColors(me))))
  {
    var t := Terminal(s, me);
    if t.Some? then t.value else Fin(IntendedScore(s.board, me))
  }

  // ---------------------------------------------------------------------------
  // The discrepancy and its correction
  // ---------------------------------------------------------------------------

  /** As written, the piece feature (opponent count minus ours) is the number of cells minus twice
      our piece count, whatever the opponent holds: emptying a cell that holds an opponent piece
      leaves both piece counts and both position sums unchanged. */
  lemma {:induction false} OpponentLossIgnoredAsWritten(b: map<Loc, Piece>, ls: seq<Loc>, me: Player, l: Loc)
    requires forall k | k in ls :: k in b
    requires l in b && b[l] in OpponentColors(me)
    ensures
      var t := TallyAsWritten(b, ls, me);
      t.oppPieces - t.myPieces == |ls| as real - 2.0 * t.myPieces
    ensures
      var t, t' := TallyAsWritten(b, ls, me), TallyAsWritten(b[l := EM], ls, me);
      t'.myPieces == t.myPieces && t'.oppPieces == t.oppPieces && t'.myPos == t.myPos && t'.oppPos == t.oppPos
  {
    ColorTables(me);
    if ls != [] {
      OpponentLossIgnoredAsWritten(b, ls[1..], me, l);
    }
  }

  /** As written, emptying a cell that holds one of our pieces moves the cell from our count to
      the opponent's, once for each time it is listed: losing a piece raises the piece feature by 2,
      worth +200. */
  lemma {:induction false} OwnLossRewardedAsWritten(b: map<Loc, Piece>, ls: seq<Loc>, me: Player, l: Loc)
    requires forall k | k in ls :: k in b
    requires l in b && b[l] in MyColors(me)
    ensures TallyAsWritten(b[l := EM], ls, me).myPieces == TallyAsWritten(b, ls, me).myPieces - multiset(ls)[l] as real
    ensures TallyAsWritten(b[l := EM], ls, me).oppPieces == TallyAsWritten(b, ls, me).oppPieces + multiset(ls)[l] as real
  {
    ColorTables(me);
    if ls != [] {
      OwnLossRewardedAsWritten(b, ls[1..], me, l);
      assert ls == [ls[0]] + ls[1..];
      assert multiset(ls)[l] == multiset(ls[1..])[l] + if ls[0] == l then 1 else 0;
      if ls[0] != l {
        assert b[l := EM][ls[0]] == b[ls[0]];
      }
    }
  }

  /** Counting `t` over boards that hold `t` on the same cells gives the same count. */
  lemma {:induction false} CountAgree(b1: map<Loc, Piece>, b2: map<Loc, Piece>, ls: seq<Loc>, t: Piece)
    requires forall l | l in ls :: l in b1 && l in b2 && (b1[l] == t <==> b2[l] == t)
    ensures Count(b1, ls, t) == Count(b2, ls, t)
  {
    if ls != [] {
      CountAgree(b1, b2, ls[1..], t);
    }
  }

  /** Position totals over boards whose cells hold a piece of `cs` at the same places agree. */
  lemma {:induction false} PositionTotalAgree(b1: map<Loc, Piece>, b2: map<Loc, Piece>, ls: seq<Loc>, cs: set<Piece>)
    requires forall l | l in ls :: l in b1 && l in b2 && (b1[l] in cs <==> b2[l] in cs)
    ensures PositionTotal(b1, ls, cs) == PositionTotal(b2, ls, cs)
  {
    if ls != [] {
      PositionTotalAgree(b1, b2, ls[1..], cs);
    }
  }

  /** A cell content is counted for the opponent by the code exactly when it is not ours. */
  lemma NotMyColorsExact(p: Player, t: Piece)
    ensures t in NotMyColors(p) <==> t !in MyColors(p)
  {
    ColorTables(p);
    match p
    case Red =>
    case Black =>
  }

  /** As written, the score cannot see the opponent's pawns: two boards with our pieces on the same
      squares and as many opponent kings score the same, however many opponent pawns stand where.
      Capturing a pawn is worth nothing to the code. */
  lemma OpponentPawnsIgnoredAsWritten(b1: map<Loc, Piece>, b2: map<Loc, Piece>, me: Player)
    requires Total(b1) && Total(b2)
    requires forall l | OnBoard(l) :: b1[l] in MyColors(me) || b2[l] in MyColors(me) ==> b1[l] == b2[l]
    requires PieceCount(b1, KingColor(Opponent(me))) == PieceCount(b2, KingColor(Opponent(me)))
    ensures AsWrittenScore(b1, me) == AsWrittenScore(b2, me)
  {
    AllCellsExact();
    assert PieceCount(b1, PawnColor(me)) == PieceCount(b2, PawnColor(me)) by {
      ColorTables(me);
      CountAgree(b1, b2, AllCells, PawnColor(me));
    }
    assert PieceCount(b1, KingColor(me)) == PieceCount(b2, KingColor(me)) by {
      ColorTables(me);
      CountAgree(b1, b2, AllCells, KingColor(me));
    }
    assert BoardPositionTotal(b1, MyColors(me)) == BoardPositionTotal(b2, MyColors(me)) by {
      PositionTotalAgree(b1, b2, AllCells, MyColors(me));
    }
    assert BoardPositionTotal(b1, NotMyColors(me)) == BoardPositionTotal(b2, NotMyColors(me)) by {
      forall l | l in AllCells
        ensures b1[l] in NotMyColors(me) <==> b2[l] in NotMyColors(me)
      {
        NotMyColorsExact(me, b1[l]);
        NotMyColorsExact(me, b2[l]);
      }
      PositionTotalAgree(b1, b2, AllCells, NotMyColors(me));
    }
  }

  /** The same for the utility: in two positions where play goes on, with our pieces on the same
      squares and as many opponent kings, the code values both alike, whatever the opponent's pawns. */
  lemma OpponentPawnsIgnoredByUtilityAsWritten(s1: State, s2: State, me: Player)
    requires Total(s1.board) && Total(s2.board)
    requires Terminal(s1, me).None? && Terminal(s2, me).None?
    requires forall l | OnBoard(l) ::
      s1.board[l] in MyColors(me) || s2.board[l] in MyColors(me) ==> s1.board[l] == s2.board[l]
    requires PieceCount(s1.board, KingColor(Opponent(me))) == PieceCount(s2.board, KingColor(Opponent(me)))
    ensures UtilityAsWritten(s1, me) == UtilityAsWritten(s2, me)
  {
    OpponentPawnsIgnoredAsWritten(s1.board, s2.board, me);
  }

  /** As intended, emptying a cell that holds an opponent piece lowers the opponent's piece count
      by one for each time the cell is listed, and leaves our count unchanged. */
  lemma {:induction false} OpponentLossCounted(b: map<Loc, Piece>, ls: seq<Loc>, me: Player, l: Loc)
    requires forall k | k in ls :: k in b
    requires l in b && b[l] in OpponentColors(me)
    ensures TallyOf(b[l := EM], ls, me).myPieces == TallyOf(b, ls, me).myPieces
    ensures TallyOf(b[l := EM], ls, me).oppPieces == TallyOf(b, ls, me).oppPieces - multiset(ls)[l] as real
  {
    ColorTables(me);
    if ls != [] {
      OpponentLossCounted(b, ls[1..], me, l);
      assert ls == [ls[0]] + ls[1..];
      assert multiset(ls)[l] == multiset(ls[1..])[l] + if ls[0] == l then 1 else 0;
      if ls[0] != l {
        assert b[l := EM][ls[0]] == b[ls[0]];
      }
    }
  }

  /** As intended, the tally from the opponent's side is ours with the two sides exchanged. */
  lemma {:induction false} TallySwap(b: map<Loc, Piece>, ls: seq<Loc>, me: Player)
    requires forall l | l in ls :: l in b
    ensures TallyOf(b, ls, Opponent(me)) == Swap(TallyOf(b, ls, me))
  {
    ColorTables(me);
    ColorTables(Opponent(me));
    OpponentInvolution(me);
    if ls != [] {
      TallySwap(b, ls[1..], me);
    }
  }

  /** As intended, the evaluation is zero-sum: the opponent's value of every position is the
      negation of ours. */
  lemma UtilityZeroSum(s: State, me: Player)
    requires Total(s.board)
    ensures Utility(s, Opponent(me)) == Negate(Utility(s, me))
  {
    TerminalZeroSum(s, me);
    AllCellsExact();
    TallySwap(s.board, AllCells, me);
    ScoreAntisymmetric(TallyOf(s.board, AllCells, me));
  }
}
