/** What the three utilities share: the score type, the terminal checks made before any material is
    counted, and counting pieces on the board. */
module Evaluation {
  import opened Consts
  import opened Moves
  import opened Board
  import opened MoveGen

  /** A utility value: a finite rational, or one of the two infinite sentinels that mark a won or a
      lost position. */
  datatype Score = NegInf | Fin(value: real) | PosInf

  /** The same position valued by the other side. */
  function Negate(x: Score): (r: Score)
    ensures r.Fin? <==> x.Fin?
    ensures r.Fin? ==> r.value + x.value == 0.0
    ensures r == PosInf <==> x == NegInf
  {
    match x
    case NegInf => PosInf
    case Fin(v) => Fin(-v)
    case PosInf => NegInf
  }

  /** Valuing from the other side twice gives the original value back. */
  lemma NegateInvolution(x: Score)
    ensures Negate(Negate(x)) == x
  {
  }

  predicate IsSentinel(x: Score) {
    x == NegInf || x == PosInf
  }

  /** The checks every utility makes first: a side with no move has lost (so the position is won
      when that side is the opponent), and once the no-capture counter, which grows by 0.5 per ply,
      reaches `MaxTurnsNoJump` (50 full moves, 100 plies without a capture) the game is a draw
      worth 0. `None` means play goes on and material decides. */
  function Terminal(s: State, me: Player): (r: Option<Score>)
    requires Total(s.board)
    ensures r == Some(PosInf) <==> GetPossibleMoves(s) == [] && s.curr != me
    ensures r == Some(NegInf) <==> GetPossibleMoves(s) == [] && s.curr == me
    ensures r.Some? && r.value.Fin? <==> GetPossibleMoves(s) != [] && s.turnsSinceLastJump >= MaxTurnsNoJump
    ensures r.Some? && r.value.Fin? ==> r.value.value == 0.0
  {
    if |GetPossibleMoves(s)| == 0 then Some(if s.curr != me then PosInf else NegInf)
    else if s.turnsSinceLastJump >= MaxTurnsNoJump then Some(Fin(0.0))
    else None
  }

  /** The terminal checks are zero-sum: the two sides see the same verdict with opposite signs. */
  lemma TerminalZeroSum(s: State, me: Player)
    requires Total(s.board)
    ensures Terminal(s, Opponent(me)).Some? <==> Terminal(s, me).Some?
    ensures Terminal(s, me).Some? ==> Terminal(s, Opponent(me)).value == Negate(Terminal(s, me).value)
  {
    OpponentInvolution(me);
    TwoPlayers(me, s.curr);
  }

  /** The average position score of a side: a zero piece count is replaced by 0.00001 before
      dividing by it, so a side without pieces averages 0 when its sum is 0. */
  function Average(sum: real, count: real): (r: real)
    ensures count != 0.0 ==> r * count == sum
    ensures count == 0.0 && sum == 0.0 ==> r == 0.0
  {
    sum / (if count == 0.0 then 0.00001 else count)
  }

  // ---------------------------------------------------------------------------
  // Counting pieces
  // ---------------------------------------------------------------------------

  /** The number of the cells `ls` holding piece `t`. */
  function Count(b: map<Loc, Piece>, ls: seq<Loc>, t: Piece): (n: nat)
    requires forall l | l in ls :: l in b
    ensures n <= |ls|
    ensures n == 0 <==> forall l | l in ls :: b[l] != t
  {
    if ls == [] then 0
    else (if b[ls[0]] == t then 1 else 0) + Count(b, ls[1..], t)
  }

  /** The number of pieces `t` on a board: the board's cells are the grid's 64 cells. */
  function PieceCount(b: map<Loc, Piece>, t: Piece): (n: nat)
    requires Total(b)
    ensures n <= 64
    ensures n == 0 <==> forall l | OnBoard(l) :: b[l] != t
  {
    AllCellsExact();
    Count(b, AllCells, t)
  }

  /** `p` has no piece left on the board. */
  predicate NoPieces(b: map<Loc, Piece>, p: Player)
    requires Total(b)
  {
    PieceCount(b, PawnColor(p)) == 0 && PieceCount(b, KingColor(p)) == 0
  }

  /** Every move the generator offers starts from a square holding a piece of the player to move,
      and is played by that piece. */
  lemma OfferedMoveOrigin(s: State, m: GameMove)
    requires Total(s.board) && m in GetPossibleMoves(s)
    ensures OnBoard(m.origin) && s.board[m.origin] in {PawnColor(s.curr), KingColor(s.curr)}
    ensures m.playerType == s.board[m.origin]
  {
    if CalcCaptureMoves(s) != [] {
      CaptureMovesByRules(s, m);
    } else {
      SingleMovesExact(s, m);
    }
  }

  /** A player with no piece left has no move, so the utilities' "no material" verdicts only
      matter for the side that is not to move. */
  lemma NoPiecesNoMoves(s: State)
    requires Total(s.board) && NoPieces(s.board, s.curr)
    ensures GetPossibleMoves(s) == []
  {
    if GetPossibleMoves(s) != [] {
      var m := GetPossibleMoves(s)[0];
      OfferedMoveOrigin(s, m);
      assert false;
    }
  }
}
