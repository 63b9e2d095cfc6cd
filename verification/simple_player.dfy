/** The simple player's evaluation: material only, a pawn worth 1 and a king 1.5. */
module SimplePlayer {
  import opened Consts
  import opened Board
  import opened Evaluation

  const PawnWeight: real := 1.0
  const KingWeight: real := 1.5

  /** The weighted material of player `p`. It is zero exactly when `p` has no piece left. */
  function Material(b: map<Loc, Piece>, p: Player): (r: real)
    requires Total(b)
    ensures r >= 0.0
    ensures r == 0.0 <==> NoPieces(b, p)
  {
    PawnWeight * PieceCount(b, PawnColor(p)) as real + KingWeight * PieceCount(b, KingColor(p)) as real
  }

  /** The utility of `s` for player `me`: the terminal verdict when there is one; otherwise -inf if
      `me` has no material, else +inf if the opponent has none, else the material difference. */
  function Utility(s: State, me: Player): (r: Score)
    requires Total(s.board)
    ensures Terminal(s, me).Some? ==> r == Terminal(s, me).value
    ensures Terminal(s, me).None? ==>
      (r == NegInf <==> NoPieces(s.board, me)) &&
      (r == PosInf <==> !NoPieces(s.board, me) && NoPieces(s.board, Opponent(me))) &&
      (r.Fin? ==> r.value == Material(s.board, me) - Material(s.board, Opponent(me)))
  {
    var t := Terminal(s, me);
    if t.Some? then t.value
    else
      var mine := Material(s.board, me);
      var theirs := Material(s.board, Opponent(me));
      if mine == 0.0 then NegInf
      else if theirs == 0.0 then PosInf
      else Fin(mine - theirs)
  }

  /** The utility is zero-sum: the opponent's value of every position is the negation of ours. When
      neither side has material left the player to move has no move, so the terminal check decides
      before the two "no material" verdicts could both say -inf. */
  lemma UtilityZeroSum(s: State, me: Player)
    requires Total(s.board)
    ensures Utility(s, Opponent(me)) == Negate(Utility(s, me))
  {
    TerminalZeroSum(s, me);
    OpponentInvolution(me);
    if Terminal(s, me).None? && NoPieces(s.board, me) && NoPieces(s.board, Opponent(me)) {
      TwoPlayers(me, s.curr);
      NoPiecesNoMoves(s);
      assert false;
    }
  }

  /** The simple player never extends the search beyond its depth limit. */
  function SelectiveDeepening(s: State): (r: bool)
    ensures !r
  {
    false
  }
}
