/** The improved player's selective-deepening test; improved_better_h uses the same test. */
module ImprovedPlayer {
  import opened Consts
  import opened Moves
  import opened Board
  import opened MoveGen

  /** The first-step capture list is non-empty exactly when some piece of the player to move can
      jump by the rules. */
  lemma CapturesExist(s: State)
    requires Total(s.board)
    ensures CalcCaptureMoves(s) != [] <==> exists c :: IsFirstJump(s, c)
  {
    if CalcCaptureMoves(s) != [] {
      CaptureMovesExact(s, CalcCaptureMoves(s)[0]);
    }
    forall c | IsFirstJump(s, c)
      ensures CalcCaptureMoves(s) != []
    {
      CaptureMovesExact(s, c);
    }
  }

  /** The search goes deeper below the depth limit exactly when the player to move can capture,
      which by the mandatory-capture rule is when every move offered there is a capture. */
  function SelectiveDeepening(s: State): (r: bool)
    requires Total(s.board)
    ensures r <==> exists c :: IsFirstJump(s, c)
    ensures r ==> GetPossibleMoves(s) != [] && forall m | m in GetPossibleMoves(s) :: IsCapture(m)
    ensures !r ==> forall m | m in GetPossibleMoves(s) :: !IsCapture(m)
  {
    CapturesExist(s);
    MandatoryCapture(s);
    |CalcCaptureMoves(s)| > 0
  }
}
