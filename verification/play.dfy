/** Properties of the initial position and of playing moves. */
module Play {
  import opened Consts
  import opened Moves
  import opened MoveTables
  import opened Board
  import opened CaptureChains
  import opened MoveGen
  import opened Evaluation

  // ---------------------------------------------------------------------------
  // The initial position
  // ---------------------------------------------------------------------------

  /** The standard opening layout: red pawns on the playable squares of the three rows nearest
      row 0, black pawns on those of the three rows nearest row 7, the middle two rows empty. */
  function StartPiece(l: Loc): Piece {
    if !IsBlackTile(l) then EM
    else if l.row < 3 then RP
    else if l.row >= BoardRows - 3 then BP
    else EM
  }

  /** A state in the opening position: exactly the 64 grid cells, laid out as `StartPiece`, red to
      move and the no-capture counter at zero. */
  ghost predicate StartState(s: State) {
    (forall l :: l in s.board <==> OnBoard(l)) &&
    (forall l | l in s.board :: s.board[l] == StartPiece(l)) &&
    s.curr == Red && s.turnsSinceLastJump == 0.0
  }

  lemma RedRowsLayout(l: Loc)
    ensures l in RedRows() <==> OnBoard(l)
    ensures l in RedRows() ==> RedRows()[l] == if IsBlackTile(l) && l.row < 3 then RP else EM
  {
  }

  /** The initial state is the opening position. */
  lemma InitialLayout()
    ensures StartState(Initial())
  {
    forall l
      ensures l in Initial().board <==> OnBoard(l)
      ensures l in Initial().board ==> Initial().board[l] == StartPiece(l)
    {
      RedRowsLayout(l);
    }
  }

  /** In the opening position no capture is possible: every red piece is a pawn on rows 0-2 and the
      square it would jump lies on rows 1-3, where no black piece stands. */
  lemma StartNoCaptures(s: State)
    requires StartState(s)
    ensures Total(s.board)
    ensures forall c :: !IsFirstJump(s, c)
    ensures CalcCaptureMoves(s) == []
  {
    forall c
      ensures !IsFirstJump(s, c)
    {
      if IsFirstJump(s, c) {
        var d :| d in Dirs(s.board[c.origin]) && Jump(c.jumped, c.landing) == JumpTo(c.origin, d);
        PawnsMoveForward(Red, d, c.origin);
        assert false;
      }
    }
    if CalcCaptureMoves(s) != [] {
      CaptureMovesExact(s, CalcCaptureMoves(s)[0]);
    }
  }

  lemma InitialNoCaptures()
    ensures Total(Initial().board)
    ensures CalcCaptureMoves(Initial()) == []
  {
    InitialLayout();
    StartNoCaptures(Initial());
  }

  /** The seven opening moves, in the order the generator lists them. */
  const OpeningMoves: seq<GameMove> := [
    GameMove(RP, Loc(2, 0), Loc(3, 1), []),
    GameMove(RP, Loc(2, 2), Loc(3, 3), []),
    GameMove(RP, Loc(2, 2), Loc(3, 1), []),
    GameMove(RP, Loc(2, 4), Loc(3, 5), []),
    GameMove(RP, Loc(2, 4), Loc(3, 3), []),
    GameMove(RP, Loc(2, 6), Loc(3, 7), []),
    GameMove(RP, Loc(2, 6), Loc(3, 5), [])
  ]

  /** A single move in the opening position is a row-2 red pawn stepping onto row 3. */
  lemma StartSingleIsOpening(s: State, m: GameMove)
    requires StartState(s) && Total(s.board)
    requires IsSingleMove(s, m)
    ensures m in OpeningMoves
  {
    StartSingleStep(s, m);
    OpeningShape(m);
  }

  /** In the opening position only a red pawn of row 2 can step, onto the empty row 3. */
  lemma StartSingleStep(s: State, m: GameMove)
    requires StartState(s) && Total(s.board)
    requires IsSingleMove(s, m)
    ensures m.playerType == RP && m.jumped == [] && OnBoard(m.origin) && OnBoard(m.target)
    ensures m.origin.row == 2 && m.target.row == 3 && m.origin.col % 2 == 0
    ensures m.target.col == m.origin.col + 1 || m.target.col == m.origin.col - 1
  {
    var o, t := m.origin, m.target;
    assert s.board[o] == StartPiece(o) && s.board[t] == StartPiece(t);
    assert s.board[o] == RP && o.row < 3 && IsBlackTile(o);
    var d :| d in Down && t == Step(o, d);
    OpeningRows(o, t);
  }

  /** A diagonal step down from a playable square of rows 0-2 onto an empty square of the opening
      layout starts on row 2 and ends on row 3. */
  lemma OpeningRows(o: Loc, t: Loc)
    requires 0 <= o.row < 3 && IsBlackTile(o) && StartPiece(t) == EM
    requires t.row == o.row + 1 && (t.col == o.col + 1 || t.col == o.col - 1)
    ensures o.row == 2 && t.row == 3 && o.col % 2 == 0
  {
    assert (t.row + t.col) % 2 == 0 by {
      assert t.row + t.col == o.row + o.col || t.row + t.col == o.row + o.col + 2;
    }
  }

  /** The red pawn steps from row 2 onto row 3 are the seven opening moves. */
  lemma OpeningShape(m: GameMove)
    requires m.playerType == RP && m.jumped == [] && OnBoard(m.origin) && OnBoard(m.target)
    requires m.origin.row == 2 && m.target.row == 3 && m.origin.col % 2 == 0
    requires m.target.col == m.origin.col + 1 || m.target.col == m.origin.col - 1
    ensures m in OpeningMoves
  {
    var c, up := m.origin.col, m.target.col > m.origin.col;
    assert m.origin == Loc(2, c) && m.target == Loc(3, if up then c + 1 else c - 1);
    var k: int;
    if c == 0 {
      k := 0;
    } else if c == 2 {
      k := if up then 1 else 2;
    } else if c == 4 {
      k := if up then 3 else 4;
    } else {
      assert c == 6;
      k := if up then 5 else 6;
    }
    assert OpeningMoves[k] == m;
  }

  /** Each of the seven opening moves is a single move by the rules. */
  lemma OpeningIsStartSingle(s: State, m: GameMove)
    requires StartState(s) && Total(s.board)
    requires m in OpeningMoves
    ensures IsSingleMove(s, m)
  {
    OpeningMoveSquares(m);
    var o, t := m.origin, m.target;
    assert s.board[o] == StartPiece(o) && s.board[t] == StartPiece(t);
    var d := if t.col > o.col then DownRight else DownLeft;
    assert d in Dirs(RP);
    assert t == Step(o, d);
  }

  /** Each opening move steps a red pawn from a playable square of row 2 diagonally down onto a
      playable square of row 3. */
  lemma OpeningMoveSquares(m: GameMove)
    requires m in OpeningMoves
    ensures m.playerType == RP && m.jumped == [] && OnBoard(m.origin) && OnBoard(m.target)
    ensures m.origin.row == 2 && m.target.row == 3 && IsBlackTile(m.origin) && IsBlackTile(m.target)
    ensures m.target.col == m.origin.col + 1 || m.target.col == m.origin.col - 1
  {
  }

  /** The moves offered in the opening position are exactly the seven steps of the row-2 red pawns
      onto row 3. */
  lemma StartMovesExact(s: State, m: GameMove)
    requires StartState(s)
    ensures Total(s.board)
    ensures m in GetPossibleMoves(s) <==> m in OpeningMoves
  {
    StartNoCaptures(s);
    MandatoryCapture(s);
    if IsSingleMove(s, m) {
      StartSingleIsOpening(s, m);
    }
    if m in OpeningMoves {
      OpeningIsStartSingle(s, m);
    }
  }

  lemma InitialMovesExact(m: GameMove)
    ensures Total(Initial().board)
    ensures m in GetPossibleMoves(Initial()) <==> m in OpeningMoves
  {
    InitialLayout();
    StartMovesExact(Initial(), m);
  }

  /** The opening position offers exactly seven moves, each listed once. */
  lemma StartMoveCount(s: State)
    requires StartState(s)
    ensures Total(s.board)
    ensures NoRepeats(GetPossibleMoves(s)) && |GetPossibleMoves(s)| == 7
  {
    StartNoCaptures(s);
    SingleMovesNoRepeats(s);
    forall m
      ensures m in GetPossibleMoves(s) <==> m in OpeningMoves
    {
      StartMovesExact(s, m);
    }
    OpeningMovesNoRepeats();
    SameEntriesSameLength(GetPossibleMoves(s), OpeningMoves);
  }

  lemma OpeningMovesNoRepeats()
    ensures NoRepeats(OpeningMoves) && |OpeningMoves| == 7
  {
  }

  lemma InitialMoveCount()
    ensures Total(Initial().board)
    ensures |GetPossibleMoves(Initial())| == 7
  {
    InitialLayout();
    StartMoveCount(Initial());
  }

  // ---------------------------------------------------------------------------
  // Playing a move
  // ---------------------------------------------------------------------------

  /** The shape of a legal move: the origin holds the mover's piece, the jumped squares are
      distinct squares holding opponent pieces, and the target is on the board and empty, or the
      origin itself when a capture sequence returns there. */
  ghost predicate WellShaped(s: State, m: GameMove)
    requires Total(s.board)
  {
    OnBoard(m.origin) && s.board[m.origin] in MyColors(s.curr) && m.playerType == s.board[m.origin] &&
    OnBoard(m.target) && (s.board[m.target] == EM || m.target == m.origin) &&
    (forall i | 0 <= i < |m.jumped| :: OnBoard(m.jumped[i]) && s.board[m.jumped[i]] in OpponentColors(s.curr)) &&
    (forall i, j | 0 <= i < j < |m.jumped| :: m.jumped[i] != m.jumped[j])
  }

  lemma CaptureShape(s: State, m: GameMove)
    requires Total(s.board) && IsCaptureMove(s, m)
    ensures WellShaped(s, m)
  {
    ColorTables(s.curr);
    ChainProperties(s, ToolTable(m.playerType), m.origin, m.origin, [], m.jumped, m.target);
  }

  lemma SingleShape(s: State, m: GameMove)
    requires Total(s.board) && IsSingleMove(s, m)
    ensures WellShaped(s, m)
  {
    ColorTables(s.curr);
  }

  /** A chain of jumps along a capture table that starts on a playable square, or jumps at least
      once, ends on a playable square: every table entry lands on one. */
  lemma {:induction false} ChainEndsPlayable(s: State, t: Piece, origin: Loc, cur: Loc, already: seq<Loc>, js: seq<Loc>, target: Loc)
    requires Total(s.board) && t != EM
    requires IsChain(s, ToolTable(t), origin, cur, already, js, target)
    requires IsBlackTile(cur) || js != []
    ensures IsBlackTile(target)
    decreases |js|
  {
    if js != [] {
      var q := Jump(js[0], Beyond(cur, js[0]));
      ToolEntriesPlayable(t, cur);
      assert q in ToolCaptureMoves(t, cur);
      ChainEndsPlayable(s, t, origin, q.landing, already + [js[0]], js[1..], target);
    }
  }

  /** A capture move starts on a playable square, since only those have table entries, and ends
      on one. */
  lemma CaptureOnPlayable(s: State, m: GameMove)
    requires Total(s.board) && IsCaptureMove(s, m)
    ensures IsBlackTile(m.origin) && IsBlackTile(m.target)
  {
    ColorTables(s.curr);
    var t := m.playerType;
    if !IsBlackTile(m.origin) {
      TablesOffDark(Red, t, m.origin);
      assert false;
    }
    ChainEndsPlayable(s, t, m.origin, m.origin, [], m.jumped, m.target);
  }

  /** Every move the generator offers has the shape of a legal move, and starts and ends on
      playable squares. */
  lemma OfferedMoveShape(s: State, m: GameMove)
    requires Total(s.board) && m in GetPossibleMoves(s)
    ensures WellShaped(s, m)
    ensures IsBlackTile(m.origin) && IsBlackTile(m.target)
  {
    if CalcCaptureMoves(s) != [] {
      CaptureMovesByRules(s, m);
      CaptureShape(s, m);
      CaptureOnPlayable(s, m);
    } else {
      SingleMovesExact(s, m);
      SingleShape(s, m);
      var d :| d in Dirs(s.board[m.origin]) && m.target == Step(m.origin, d);
      StepGeometry(m.origin, d);
    }
  }

  /** Pieces stand only on playable squares. */
  ghost predicate OnPlayableOnly(b: map<Loc, Piece>) {
    forall l | l in b && b[l] != EM :: IsBlackTile(l)
  }

  /** The initial position has pieces on playable squares only. */
  lemma InitialOnPlayable()
    ensures OnPlayableOnly(Initial().board)
  {
    InitialLayout();
  }

  /** Playing an offered move keeps every piece on a playable square: the only square that gains
      a piece is the move's target. */
  lemma OfferedMoveKeepsPlayable(s: State, m: GameMove)
    requires Total(s.board) && m in GetPossibleMoves(s) && OnPlayableOnly(s.board)
    ensures OnPlayableOnly(PerformMove(s, m).board)
  {
    OfferedMoveShape(s, m);
    var r := PerformMove(s, m).board;
    forall l | l in r && r[l] != EM
      ensures IsBlackTile(l)
    {
      if l != m.target {
        assert r[l] == s.board[l];
      }
    }
  }

  /** Playing a legal move changes no key of the board, so the board stays the 64 grid cells. */
  lemma PerformKeepsCells(s: State, m: GameMove)
    requires Total(s.board) && WellShaped(s, m)
    ensures PerformMove(s, m).board.Keys == s.board.Keys
    ensures Total(PerformMove(s, m).board)
  {
    forall l | l in m.jumped
      ensures l in s.board
    {
      var i :| 0 <= i < |m.jumped| && m.jumped[i] == l;
    }
  }

  /** A pawn is crowned exactly when it lands on its own back row; a king stays a king, and the
      piece keeps its colour. */
  lemma PromotionExact(p: Player, t: Piece, target: Loc)
    requires t in MyColors(p)
    ensures Placed(p, t, target) in MyColors(p)
    ensures Placed(p, t, target) == KingColor(p) <==> t == KingColor(p) || target.row == BackRow(p)
  {
    ColorTables(p);
  }

  /** The no-capture counter restarts exactly on a capture; from a non-negative count it is zero
      after a move exactly when the move captured. The turn always passes. */
  lemma CounterExact(s: State, m: GameMove)
    requires s.turnsSinceLastJump >= 0.0
    ensures PerformMove(s, m).turnsSinceLastJump == 0.0 <==> IsCapture(m)
    ensures PerformMove(s, m).turnsSinceLastJump >= 0.0
    ensures PerformMove(s, m).curr != s.curr
  {
    OpponentInvolution(s.curr);
  }

  /** The squares of board `b` holding a piece of one of the colours `cs`. */
  function Squares(b: map<Loc, Piece>, cs: set<Piece>): set<Loc> {
    set l | l in b && b[l] in cs
  }

  /** Playing a legal move empties the jumped squares and no other square of an opponent piece. */
  lemma OpponentSquaresAfter(s: State, m: GameMove)
    requires Total(s.board) && WellShaped(s, m)
    ensures Squares(PerformMove(s, m).board, OpponentColors(s.curr)) ==
      Squares(s.board, OpponentColors(s.curr)) - (set l | l in m.jumped)
  {
    PerformKeepsCells(s, m);
    PromotionExact(s.curr, m.playerType, m.target);
    ColorTables(s.curr);
    var r, opp := PerformMove(s, m).board, OpponentColors(s.curr);
    forall l
      ensures l in Squares(r, opp) <==> l in Squares(s.board, opp) && l !in m.jumped
    {
      if l in r && l !in m.jumped && l != m.target && l != m.origin {
        assert r[l] == s.board[l];
      }
    }
  }

  /** The mover's piece moves from the origin to the target; no other square of the mover changes. */
  lemma OwnSquaresAfter(s: State, m: GameMove)
    requires Total(s.board) && WellShaped(s, m)
    ensures Squares(PerformMove(s, m).board, MyColors(s.curr)) ==
      Squares(s.board, MyColors(s.curr)) - {m.origin} + {m.target}
  {
    PerformKeepsCells(s, m);
    PromotionExact(s.curr, m.playerType, m.target);
    ColorTables(s.curr);
    assert m.origin !in m.jumped && m.target !in m.jumped by {
      forall i | 0 <= i < |m.jumped|
        ensures m.jumped[i] != m.origin && m.jumped[i] != m.target
      {
      }
    }
    var r, mine := PerformMove(s, m).board, MyColors(s.curr);
    forall l
      ensures l in Squares(r, mine) <==> l in Squares(s.board, mine) - {m.origin} + {m.target}
    {
      if l in r && l !in m.jumped && l != m.target && l != m.origin {
        assert r[l] == s.board[l];
      }
    }
  }

  /** Playing a legal move removes exactly the jumped pieces of the opponent, one per jumped
      square, and the mover keeps all its pieces. */
  lemma PerformCountsPieces(s: State, m: GameMove)
    requires Total(s.board) && WellShaped(s, m)
    ensures |Squares(PerformMove(s, m).board, OpponentColors(s.curr))| == |Squares(s.board, OpponentColors(s.curr))| - |m.jumped|
    ensures |Squares(PerformMove(s, m).board, MyColors(s.curr))| == |Squares(s.board, MyColors(s.curr))|
  {
    OpponentSquaresAfter(s, m);
    OwnSquaresAfter(s, m);
    ColorTables(s.curr);
    var jumped := set l | l in m.jumped;
    assert NoRepeats(m.jumped);
    DistinctCard(m.jumped);
    var opp := Squares(s.board, OpponentColors(s.curr));
    forall l | l in jumped
      ensures l in opp
    {
      var i :| 0 <= i < |m.jumped| && m.jumped[i] == l;
    }
    RemoveSubset(opp, jumped);
    var mine := Squares(s.board, MyColors(s.curr));
    assert m.origin in mine;
    assert m.target == m.origin || m.target !in mine;
    Relocate(mine, m.origin, m.target);
  }

  /** Removing a subset removes its size. */
  lemma RemoveSubset(a: set<Loc>, b: set<Loc>)
    requires b <= a
    ensures |a - b| == |a| - |b|
  {
    assert a == (a - b) + b;
  }

  /** Moving one member of a set to a square outside it, or to where it already is, keeps the size. */
  lemma Relocate(a: set<Loc>, x: Loc, y: Loc)
    requires x in a && (y == x || y !in a)
    ensures |a - {x} + {y}| == |a|
  {
    if y == x {
      assert a - {x} + {y} == a;
    }
  }

  /** The generator's moves remove exactly the jumped opponent pieces and keep the mover's pieces. */
  lemma OfferedMoveCounts(s: State, m: GameMove)
    requires Total(s.board) && m in GetPossibleMoves(s)
    ensures Total(PerformMove(s, m).board)
    ensures |Squares(PerformMove(s, m).board, OpponentColors(s.curr))| == |Squares(s.board, OpponentColors(s.curr))| - |m.jumped|
    ensures |Squares(PerformMove(s, m).board, MyColors(s.curr))| == |Squares(s.board, MyColors(s.curr))|
  {
    OfferedMoveShape(s, m);
    PerformKeepsCells(s, m);
    PerformCountsPieces(s, m);
  }

  // ---------------------------------------------------------------------------
  // State equality
  // ---------------------------------------------------------------------------

  /** State equality ignores the no-capture counter, and playing the same move from equal states
      gives equal states. */
  lemma StateEqCongruent(s1: State, s2: State, m: GameMove)
    requires StateEq(s1, s2)
    ensures StateEq(s1, s1.(turnsSinceLastJump := s2.turnsSinceLastJump))
    ensures StateEq(PerformMove(s1, m), PerformMove(s2, m))
  {
    assert s1.board == s2.board && s1.curr == s2.curr;
    var r1, r2 := PerformMove(s1, m), PerformMove(s2, m);
    assert r1.board.Keys == r2.board.Keys;
    forall l | l in r1.board
      ensures r1.board[l] == r2.board[l]
    {
    }
  }

  /** State equality is an equivalence: reflexive, symmetric and transitive. */
  lemma StateEqEquivalence(s1: State, s2: State, s3: State)
    ensures StateEq(s1, s1)
    ensures StateEq(s1, s2) ==> StateEq(s2, s1)
    ensures StateEq(s1, s2) && StateEq(s2, s3) ==> StateEq(s1, s3)
  {
  }
}
