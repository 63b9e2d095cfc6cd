/** The geometry of the move tables: what each table contains, stated per diagonal direction. */
module MoveTables {
  import opened Consts
  import opened Moves

  /** The square one diagonal step from `l` in direction `d`. */
  function Step(l: Loc, d: Direction): Loc {
    match d
    case DownRight => Loc(l.row + 1, l.col + 1)
    case DownLeft => Loc(l.row + 1, l.col - 1)
    case UpRight => Loc(l.row - 1, l.col + 1)
    case UpLeft => Loc(l.row - 1, l.col - 1)
  }

  /** The landing square when jumping from `from` over the adjacent square `over`. */
  function Beyond(from: Loc, over: Loc): Loc {
    Loc(2 * over.row - from.row, 2 * over.col - from.col)
  }

  /** The jump over the neighbour in direction `d`. */
  function JumpTo(l: Loc, d: Direction): Jump {
    Jump(Step(l, d), Step(Step(l, d), d))
  }

  const Up: seq<Direction> := [UpRight, UpLeft]
  const Down: seq<Direction> := [DownRight, DownLeft]

  /** The directions a piece moves in, in table order: a red pawn down, a black pawn up, a king
      up and then down. */
  function Dirs(t: Piece): seq<Direction>
    requires t != EM
  {
    match t
    case RP => Down
    case BP => Up
    case RK => Up + Down
    case BK => Up + Down
  }

  /** The on-board single steps from `l`, in the order of `ds`. */
  function Steps(l: Loc, ds: seq<Direction>): seq<Loc> {
    if ds == [] then []
    else (if OnBoard(Step(l, ds[0])) then [Step(l, ds[0])] else []) + Steps(l, ds[1..])
  }

  /** The jumps from `l` whose landing square is on the board, in the order of `ds`. */
  function Jumps(l: Loc, ds: seq<Direction>): seq<Jump> {
    if ds == [] then []
    else (if OnBoard(JumpTo(l, ds[0]).landing) then [JumpTo(l, ds[0])] else []) + Jumps(l, ds[1..])
  }

  /** A diagonal step keeps the square colour, and jumping over a neighbour lands two steps away. */
  lemma StepGeometry(l: Loc, d: Direction)
    ensures IsBlackTile(l) ==> IsBlackTile(Step(l, d)) && IsBlackTile(Step(Step(l, d), d))
    ensures Beyond(l, Step(l, d)) == Step(Step(l, d), d)
    ensures OnBoard(l) && OnBoard(Step(Step(l, d), d)) ==> OnBoard(Step(l, d))
  {
  }

  /** A directional single-move table has an entry for exactly the playable squares whose neighbour
      in that direction is on the board, and the entry is that neighbour. */
  lemma SingleMovesAt(d: Direction, l: Loc)
    ensures SingleMoves(d, l) == if OnBoard(l) && IsBlackTile(l) && OnBoard(Step(l, d)) then Some(Step(l, d)) else None
  {
  }

  /** A directional capture table has an entry for exactly the playable squares two steps from the
      edge in that direction, and the entry is the jump over the neighbour. */
  lemma CaptureMovesAt(d: Direction, l: Loc)
    ensures CaptureMoves(d, l) ==
      if OnBoard(l) && IsBlackTile(l) && OnBoard(JumpTo(l, d).landing) then Some(JumpTo(l, d)) else None
  {
    SingleMovesAt(d, l);
    SingleMovesAt(d, Step(l, d));
    StepGeometry(l, d);
  }

  lemma PresentPair<T>(a: Option<T>, b: Option<T>)
    ensures Present([a, b]) == (if a.Some? then [a.value] else []) + (if b.Some? then [b.value] else [])
  {
    assert [a, b][1..] == [b];
    assert [b][1..] == [];
    assert Present([b]) == (if b.Some? then [b.value] else []) + Present([]);
  }

  lemma StepsPair(l: Loc, d1: Direction, d2: Direction)
    ensures Steps(l, [d1, d2]) ==
      (if OnBoard(Step(l, d1)) then [Step(l, d1)] else []) + (if OnBoard(Step(l, d2)) then [Step(l, d2)] else [])
  {
    assert [d1, d2][1..] == [d2];
    assert [d2][1..] == [];
    assert Steps(l, [d2]) == (if OnBoard(Step(l, d2)) then [Step(l, d2)] else []) + Steps(l, []);
  }

  lemma JumpsPair(l: Loc, d1: Direction, d2: Direction)
    ensures Jumps(l, [d1, d2]) ==
      (if OnBoard(JumpTo(l, d1).landing) then [JumpTo(l, d1)] else []) +
      (if OnBoard(JumpTo(l, d2).landing) then [JumpTo(l, d2)] else [])
  {
    assert [d1, d2][1..] == [d2];
    assert [d2][1..] == [];
    assert Jumps(l, [d2]) == (if OnBoard(JumpTo(l, d2).landing) then [JumpTo(l, d2)] else []) + Jumps(l, []);
  }

  lemma {:induction false} StepsSplit(l: Loc, a: seq<Direction>, b: seq<Direction>)
    ensures Steps(l, a + b) == Steps(l, a) + Steps(l, b)
  {
    if a == [] {
      assert a + b == b;
    } else {
      assert (a + b)[0] == a[0];
      assert (a + b)[1..] == a[1..] + b;
      StepsSplit(l, a[1..], b);
    }
  }

  lemma {:induction false} JumpsSplit(l: Loc, a: seq<Direction>, b: seq<Direction>)
    ensures Jumps(l, a + b) == Jumps(l, a) + Jumps(l, b)
  {
    if a == [] {
      assert a + b == b;
    } else {
      assert (a + b)[0] == a[0];
      assert (a + b)[1..] == a[1..] + b;
      JumpsSplit(l, a[1..], b);
    }
  }

  /** Filtering the lookups of two directional single-move tables gives the steps in those two
      directions. */
  lemma SinglePairAt(l: Loc, d1: Direction, d2: Direction)
    requires OnBoard(l) && IsBlackTile(l)
    ensures Present([SingleMoves(d1, l), SingleMoves(d2, l)]) == Steps(l, [d1, d2])
  {
    SingleMovesAt(d1, l);
    SingleMovesAt(d2, l);
    PresentPair(SingleMoves(d1, l), SingleMoves(d2, l));
    StepsPair(l, d1, d2);
  }

  /** Filtering the lookups of two directional capture tables gives the jumps in those directions. */
  lemma CapturePairAt(l: Loc, d1: Direction, d2: Direction)
    requires OnBoard(l) && IsBlackTile(l)
    ensures Present([CaptureMoves(d1, l), CaptureMoves(d2, l)]) == Jumps(l, [d1, d2])
  {
    CaptureMovesAt(d1, l);
    CaptureMovesAt(d2, l);
    PresentPair(CaptureMoves(d1, l), CaptureMoves(d2, l));
    JumpsPair(l, d1, d2);
  }

  /** The combined single-move tables list, for every playable square, its on-board diagonal
      neighbours: up-right then up-left for "up", down-right then down-left for "down", and the
      up list followed by the down list for a king. */
  lemma SingleListsAt(l: Loc)
    requires OnBoard(l) && IsBlackTile(l)
    ensures UpSingleMoves(l) == Steps(l, Up)
    ensures DownSingleMoves(l) == Steps(l, Down)
    ensures KingSingleMoves(l) == Steps(l, Up + Down)
  {
    SinglePairAt(l, UpRight, UpLeft);
    SinglePairAt(l, DownRight, DownLeft);
    StepsSplit(l, Up, Down);
  }

  /** The same for the combined capture tables. */
  lemma CaptureListsAt(l: Loc)
    requires OnBoard(l) && IsBlackTile(l)
    ensures UpCaptureMoves(l) == Jumps(l, Up)
    ensures DownCaptureMoves(l) == Jumps(l, Down)
    ensures KingCaptureMoves(l) == Jumps(l, Up + Down)
  {
    CapturePairAt(l, UpRight, UpLeft);
    CapturePairAt(l, DownRight, DownLeft);
    JumpsSplit(l, Up, Down);
  }

  /** The tables the move generator consults hold, for every playable square, the moves in the
      moving piece's directions: the pawn tables by player, the king single-move table for a
      king, and the per-piece capture table. */
  lemma TablesAt(p: Player, t: Piece, l: Loc)
    requires OnBoard(l) && IsBlackTile(l) && t != EM
    ensures PawnSingleMoves(p, l) == Steps(l, Dirs(PawnColor(p)))
    ensures PawnCaptureMoves(p, l) == Jumps(l, Dirs(PawnColor(p)))
    ensures KingSingleMoves(l) == Steps(l, Dirs(KingColor(p)))
    ensures ToolCaptureMoves(t, l) == Jumps(l, Dirs(t))
  {
    SingleListsAt(l);
    CaptureListsAt(l);
  }

  /** A square that is not playable has no entry in any table. */
  lemma TablesOffDark(p: Player, t: Piece, l: Loc)
    requires !(OnBoard(l) && IsBlackTile(l)) && t != EM
    ensures PawnSingleMoves(p, l) == [] && KingSingleMoves(l) == []
    ensures PawnCaptureMoves(p, l) == [] && ToolCaptureMoves(t, l) == []
  {
    forall d: Direction
      ensures SingleMoves(d, l) == None && CaptureMoves(d, l) == None
    {
      SingleMovesAt(d, l);
      CaptureMovesAt(d, l);
    }
    PresentPair(SingleMoves(UpRight, l), SingleMoves(UpLeft, l));
    PresentPair(SingleMoves(DownRight, l), SingleMoves(DownLeft, l));
    PresentPair(CaptureMoves(UpRight, l), CaptureMoves(UpLeft, l));
    PresentPair(CaptureMoves(DownRight, l), CaptureMoves(DownLeft, l));
  }

  /** A step list holds exactly the on-board neighbours in the listed directions. */
  lemma {:induction false} StepsMembers(l: Loc, ds: seq<Direction>)
    ensures |Steps(l, ds)| <= |ds|
    ensures forall x :: x in Steps(l, ds) <==> OnBoard(x) && exists d | d in ds :: x == Step(l, d)
  {
    if ds != [] {
      StepsMembers(l, ds[1..]);
      assert ds == [ds[0]] + ds[1..];
    }
  }

  /** A jump list holds exactly the jumps in the listed directions that land on the board. */
  lemma {:induction false} JumpsMembers(l: Loc, ds: seq<Direction>)
    ensures |Jumps(l, ds)| <= |ds|
    ensures forall q :: q in Jumps(l, ds) <==> OnBoard(q.landing) && exists d | d in ds :: q == JumpTo(l, d)
  {
    if ds != [] {
      JumpsMembers(l, ds[1..]);
      assert ds == [ds[0]] + ds[1..];
    }
  }

  /** Different directions lead to different squares. */
  lemma StepInjective(l: Loc, d1: Direction, d2: Direction)
    ensures Step(l, d1) == Step(l, d2) <==> d1 == d2
  {
  }

  /** Steps in distinct directions reach distinct squares. */
  lemma {:induction false} StepsNoRepeats(l: Loc, ds: seq<Direction>)
    requires NoRepeats(ds)
    ensures NoRepeats(Steps(l, ds))
  {
    if ds != [] {
      var rest := ds[1..];
      assert NoRepeats(rest) by {
        forall i, j | 0 <= i < j < |rest| ensures rest[i] != rest[j] {
          assert rest[i] == ds[i + 1] && rest[j] == ds[j + 1];
        }
      }
      StepsNoRepeats(l, rest);
      StepsMembers(l, rest);
      forall k | 0 <= k < |rest|
        ensures Step(l, rest[k]) != Step(l, ds[0])
      {
        assert rest[k] == ds[k + 1];
        StepInjective(l, rest[k], ds[0]);
      }
      assert Step(l, ds[0]) !in Steps(l, rest);
      NoRepeatsAppend(if OnBoard(Step(l, ds[0])) then [Step(l, ds[0])] else [], Steps(l, rest));
    }
  }

  /** Pawns move forward only: a red pawn's steps and jumps go down the board (rows increase), a
      black pawn's up. */
  lemma PawnsMoveForward(p: Player, d: Direction, l: Loc)
    requires d in Dirs(PawnColor(p))
    ensures Step(l, d).row == l.row + (if p == Red then 1 else -1)
    ensures JumpTo(l, d).landing.row == l.row + (if p == Red then 2 else -2)
  {
  }

  /** A king's directions are all four diagonals. */
  lemma KingDirections(p: Player, d: Direction)
    ensures d in Dirs(KingColor(p))
  {
  }

  /** From a playable square, every listed step and every listed jump lands on a playable square,
      and the jumped square is the one between the origin and the landing. */
  lemma ListedMovesPlayable(l: Loc, ds: seq<Direction>)
    requires OnBoard(l) && IsBlackTile(l)
    ensures forall x | x in Steps(l, ds) :: OnBoard(x) && IsBlackTile(x)
    ensures forall q | q in Jumps(l, ds) ::
      OnBoard(q.landing) && IsBlackTile(q.landing) && OnBoard(q.over) && q.landing == Beyond(l, q.over)
  {
    StepsMembers(l, ds);
    JumpsMembers(l, ds);
    forall d: Direction
      ensures IsBlackTile(Step(l, d))
      ensures OnBoard(JumpTo(l, d).landing) ==>
        IsBlackTile(JumpTo(l, d).landing) && OnBoard(JumpTo(l, d).over) && JumpTo(l, d).landing == Beyond(l, JumpTo(l, d).over)
    {
      StepGeometry(l, d);
    }
  }
}
