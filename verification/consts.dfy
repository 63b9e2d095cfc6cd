/** Pieces, players and the shape of the 8x8 checkers board. */
module Consts {

  /** The content of one board cell: empty, or a red/black pawn or king. */
  datatype Piece = EM | RP | RK | BP | BK

  datatype Player = Red | Black

  /** A board location. Rows grow "down", from red's starting side towards black's. */
  datatype Loc = Loc(row: int, col: int)

  /** The conventional Some/None wrapper, used where the program looks up a dict with a `None` default. */
  datatype Option<T> = None | Some(value: T)

  const BoardRows: int := 8
  const BoardCols: int := 8

  /** The no-capture counter value at which the game is a draw: the counter grows by 0.5 per ply,
      so this is 50 full moves, 100 plies, without a capture. */
  const MaxTurnsNoJump: real := 50.0

  predicate OnBoard(l: Loc) {
    0 <= l.row < BoardRows && 0 <= l.col < BoardCols
  }

  /** The playable squares. `%` by 2 agrees with Python's floor modulo on every integer. */
  predicate IsBlackTile(l: Loc) {
    (l.row + l.col) % 2 == 0
  }

  function PawnColor(p: Player): Piece {
    match p
    case Red => RP
    case Black => BP
  }

  function KingColor(p: Player): Piece {
    match p
    case Red => RK
    case Black => BK
  }

  function MyColors(p: Player): set<Piece> {
    match p
    case Red => {RP, RK}
    case Black => {BP, BK}
  }

  function OpponentColors(p: Player): set<Piece> {
    match p
    case Red => {BP, BK}
    case Black => {RP, RK}
  }

  /** The row on which a pawn of player `p` is promoted. */
  function BackRow(p: Player): int {
    match p
    case Red => BoardRows - 1
    case Black => 0
  }

  function Opponent(p: Player): Player {
    match p
    case Red => Black
    case Black => Red
  }

  /** The opponent relation swaps the two players. */
  lemma OpponentInvolution(p: Player)
    ensures Opponent(p) != p
    ensures Opponent(Opponent(p)) == p
  {
  }

  /** There are only two players: any player is `p` or its opponent. */
  lemma TwoPlayers(p: Player, q: Player)
    ensures q == p || q == Opponent(p)
  {
  }

  /** Each side's colours are its pawn and king; they are exactly the opponent's opponent colours,
      share nothing with the opponent's, and never include an empty cell. */
  lemma ColorTables(p: Player)
    ensures MyColors(p) == {PawnColor(p), KingColor(p)}
    ensures MyColors(p) == OpponentColors(Opponent(p))
    ensures OpponentColors(p) == {PawnColor(Opponent(p)), KingColor(Opponent(p))}
    ensures MyColors(p) !! OpponentColors(p)
    ensures EM !in MyColors(p) && EM !in OpponentColors(p)
    ensures PawnColor(p) != KingColor(p)
  {
  }

  /** Red promotes on the last row and black on the first: the two back rows are the opposite edges. */
  lemma BackRows(p: Player)
    ensures BackRow(p) == (if p == Red then BoardRows - 1 else 0)
    ensures BackRow(p) != BackRow(Opponent(p))
    ensures 0 <= BackRow(p) < BoardRows
  {
  }

  // ---------------------------------------------------------------------------
  // Enumerations of squares, in the order in which `moves.py` builds its dicts.
  // ---------------------------------------------------------------------------

  /** The playable squares. */
  const DarkSet: set<Loc> :=
    set i: int, j: int | 0 <= i < BoardRows && 0 <= j < BoardCols && IsBlackTile(Loc(i, j)) :: Loc(i, j)

  lemma DarkSetExact(l: Loc)
    ensures l in DarkSet <==> OnBoard(l) && IsBlackTile(l)
  {
    if OnBoard(l) && IsBlackTile(l) {
      assert l == Loc(l.row, l.col);
    }
  }

  /** All playable squares in row-major order (rows 0..7, and within a row every second column
      starting from the row's parity): the key order of every move table. */
  const DarkSquares: seq<Loc> := DarkSquaresList()

  /** The `i`-th playable square: row `i / 4`, and the `i % 4`-th column of that row's parity. */
  function DarkSquaresList(): (s: seq<Loc>)
    ensures |s| == 32
  {
    seq(32, i requires 0 <= i < 32 => Loc(i / 4, 2 * (i % 4) + (i / 4) % 2))
  }

  /** Row-major index of a location, used to state the ordering of the enumerations. */
  function Index(l: Loc): int {
    8 * l.row + l.col
  }

  /** The enumeration lists exactly the playable squares. */
  lemma DarkSquaresExact()
    ensures forall l :: l in DarkSquares <==> l in DarkSet
  {
    forall i | 0 <= i < |DarkSquares|
      ensures DarkSquares[i] in DarkSet
    {
      DarkSquareAt(i);
    }
    forall l | l in DarkSet
      ensures l in DarkSquares
    {
      DarkSetExact(l);
      DarkSquarePosition(l);
    }
  }

  /** The enumeration lists exactly the squares on the board whose row + column is even. */
  lemma DarkSquaresPlayable()
    ensures forall l :: l in DarkSquares <==> OnBoard(l) && IsBlackTile(l)
  {
    DarkSquaresExact();
    forall l
      ensures l in DarkSquares <==> OnBoard(l) && IsBlackTile(l)
    {
      DarkSetExact(l);
    }
  }

  lemma DarkSquareAt(i: int)
    requires 0 <= i < 32
    ensures DarkSquares[i] in DarkSet
  {
    var r, k := i / 4, i % 4;
    assert DarkSquares[i] == Loc(r, 2 * k + r % 2);
    assert r == 2 * (r / 2) + r % 2;
    DarkSetExact(DarkSquares[i]);
  }

  lemma DarkSquarePosition(l: Loc)
    requires OnBoard(l) && IsBlackTile(l)
    ensures DarkSquares[4 * l.row + l.col / 2] == l
  {
    var h := l.col / 2;
    assert l.col == 2 * h + l.col % 2;
    assert l.row == 2 * (l.row / 2) + l.row % 2;
    assert l.col % 2 == l.row % 2;
    var i := 4 * l.row + h;
    assert i / 4 == l.row && i % 4 == h;
  }

  /** The enumeration visits the playable squares in strictly increasing row-major order, so it
      lists each of them once. */
  lemma DarkSquaresOrdered()
    ensures forall i, j :: 0 <= i < j < |DarkSquares| ==> Index(DarkSquares[i]) < Index(DarkSquares[j])
  {
    forall i, j | 0 <= i < j < |DarkSquares|
      ensures Index(DarkSquares[i]) < Index(DarkSquares[j])
    {
      assert Index(DarkSquares[i]) == 8 * (i / 4) + 2 * (i % 4) + (i / 4) % 2;
      assert Index(DarkSquares[j]) == 8 * (j / 4) + 2 * (j % 4) + (j / 4) % 2;
    }
  }

  /** Every grid cell, column by column (each column top to bottom): the order in which the
      source creates its board dict. */
  const AllCells: seq<Loc> := AllCellsList()

  function AllCellsList(): (s: seq<Loc>)
    ensures |s| == 64
  {
    seq(64, i requires 0 <= i < 64 => Loc(i % 8, i / 8))
  }

  /** The board's cells are exactly the grid, each listed once. */
  lemma AllCellsExact()
    ensures forall l :: l in AllCells <==> OnBoard(l)
    ensures forall i, j :: 0 <= i < j < |AllCells| ==> AllCells[i] != AllCells[j]
  {
    forall l
      ensures l in AllCells <==> OnBoard(l)
    {
      if OnBoard(l) {
        assert AllCells[8 * l.col + l.row] == l;
      }
    }
  }

  // ---------------------------------------------------------------------------
  // Sequences without repeated entries
  // ---------------------------------------------------------------------------

  predicate NoRepeats<T(==)>(xs: seq<T>) {
    forall i, j | 0 <= i < j < |xs| :: xs[i] != xs[j]
  }

  /** A list without repeats has as many distinct entries as it has entries. */
  lemma {:induction false} DistinctCard<T>(xs: seq<T>)
    requires NoRepeats(xs)
    ensures |set x | x in xs| == |xs|
  {
    if xs != [] {
      DistinctCard(xs[1..]);
      assert (set x | x in xs) == {xs[0]} + (set x | x in xs[1..]);
      assert xs[0] !in xs[1..];
    }
  }

  /** Two lists without repeats that hold the same entries have the same length. */
  lemma SameEntriesSameLength<T>(a: seq<T>, b: seq<T>)
    requires NoRepeats(a) && NoRepeats(b)
    requires forall x :: x in a <==> x in b
    ensures |a| == |b|
  {
    DistinctCard(a);
    DistinctCard(b);
    assert (set x | x in a) == (set x | x in b);
  }

  /** Joining two lists without repeats and without common entries repeats nothing. */
  lemma NoRepeatsAppend<T>(a: seq<T>, b: seq<T>)
    requires NoRepeats(a) && NoRepeats(b)
    requires forall x | x in a :: x !in b
    ensures NoRepeats(a + b)
  {
    forall i, j | 0 <= i < j < |a + b|
      ensures (a + b)[i] != (a + b)[j]
    {
      if i < |a| && j >= |a| {
        assert (a + b)[i] in a && (a + b)[j] == b[j - |a|];
      }
    }
  }
}
