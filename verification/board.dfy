/** The game state and the rules engine: the initial position, move generation (single moves,
    first capture steps, complete multi-jump sequences with mandatory capture) and applying a move. */
module Board {
  import opened Consts
  import opened Moves
  import opened MoveTables

  /** The keys of a freshly created board: every (row, col) of the 8x8 grid. */
  const Grid: set<Loc> := set i: int, j: int | 0 <= i < BoardRows && 0 <= j < BoardCols :: Loc(i, j)

  lemma GridExact(l: Loc)
    ensures l in Grid <==> OnBoard(l)
  {
    if OnBoard(l) {
      assert l == Loc(l.row, l.col);
    }
  }

  /** A board assigns a piece (or `EM`) to locations; the no-capture counter is a real because it grows
      by 0.5 per ply, so it counts full moves since the last capture. */
  datatype State = State(board: map<Loc, Piece>, curr: Player, turnsSinceLastJump: real)

  /** Every cell of the grid has an entry, so every lookup the engine makes succeeds. */
  ghost predicate Total(b: map<Loc, Piece>) {
    forall l :: OnBoard(l) ==> l in b
  }

  // ---------------------------------------------------------------------------
  // The initial position
  // ---------------------------------------------------------------------------

  function EmptyBoard(): (b: map<Loc, Piece>)
    ensures forall l :: l in b <==> OnBoard(l)
    ensures forall l | l in b :: b[l] == EM
  {
    forall l ensures l in Grid <==> OnBoard(l) {
      GridExact(l);
    }
    map l | l in Grid :: EM
  }

  /** Puts `t` on every playable square of row `i`. */
  function PlaceRow(b: map<Loc, Piece>, i: int, t: Piece): (r: map<Loc, Piece>)
    ensures forall l :: l in r <==> l in b || (OnBoard(l) && l.row == i && IsBlackTile(l))
    ensures forall l | l in r ::
      r[l] == if OnBoard(l) && l.row == i && IsBlackTile(l) then t else b[l]
  {
    forall l ensures l in Grid <==> OnBoard(l) {
      GridExact(l);
    }
    b + map l | l in Grid && l.row == i && IsBlackTile(l) :: t
  }

  /** The empty board with red pawns on the playable squares of rows 0, 1 and 2. */
  function RedRows(): map<Loc, Piece> {
    PlaceRow(PlaceRow(PlaceRow(EmptyBoard(), 0, RP), 1, RP), 2, RP)
  }

  /** Black pawns added on rows 7, 6 and 5; red moves first. */
  function Initial(): (r: State)
    ensures r.curr == Red && r.turnsSinceLastJump == 0.0
    ensures Total(r.board)
  {
    State(PlaceRow(PlaceRow(PlaceRow(RedRows(), BoardRows - 1, BP), BoardRows - 2, BP), BoardRows - 3, BP), Red, 0.0)
  }

  // ---------------------------------------------------------------------------
  // Single moves
  // ---------------------------------------------------------------------------

  /** The table a piece kind moves by: the pawn table of the player, or the king table. */
  function SingleTargets(p: Player, king: bool, l: Loc): seq<Loc> {
    if king then KingSingleMoves(l) else PawnSingleMoves(p, l)
  }

  function CaptureTargets(p: Player, king: bool, l: Loc): seq<Jump> {
    if king then KingCaptureMoves(l) else PawnCaptureMoves(p, l)
  }

  /** The piece that moves by the pawn table (`king` false) or the king table of player `p`. */
  function Mover(p: Player, king: bool): Piece {
    if king then KingColor(p) else PawnColor(p)
  }

  /** Every entry of the single and capture tables stays on the board, lands on a playable square,
      and a jump's landing is the square beyond the jumped one. */
  lemma TableEntriesPlayable(p: Player, king: bool, l: Loc)
    ensures forall j | j in SingleTargets(p, king, l) :: OnBoard(j) && IsBlackTile(j)
    ensures forall q | q in CaptureTargets(p, king, l) ::
      OnBoard(q.over) && OnBoard(q.landing) && IsBlackTile(q.landing) && q.landing == Beyond(l, q.over)
  {
    var t := Mover(p, king);
    if OnBoard(l) && IsBlackTile(l) {
      TablesAt(p, t, l);
      TablesAt(p, PawnColor(p), l);
      ListedMovesPlayable(l, Dirs(t));
      ListedMovesPlayable(l, Dirs(PawnColor(p)));
      ListedMovesPlayable(l, Dirs(KingColor(p)));
    } else {
      TablesOffDark(p, t, l);
    }
  }

  lemma ToolEntriesPlayable(t: Piece, l: Loc)
    requires t != EM
    ensures forall q | q in ToolCaptureMoves(t, l) ::
      OnBoard(q.over) && OnBoard(q.landing) && IsBlackTile(q.landing) && q.landing == Beyond(l, q.over)
  {
    if OnBoard(l) && IsBlackTile(l) {
      TablesAt(Red, t, l);
      ListedMovesPlayable(l, Dirs(t));
    } else {
      TablesOffDark(Red, t, l);
    }
  }

  /** A capture table: every entry at `l` jumps over an on-board square onto the on-board square
      beyond it. */
  ghost predicate JumpTable(moves: Loc -> seq<Jump>) {
    forall l, q | q in moves(l) :: OnBoard(q.over) && OnBoard(q.landing) && q.landing == Beyond(l, q.over)
  }

  /** The capture table of a piece kind, as the value the multi-jump search is handed. */
  function ToolTable(t: Piece): (moves: Loc -> seq<Jump>)
    requires t != EM
    ensures JumpTable(moves)
  {
    forall l ensures forall q | q in ToolCaptureMoves(t, l) ::
      OnBoard(q.over) && OnBoard(q.landing) && q.landing == Beyond(l, q.over)
    {
      ToolEntriesPlayable(t, l);
    }
    l => ToolCaptureMoves(t, l)
  }

  /** The ordinary moves of the piece on `i` to the empty squares among `js`, in order. */
  function TargetsFrom(b: map<Loc, Piece>, i: Loc, js: seq<Loc>): (r: seq<GameMove>)
    requires i in b && forall j | j in js :: j in b
    ensures forall m | m in r :: m.origin == i && m.playerType == b[i] && m.jumped == [] && m.target in js && b[m.target] == EM
  {
    if js == [] then []
    else (if b[js[0]] == EM then [MakeMove(b[i], i, js[0], None)] else []) + TargetsFrom(b, i, js[1..])
  }

  /** The single moves of the pieces of kind `Mover(s.curr, king)` standing on `keys`, in the order
      of `keys`. */
  function SinglesOver(s: State, keys: seq<Loc>, king: bool): (r: seq<GameMove>)
    requires Total(s.board) && forall k | k in keys :: OnBoard(k)
    ensures forall m | m in r ::
      m.origin in keys && s.board[m.origin] == Mover(s.curr, king) && m.playerType == s.board[m.origin] &&
      m.jumped == [] && m.target in SingleTargets(s.curr, king, m.origin) &&
      m.target in s.board && s.board[m.target] == EM
  {
    if keys == [] then []
    else
      var i := keys[0];
      TableEntriesPlayable(s.curr, king, i);
      (if s.board[i] == Mover(s.curr, king) then TargetsFrom(s.board, i, SingleTargets(s.curr, king, i)) else [])
      + SinglesOver(s, keys[1..], king)
  }

  /** All single moves: pawn moves, then king moves, each over the playable squares in table order. */
  function CalcSingleMoves(s: State): (r: seq<GameMove>)
    requires Total(s.board)
    ensures forall m | m in r ::
      OnBoard(m.origin) && IsBlackTile(m.origin) && s.board[m.origin] in MyColors(s.curr) &&
      m.playerType == s.board[m.origin] && !IsCapture(m) && OnBoard(m.target) && s.board[m.target] == EM
  {
    DarkSquaresPlayable();
    var r := SinglesOver(s, DarkSquares, false) + SinglesOver(s, DarkSquares, true);
    forall m | m in r
      ensures OnBoard(m.target)
    {
      TableEntriesPlayable(s.curr, s.board[m.origin] == KingColor(s.curr), m.origin);
    }
    r
  }

  // ---------------------------------------------------------------------------
  // First capture steps
  // ---------------------------------------------------------------------------

  /** A first capture step: the capturing piece's square, the jumped square and the landing square. */
  datatype FirstJump = FirstJump(origin: Loc, jumped: Loc, landing: Loc)

  /** The jumps among `qs` from `i` over an opponent piece onto an empty square. */
  function JumpsFrom(s: State, i: Loc, qs: seq<Jump>): (r: seq<FirstJump>)
    requires forall q | q in qs :: q.over in s.board && q.landing in s.board
    ensures forall c | c in r ::
      c.origin == i && Jump(c.jumped, c.landing) in qs &&
      s.board[c.jumped] in OpponentColors(s.curr) && s.board[c.landing] == EM
  {
    if qs == [] then []
    else
      var q := qs[0];
      (if s.board[q.over] in OpponentColors(s.curr) && s.board[q.landing] == EM
       then [FirstJump(i, q.over, q.landing)] else [])
      + JumpsFrom(s, i, qs[1..])
  }

  function CapturesOver(s: State, keys: seq<Loc>, king: bool): (r: seq<FirstJump>)
    requires Total(s.board) && forall k | k in keys :: OnBoard(k)
    ensures forall c | c in r ::
      c.origin in keys && s.board[c.origin] == Mover(s.curr, king) &&
      Jump(c.jumped, c.landing) in CaptureTargets(s.curr, king, c.origin) &&
      c.jumped in s.board && c.landing in s.board &&
      s.board[c.jumped] in OpponentColors(s.curr) && s.board[c.landing] == EM
  {
    if keys == [] then []
    else
      var i := keys[0];
      TableEntriesPlayable(s.curr, king, i);
      (if s.board[i] == Mover(s.curr, king) then JumpsFrom(s, i, CaptureTargets(s.curr, king, i)) else [])
      + CapturesOver(s, keys[1..], king)
  }

  /** All first capture steps: pawn captures, then king captures. */
  function CalcCaptureMoves(s: State): (r: seq<FirstJump>)
    requires Total(s.board)
    ensures forall c | c in r ::
      OnBoard(c.origin) && IsBlackTile(c.origin) && s.board[c.origin] in MyColors(s.curr) &&
      OnBoard(c.jumped) && s.board[c.jumped] in OpponentColors(s.curr) &&
      OnBoard(c.landing) && s.board[c.landing] == EM && c.landing == Beyond(c.origin, c.jumped)
  {
    DarkSquaresPlayable();
    var r := CapturesOver(s, DarkSquares, false) + CapturesOver(s, DarkSquares, true);
    forall c | c in r
      ensures OnBoard(c.jumped) && OnBoard(c.landing) && c.landing == Beyond(c.origin, c.jumped)
    {
      TableEntriesPlayable(s.curr, s.board[c.origin] == KingColor(s.curr), c.origin);
    }
    r
  }

  // ---------------------------------------------------------------------------
  // Complete capture sequences
  // ---------------------------------------------------------------------------

  /** A capture sequence: its final landing square and the jumped squares in order. */
  datatype CaptureSeq = CaptureSeq(target: Loc, jumped: seq<Loc>)

  /** A jump may continue a sequence started at `origin` when it goes over an opponent piece not yet
      jumped in this sequence onto an empty square; the capturing piece has left `origin`, so landing
      back there is allowed too. */
  predicate LegalNext(s: State, origin: Loc, already: seq<Loc>, q: Jump)
    requires q.over in s.board && q.landing in s.board
  {
    s.board[q.over] in OpponentColors(s.curr) &&
    (s.board[q.landing] == EM || q.landing == origin) &&
    q.over !in already
  }

  function FilterNext(s: State, origin: Loc, already: seq<Loc>, qs: seq<Jump>): (r: seq<Jump>)
    requires forall q | q in qs :: q.over in s.board && q.landing in s.board
    ensures forall q | q in r :: q in qs && LegalNext(s, origin, already, q)
    ensures forall q | q in qs && LegalNext(s, origin, already, q) :: q in r
  {
    if qs == [] then []
    else (if LegalNext(s, origin, already, qs[0]) then [qs[0]] else []) + FilterNext(s, origin, already, qs[1..])
  }

  /** The jumps of the table available from `cur`, in table order. */
  function NextJumps(s: State, moves: Loc -> seq<Jump>, origin: Loc, cur: Loc, already: seq<Loc>): (r: seq<Jump>)
    requires Total(s.board) && JumpTable(moves)
    ensures forall q | q in r ::
      q in moves(cur) && OnBoard(q.over) && OnBoard(q.landing) && LegalNext(s, origin, already, q)
    ensures forall q | q in moves(cur) ::
      q.over in s.board && q.landing in s.board && (q in r <==> LegalNext(s, origin, already, q))
  {
    FilterNext(s, origin, already, moves(cur))
  }

  /** The opponent pieces a sequence may still jump. */
  function Unjumped(s: State, already: seq<Loc>): set<Loc> {
    set l | l in Grid && l in s.board && s.board[l] in OpponentColors(s.curr) && l !in already
  }

  lemma UnjumpedShrinks(s: State, already: seq<Loc>, l: Loc)
    requires OnBoard(l) && l in s.board && s.board[l] in OpponentColors(s.curr) && l !in already
    ensures Unjumped(s, already + [l]) < Unjumped(s, already)
  {
    GridExact(l);
    assert l in Unjumped(s, already);
  }

  /** Prepends the jumped square `j` to every sequence of `seqs`. */
  function Prefix(j: Loc, seqs: seq<CaptureSeq>): (r: seq<CaptureSeq>)
    ensures |r| == |seqs|
    ensures forall i | 0 <= i < |r| :: r[i] == CaptureSeq(seqs[i].target, [j] + seqs[i].jumped)
  {
    if seqs == [] then []
    else [CaptureSeq(seqs[0].target, [j] + seqs[0].jumped)] + Prefix(j, seqs[1..])
  }

  /** Every maximal capture sequence from `cur` along the capture table `moves` of a piece that started at `origin` and
      has already jumped `already`; when no jump is possible, the one empty sequence ending at `cur`. */
  function FindAllCaptureSequence(s: State, moves: Loc -> seq<Jump>, origin: Loc, cur: Loc, already: seq<Loc>): (r: seq<CaptureSeq>)
    requires Total(s.board) && JumpTable(moves)
    ensures r != []
    decreases Unjumped(s, already), 1, 0
  {
    var seqs := ExtendAll(s, moves, origin, already, NextJumps(s, moves, origin, cur, already));
    if |seqs| == 0 then [CaptureSeq(cur, [])] else seqs
  }

  /** The sequences that start with each of the jumps `nexts`, in order. */
  function ExtendAll(s: State, moves: Loc -> seq<Jump>, origin: Loc, already: seq<Loc>, nexts: seq<Jump>): (r: seq<CaptureSeq>)
    requires Total(s.board) && JumpTable(moves)
    requires forall q | q in nexts :: OnBoard(q.over) && OnBoard(q.landing) && LegalNext(s, origin, already, q)
    ensures r == [] <==> nexts == []
    ensures forall x | x in r :: x.jumped != []
    decreases Unjumped(s, already), 0, |nexts|
  {
    if nexts == [] then []
    else
      var q := nexts[0];
      assert q in nexts && LegalNext(s, origin, already, q);
      assert s.board[q.over] in OpponentColors(s.curr) && q.over !in already;
      UnjumpedShrinks(s, already, q.over);
      Prefix(q.over, FindAllCaptureSequence(s, moves, origin, q.landing, already + [q.over]))
      + ExtendAll(s, moves, origin, already, nexts[1..])
  }

  // ---------------------------------------------------------------------------
  // Possible moves
  // ---------------------------------------------------------------------------

  function Origins(caps: seq<FirstJump>): (r: seq<Loc>)
    ensures |r| == |caps|
    ensures forall i | 0 <= i < |r| :: r[i] == caps[i].origin
  {
    if caps == [] then [] else [caps[0].origin] + Origins(caps[1..])
  }

  /** The elements of `xs` without repetitions, each at its first appearance. */
  function Distinct(xs: seq<Loc>): (r: seq<Loc>)
    ensures forall x :: x in r <==> x in xs
    ensures forall i, j | 0 <= i < j < |r| :: r[i] != r[j]
  {
    if xs == [] then []
    else
      var rest := Distinct(xs[1..]);
      if xs[0] in xs[1..] then rest else [xs[0]] + rest
  }

  /** The moves of the piece on `o` along each of the sequences `seqs`. */
  function SeqMoves(t: Piece, o: Loc, seqs: seq<CaptureSeq>): (r: seq<GameMove>)
    ensures |r| == |seqs|
    ensures forall i | 0 <= i < |r| :: r[i] == GameMove(t, o, seqs[i].target, seqs[i].jumped)
  {
    if seqs == [] then []
    else [MakeMove(t, o, seqs[0].target, Some(seqs[0].jumped))] + SeqMoves(t, o, seqs[1..])
  }

  /** The capture moves of the piece on `o`: one per sequence the search finds from `o`. */
  function OriginMoves(s: State, o: Loc): (r: seq<GameMove>)
    requires Total(s.board) && o in s.board && s.board[o] != EM
  {
    SeqMoves(s.board[o], o, FindAllCaptureSequence(s, ToolTable(s.board[o]), o, o, []))
  }

  /** The concatenation of `f(o)` over `os`, in order. */
  function ConcatMap(f: Loc --> seq<GameMove>, os: seq<Loc>): (r: seq<GameMove>)
    requires forall o | o in os :: f.requires(o)
  {
    if os == [] then [] else f(os[0]) + ConcatMap(f, os[1..])
  }

  /** `OriginMoves` of state `s`, as a function of the origin. */
  function OriginMovesOf(s: State): (f: Loc --> seq<GameMove>)
    ensures forall o | Total(s.board) && o in s.board && s.board[o] != EM :: f.requires(o) && f(o) == OriginMoves(s, o)
  {
    o requires Total(s.board) && o in s.board && s.board[o] != EM => OriginMoves(s, o)
  }

  /** A move found from the pieces on `origins` starts on one of them and moves the piece there. */
  lemma {:induction false} CaptureSeqMoveFrom(s: State, origins: seq<Loc>, m: GameMove)
    requires Total(s.board) && forall o | o in origins :: o in s.board && s.board[o] != EM
    requires m in ConcatMap(OriginMovesOf(s), origins)
    ensures m.origin in origins && m.playerType == s.board[m.origin]
  {
    var o := origins[0];
    if m in OriginMoves(s, o) {
      var seqs := FindAllCaptureSequence(s, ToolTable(s.board[o]), o, o, []);
      var i :| 0 <= i < |OriginMoves(s, o)| && OriginMoves(s, o)[i] == m;
      assert m == GameMove(s.board[o], o, seqs[i].target, seqs[i].jumped);
    } else {
      CaptureSeqMoveFrom(s, origins[1..], m);
    }
  }

  /** The capture moves of the pieces on `origins`, visited in the order given; every piece on
      `origins` has at least one. */
  function CaptureSeqMoves(s: State, origins: seq<Loc>): (r: seq<GameMove>)
    requires Total(s.board) && forall o | o in origins :: o in s.board && s.board[o] != EM
    ensures forall m | m in r :: m.origin in origins && m.playerType == s.board[m.origin]
    ensures origins != [] ==> r != []
  {
    var r := ConcatMap(OriginMovesOf(s), origins);
    forall m | m in r
      ensures m.origin in origins && m.playerType == s.board[m.origin]
    {
      CaptureSeqMoveFrom(s, origins, m);
    }
    assert origins != [] ==> |OriginMoves(s, origins[0])| > 0;
    r
  }

  /** The pieces that have a first capture step, each once. `get_possible_moves` collects them in a hash set,
      whose iteration order is unspecified; `CaptureMovesOrderFree` shows the moves do not depend on
      the order chosen here. */
  function CaptureOrigins(s: State): (r: seq<Loc>)
    requires Total(s.board)
    ensures forall o | o in r :: OnBoard(o) && s.board[o] in {PawnColor(s.curr), KingColor(s.curr)}
  {
    ColorTables(s.curr);
    Distinct(Origins(CalcCaptureMoves(s)))
  }

  /** The capture moves offered when some piece can capture: at least one, each by a piece of the
      player to move that has a first capture step. */
  function MandatoryCaptures(s: State): (r: seq<GameMove>)
    requires Total(s.board) && |CalcCaptureMoves(s)| > 0
    ensures r != []
    ensures forall m | m in r ::
      m.origin in Origins(CalcCaptureMoves(s)) && OnBoard(m.origin) &&
      s.board[m.origin] in MyColors(s.curr) && m.playerType == s.board[m.origin]
  {
    ColorTables(s.curr);
    var caps := CalcCaptureMoves(s);
    var os := CaptureOrigins(s);
    assert os != [] by {
      assert caps[0].origin in Origins(caps);
    }
    CaptureSeqMoves(s, os)
  }

  /** Captures are mandatory: when some piece can capture, only complete capture sequences are
      offered; otherwise the single moves. */
  function GetPossibleMoves(s: State): (r: seq<GameMove>)
    requires Total(s.board)
    ensures forall m | m in r ::
      OnBoard(m.origin) && s.board[m.origin] in MyColors(s.curr) && m.playerType == s.board[m.origin]
    ensures |CalcCaptureMoves(s)| > 0 ==> r != [] && forall m | m in r :: m.origin in Origins(CalcCaptureMoves(s))
    ensures |CalcCaptureMoves(s)| == 0 ==> forall m | m in r :: !IsCapture(m) && OnBoard(m.target) && s.board[m.target] == EM
  {
    if |CalcCaptureMoves(s)| > 0 then MandatoryCaptures(s) else CalcSingleMoves(s)
  }

  // ---------------------------------------------------------------------------
  // Applying a move
  // ---------------------------------------------------------------------------

  /** The piece that arrives on `target`: a pawn of the player to move reaching its back row is
      crowned. */
  function Placed(p: Player, t: Piece, target: Loc): (r: Piece)
    ensures t != PawnColor(p) ==> r == t
    ensures t in MyColors(p) ==> r in MyColors(p)
    ensures t in MyColors(p) ==> (r == KingColor(p) <==> t == KingColor(p) || target.row == BackRow(p))
  {
    ColorTables(p);
    if t == PawnColor(p) && target.row == BackRow(p) then KingColor(p) else t
  }

  /** Empties every square of `ls`. */
  function ClearAll(b: map<Loc, Piece>, ls: seq<Loc>): (r: map<Loc, Piece>)
    ensures forall l :: l in r <==> l in b || l in ls
    ensures forall l | l in r :: r[l] == if l in ls then EM else b[l]
    decreases |ls|
  {
    if ls == [] then b else ClearAll(b[ls[0] := EM], ls[1..])
  }

  /** Plays `m`: the origin is vacated, the (possibly crowned) piece lands on the target, the jumped
      pieces are removed, the no-capture counter restarts or grows by half a turn, and the turn
      passes. No square other than the origin, the target and the jumped ones changes. */
  function PerformMove(s: State, m: GameMove): (r: State)
    ensures forall l :: l in r.board <==> l in s.board || l == m.origin || l == m.target || l in m.jumped
    ensures forall l | l in r.board ::
      r.board[l] ==
        if l in m.jumped then EM
        else if l == m.target then Placed(s.curr, m.playerType, m.target)
        else if l == m.origin then EM
        else s.board[l]
    ensures r.curr == Opponent(s.curr)
    ensures IsCapture(m) ==> r.turnsSinceLastJump == 0.0
    ensures !IsCapture(m) ==> r.turnsSinceLastJump == s.turnsSinceLastJump + 0.5
  {
    var vacated := s.board[m.origin := EM];
    var landed := vacated[m.target := Placed(s.curr, m.playerType, m.target)];
    var board := ClearAll(landed, m.jumped);
    var turns := if |m.jumped| > 0 then 0.0 else s.turnsSinceLastJump + 0.5;
    State(board, Opponent(s.curr), turns)
  }

  /** Two states are equal when their boards and players are; the no-capture counter is ignored. */
  predicate StateEq(s1: State, s2: State): (r: bool)
    ensures r <==> State(s1.board, s1.curr, 0.0) == State(s2.board, s2.curr, 0.0)
  {
    s1.board == s2.board && s1.curr == s2.curr
  }
}
