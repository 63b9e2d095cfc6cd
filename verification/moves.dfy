/** Moves and the precomputed move tables: for every playable square, where a piece can step
    and what it can jump in each diagonal direction.

    Each of the program's move dicts is modelled as a function of the square: it returns the
    dict's value at a key, and `None` (or the empty list) where the dict has no key. Every
    table's keys are the playable squares, and the move generator visits them in the order of
    `DarkSquares`, the dicts' insertion order. */
module Moves {
  import opened Consts

  /** One ply: the kind of the moving piece, its origin, its final target (the last landing square
      of a multi-jump) and the squares of the opponent pieces it jumped, in order. */
  datatype GameMove = GameMove(playerType: Piece, origin: Loc, target: Loc, jumped: seq<Loc>)

  /** A move that jumps at least one piece. */
  predicate IsCapture(m: GameMove) {
    |m.jumped| > 0
  }

  /** The move constructor; a move built without jumped locations is an ordinary move. */
  function MakeMove(playerType: Piece, origin: Loc, target: Loc, jumpedLocs: Option<seq<Loc>>): (m: GameMove)
    ensures m.playerType == playerType && m.origin == origin && m.target == target
    ensures jumpedLocs.None? ==> !IsCapture(m)
    ensures jumpedLocs.Some? ==> m.jumped == jumpedLocs.value
  {
    GameMove(playerType, origin, target, if jumpedLocs.Some? then jumpedLocs.value else [])
  }

  /** One jump of a capture: the square of the jumped piece and the square the jumper lands on. */
  datatype Jump = Jump(over: Loc, landing: Loc)

  /** The four diagonal directions. "Down" is row + 1, "up" is row - 1, "right" is col + 1 and
      "left" is col - 1. */
  datatype Direction = DownRight | DownLeft | UpRight | UpLeft

  /** The four directional single-move dicts, each built over the row and column ranges that keep
      the neighbour on the board, restricted to playable squares. */
  function SingleMoves(d: Direction, l: Loc): Option<Loc> {
    match d
    case DownRight =>
      if 0 <= l.row < BoardRows - 1 && 0 <= l.col < BoardCols - 1 && IsBlackTile(l)
      then Some(Loc(l.row + 1, l.col + 1)) else None
    case DownLeft =>
      if 0 <= l.row < BoardRows - 1 && 1 <= l.col < BoardCols && IsBlackTile(l)
      then Some(Loc(l.row + 1, l.col - 1)) else None
    case UpRight =>
      if 1 <= l.row < BoardRows && 0 <= l.col < BoardCols - 1 && IsBlackTile(l)
      then Some(Loc(l.row - 1, l.col + 1)) else None
    case UpLeft =>
      if 1 <= l.row < BoardRows && 1 <= l.col < BoardCols && IsBlackTile(l)
      then Some(Loc(l.row - 1, l.col - 1)) else None
  }

  /** A capture is two single moves in the same direction: `i` has an entry when its single-move
      target `j` is itself a key, and the entry is `j` with `j`'s own target. */
  function CaptureMoves(d: Direction, i: Loc): Option<Jump> {
    match SingleMoves(d, i)
    case None => None
    case Some(j) =>
      match SingleMoves(d, j)
      case None => None
      case Some(k) => Some(Jump(j, k))
  }

  /** `list(filter(None, xs))`: the present values, in order. */
  function Present<T>(xs: seq<Option<T>>): seq<T> {
    if xs == [] then []
    else (if xs[0].Some? then [xs[0].value] else []) + Present(xs[1..])
  }

  function UpSingleMoves(l: Loc): seq<Loc> {
    Present([SingleMoves(UpRight, l), SingleMoves(UpLeft, l)])
  }

  function DownSingleMoves(l: Loc): seq<Loc> {
    Present([SingleMoves(DownRight, l), SingleMoves(DownLeft, l)])
  }

  function KingSingleMoves(l: Loc): seq<Loc> {
    UpSingleMoves(l) + DownSingleMoves(l)
  }

  function UpCaptureMoves(l: Loc): seq<Jump> {
    Present([CaptureMoves(UpRight, l), CaptureMoves(UpLeft, l)])
  }

  function DownCaptureMoves(l: Loc): seq<Jump> {
    Present([CaptureMoves(DownRight, l), CaptureMoves(DownLeft, l)])
  }

  function KingCaptureMoves(l: Loc): seq<Jump> {
    UpCaptureMoves(l) + DownCaptureMoves(l)
  }

  /** Red pawns move down the board, black pawns up. */
  function PawnSingleMoves(p: Player, l: Loc): seq<Loc> {
    match p
    case Red => DownSingleMoves(l)
    case Black => UpSingleMoves(l)
  }

  function PawnCaptureMoves(p: Player, l: Loc): seq<Jump> {
    match p
    case Red => DownCaptureMoves(l)
    case Black => UpCaptureMoves(l)
  }

  /** The capture table of a piece kind (the program's dict has no entry for an empty cell). */
  function ToolCaptureMoves(t: Piece, l: Loc): seq<Jump>
    requires t != EM
  {
    match t
    case RP => DownCaptureMoves(l)
    case BP => UpCaptureMoves(l)
    case RK => KingCaptureMoves(l)
    case BK => KingCaptureMoves(l)
  }
}
