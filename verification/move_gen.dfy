/** What the move generator lists, stated against the rules of the game rather than the tables:
    single moves, first capture steps, and the mandatory-capture choice between them. */
module MoveGen {
  import opened Consts
  import opened Moves
  import opened MoveTables
  import opened Board
  import opened CaptureChains

  /** An ordinary move by the rules: a piece of the player to move steps diagonally, in one of the
      directions its kind may move in, from a playable square to an empty square on the board. */
  ghost predicate IsSingleMove(s: State, m: GameMove)
    requires Total(s.board)
  {
    OnBoard(m.origin) && IsBlackTile(m.origin) &&
    s.board[m.origin] in {PawnColor(s.curr), KingColor(s.curr)} &&
    m.playerType == s.board[m.origin] && m.jumped == [] &&
    OnBoard(m.target) && s.board[m.target] == EM &&
    exists d | d in Dirs(s.board[m.origin]) :: m.target == Step(m.origin, d)
  }

  /** A first capture step by the rules: a piece of the player to move jumps, in one of its
      directions, over an adjacent opponent piece onto the empty square beyond it. */
  ghost predicate IsFirstJump(s: State, c: FirstJump)
    requires Total(s.board)
  {
    OnBoard(c.origin) && IsBlackTile(c.origin) &&
    s.board[c.origin] in {PawnColor(s.curr), KingColor(s.curr)} &&
    OnBoard(c.jumped) && OnBoard(c.landing) &&
    s.board[c.jumped] in OpponentColors(s.curr) && s.board[c.landing] == EM &&
    exists d | d in Dirs(s.board[c.origin]) :: Jump(c.jumped, c.landing) == JumpTo(c.origin, d)
  }

  // ---------------------------------------------------------------------------
  // Single moves
  // ---------------------------------------------------------------------------

  lemma {:induction false} TargetsFromMember(b: map<Loc, Piece>, i: Loc, js: seq<Loc>, m: GameMove)
    requires i in b && forall j | j in js :: j in b
    ensures m in TargetsFrom(b, i, js) <==>
      m.origin == i && m.playerType == b[i] && m.jumped == [] && m.target in js && b[m.target] == EM
  {
    if js != [] {
      TargetsFromMember(b, i, js[1..], m);
      assert js == [js[0]] + js[1..];
    }
  }

  lemma {:induction false} SinglesOverMember(s: State, keys: seq<Loc>, king: bool, m: GameMove)
    requires Total(s.board) && forall k | k in keys :: OnBoard(k)
    ensures m in SinglesOver(s, keys, king) <==>
      m.origin in keys && s.board[m.origin] == Mover(s.curr, king) && m.playerType == s.board[m.origin] &&
      m.jumped == [] && m.target in SingleTargets(s.curr, king, m.origin) &&
      OnBoard(m.target) && s.board[m.target] == EM
  {
    if keys != [] {
      var i := keys[0];
      SinglesOverMember(s, keys[1..], king, m);
      TableEntriesPlayable(s.curr, king, i);
      TableEntriesPlayable(s.curr, king, m.origin);
      TargetsFromMember(s.board, i, SingleTargets(s.curr, king, i), m);
      assert keys == [i] + keys[1..];
    }
  }

  /** The single moves listed are exactly the ordinary moves allowed by the rules. */
  lemma SingleMovesExact(s: State, m: GameMove)
    requires Total(s.board)
    ensures m in CalcSingleMoves(s) <==> IsSingleMove(s, m)
  {
    DarkSquaresPlayable();
    SinglesOverMember(s, DarkSquares, false, m);
    SinglesOverMember(s, DarkSquares, true, m);
    var o := m.origin;
    if OnBoard(o) && IsBlackTile(o) && s.board[o] in {PawnColor(s.curr), KingColor(s.curr)} {
      var t := s.board[o];
      TablesAt(s.curr, t, o);
      StepsMembers(o, Dirs(t));
      ColorTables(s.curr);
    }
  }

  /** Moves to distinct targets are distinct moves. */
  lemma {:induction false} TargetsFromNoRepeats(b: map<Loc, Piece>, i: Loc, js: seq<Loc>)
    requires i in b && forall j | j in js :: j in b
    requires NoRepeats(js)
    ensures NoRepeats(TargetsFrom(b, i, js))
  {
    if js != [] {
      var rest := js[1..];
      assert NoRepeats(rest) by {
        forall a, c | 0 <= a < c < |rest| ensures rest[a] != rest[c] {
          assert rest[a] == js[a + 1] && rest[c] == js[c + 1];
        }
      }
      assert js[0] !in rest by {
        forall k | 0 <= k < |rest| ensures rest[k] != js[0] {
          assert rest[k] == js[k + 1];
        }
      }
      TargetsFromNoRepeats(b, i, rest);
      NoRepeatsAppend(if b[js[0]] == EM then [MakeMove(b[i], i, js[0], None)] else [], TargetsFrom(b, i, rest));
    }
  }

  /** A table lists each target square of a piece once. */
  lemma SingleTargetsNoRepeats(p: Player, king: bool, l: Loc)
    ensures NoRepeats(SingleTargets(p, king, l))
  {
    var t := Mover(p, king);
    if OnBoard(l) && IsBlackTile(l) {
      TablesAt(p, t, l);
      StepsNoRepeats(l, Dirs(PawnColor(p)));
      StepsNoRepeats(l, Dirs(KingColor(p)));
    } else {
      TablesOffDark(p, t, l);
    }
  }

  /** Over squares listed once each, no single move is listed twice. */
  lemma {:induction false} SinglesOverNoRepeats(s: State, keys: seq<Loc>, king: bool)
    requires Total(s.board) && forall k | k in keys :: OnBoard(k)
    requires NoRepeats(keys)
    ensures NoRepeats(SinglesOver(s, keys, king))
  {
    if keys != [] {
      var i, rest := keys[0], keys[1..];
      assert NoRepeats(rest) by {
        forall a, c | 0 <= a < c < |rest| ensures rest[a] != rest[c] {
          assert rest[a] == keys[a + 1] && rest[c] == keys[c + 1];
        }
      }
      assert i !in rest by {
        forall k | 0 <= k < |rest| ensures rest[k] != i {
          assert rest[k] == keys[k + 1];
        }
      }
      SinglesOverNoRepeats(s, rest, king);
      TableEntriesPlayable(s.curr, king, i);
      SingleTargetsNoRepeats(s.curr, king, i);
      var head := if s.board[i] == Mover(s.curr, king) then TargetsFrom(s.board, i, SingleTargets(s.curr, king, i)) else [];
      if s.board[i] == Mover(s.curr, king) {
        TargetsFromNoRepeats(s.board, i, SingleTargets(s.curr, king, i));
      }
      assert forall m | m in head :: m.origin == i;
      NoRepeatsAppend(head, SinglesOver(s, rest, king));
    }
  }

  /** The single-move generator lists every move once: the pawn and the king moves differ in
      the moving piece, and within each the playable squares are visited once each. */
  lemma SingleMovesNoRepeats(s: State)
    requires Total(s.board)
    ensures NoRepeats(CalcSingleMoves(s))
  {
    DarkSquaresPlayable();
    DarkSquaresOrdered();
    assert NoRepeats(DarkSquares);
    SinglesOverNoRepeats(s, DarkSquares, false);
    SinglesOverNoRepeats(s, DarkSquares, true);
    ColorTables(s.curr);
    NoRepeatsAppend(SinglesOver(s, DarkSquares, false), SinglesOver(s, DarkSquares, true));
  }

  // ---------------------------------------------------------------------------
  // First capture steps
  // ---------------------------------------------------------------------------

  lemma {:induction false} JumpsFromMember(s: State, i: Loc, qs: seq<Jump>, c: FirstJump)
    requires forall q | q in qs :: q.over in s.board && q.landing in s.board
    ensures c in JumpsFrom(s, i, qs) <==>
      c.origin == i && Jump(c.jumped, c.landing) in qs &&
      s.board[c.jumped] in OpponentColors(s.curr) && s.board[c.landing] == EM
  {
    if qs != [] {
      JumpsFromMember(s, i, qs[1..], c);
      assert qs == [qs[0]] + qs[1..];
    }
  }

  lemma {:induction false} CapturesOverMember(s: State, keys: seq<Loc>, king: bool, c: FirstJump)
    requires Total(s.board) && forall k | k in keys :: OnBoard(k)
    ensures c in CapturesOver(s, keys, king) <==>
      c.origin in keys && s.board[c.origin] == Mover(s.curr, king) &&
      Jump(c.jumped, c.landing) in CaptureTargets(s.curr, king, c.origin) &&
      OnBoard(c.jumped) && OnBoard(c.landing) &&
      s.board[c.jumped] in OpponentColors(s.curr) && s.board[c.landing] == EM
  {
    if keys != [] {
      var i := keys[0];
      CapturesOverMember(s, keys[1..], king, c);
      TableEntriesPlayable(s.curr, king, i);
      TableEntriesPlayable(s.curr, king, c.origin);
      JumpsFromMember(s, i, CaptureTargets(s.curr, king, i), c);
      assert keys == [i] + keys[1..];
    }
  }

  /** The first capture steps listed are exactly the single jumps allowed by the rules. */
  lemma CaptureMovesExact(s: State, c: FirstJump)
    requires Total(s.board)
    ensures c in CalcCaptureMoves(s) <==> IsFirstJump(s, c)
  {
    DarkSquaresPlayable();
    CapturesOverMember(s, DarkSquares, false, c);
    CapturesOverMember(s, DarkSquares, true, c);
    var o := c.origin;
    if OnBoard(o) && IsBlackTile(o) && s.board[o] in {PawnColor(s.curr), KingColor(s.curr)} {
      var t := s.board[o];
      TablesAt(s.curr, t, o);
      JumpsMembers(o, Dirs(t));
      ColorTables(s.curr);
    }
  }

  // ---------------------------------------------------------------------------
  // Complete capture moves and mandatory capture
  // ---------------------------------------------------------------------------

  lemma SeqMovesMember(t: Piece, o: Loc, seqs: seq<CaptureSeq>, m: GameMove)
    ensures m in SeqMoves(t, o, seqs) <==>
      m.playerType == t && m.origin == o && CaptureSeq(m.target, m.jumped) in seqs
  {
    var r := SeqMoves(t, o, seqs);
    if m.playerType == t && m.origin == o && CaptureSeq(m.target, m.jumped) in seqs {
      var i :| 0 <= i < |seqs| && seqs[i] == CaptureSeq(m.target, m.jumped);
      assert r[i] == m;
    }
  }

  lemma {:induction false} ConcatMapMember(f: Loc --> seq<GameMove>, os: seq<Loc>, m: GameMove)
    requires forall o | o in os :: f.requires(o)
    ensures m in ConcatMap(f, os) <==> exists o | o in os :: m in f(o)
  {
    if os != [] {
      ConcatMapMember(f, os[1..], m);
      assert os == [os[0]] + os[1..];
    }
  }

  /** Every square of `os` holds a piece, so the search can start from it. */
  ghost predicate Movable(s: State, os: seq<Loc>) {
    forall o | o in os :: o in s.board && s.board[o] != EM
  }

  lemma CaptureSeqMovesMember(s: State, origins: seq<Loc>, m: GameMove)
    requires Total(s.board) && Movable(s, origins)
    ensures m in CaptureSeqMoves(s, origins) <==>
      m.origin in origins && m.playerType == s.board[m.origin] &&
      CaptureSeq(m.target, m.jumped) in FindAllCaptureSequence(s, ToolTable(s.board[m.origin]), m.origin, m.origin, [])
  {
    var f := OriginMovesOf(s);
    ConcatMapMember(f, origins, m);
    forall o | o in origins
      ensures m in f(o) <==> (m.origin == o && m.playerType == s.board[o] &&
        CaptureSeq(m.target, m.jumped) in FindAllCaptureSequence(s, ToolTable(s.board[o]), o, o, []))
    {
      SeqMovesMember(s.board[o], o, FindAllCaptureSequence(s, ToolTable(s.board[o]), o, o, []), m);
    }
  }

  /** A piece is among the capture origins exactly when the multi-jump search finds a first jump
      for it. */
  lemma OriginHasJump(s: State, o: Loc)
    requires Total(s.board) && OnBoard(o) && s.board[o] in {PawnColor(s.curr), KingColor(s.curr)}
    ensures o in CaptureOrigins(s) <==> NextJumps(s, ToolTable(s.board[o]), o, o, []) != []
  {
    ColorTables(s.curr);
    if o in CaptureOrigins(s) {
      OriginJumpFound(s, o);
    }
    if NextJumps(s, ToolTable(s.board[o]), o, o, []) != [] {
      JumpFoundOrigin(s, o);
    }
  }

  lemma OriginJumpFound(s: State, o: Loc)
    requires Total(s.board) && OnBoard(o) && s.board[o] in {PawnColor(s.curr), KingColor(s.curr)}
    requires o in CaptureOrigins(s)
    ensures NextJumps(s, ToolTable(s.board[o]), o, o, []) != []
  {
    var t := s.board[o];
    var caps := CalcCaptureMoves(s);
    var i :| 0 <= i < |caps| && Origins(caps)[i] == o;
    var c := caps[i];
    CaptureMovesExact(s, c);
    var d :| d in Dirs(t) && Jump(c.jumped, c.landing) == JumpTo(o, d);
    TablesAt(s.curr, t, o);
    JumpsMembers(o, Dirs(t));
    var q := Jump(c.jumped, c.landing);
    assert q in ToolTable(t)(o);
    assert LegalNext(s, o, [], q);
    assert q in NextJumps(s, ToolTable(t), o, o, []);
  }

  lemma JumpFoundOrigin(s: State, o: Loc)
    requires Total(s.board) && OnBoard(o) && s.board[o] in {PawnColor(s.curr), KingColor(s.curr)}
    requires NextJumps(s, ToolTable(s.board[o]), o, o, []) != []
    ensures o in CaptureOrigins(s)
  {
    var t := s.board[o];
    var caps := CalcCaptureMoves(s);
    var nexts := NextJumps(s, ToolTable(t), o, o, []);
    var q := nexts[0];
    assert q in nexts && q in ToolCaptureMoves(t, o);
    if !(OnBoard(o) && IsBlackTile(o)) {
      TablesOffDark(s.curr, t, o);
      assert false;
    }
    TablesAt(s.curr, t, o);
    JumpsMembers(o, Dirs(t));
    ColorTables(s.curr);
    var c := FirstJump(o, q.over, q.landing);
    assert s.board[q.over] in OpponentColors(s.curr);
    assert q.over != o;
    assert q.landing == Beyond(o, q.over);
    assert q.landing != o;
    var d :| d in Dirs(t) && q == JumpTo(o, d);
    assert IsFirstJump(s, c);
    CaptureMovesExact(s, c);
    var i :| 0 <= i < |caps| && caps[i] == c;
    assert Origins(caps)[i] == o;
  }

  /** A capture move by the rules: a piece of the player to move follows a maximal chain of legal
      jumps along its capture table, jumping at least once. */
  ghost predicate IsCaptureMove(s: State, m: GameMove)
    requires Total(s.board)
  {
    OnBoard(m.origin) && s.board[m.origin] in {PawnColor(s.curr), KingColor(s.curr)} &&
    m.playerType == s.board[m.origin] && m.jumped != [] &&
    IsChain(s, ToolTable(m.playerType), m.origin, m.origin, [], m.jumped, m.target) &&
    Maximal(s, ToolTable(m.playerType), m.origin, m.target, m.jumped)
  }

  /** When some piece can capture, the moves offered are exactly the capture moves by the rules. */
  lemma CaptureMovesByRules(s: State, m: GameMove)
    requires Total(s.board) && CalcCaptureMoves(s) != []
    ensures m in GetPossibleMoves(s) <==> IsCaptureMove(s, m)
  {
    if m in GetPossibleMoves(s) {
      OfferedIsCaptureMove(s, m);
    }
    if IsCaptureMove(s, m) {
      CaptureMoveOffered(s, m);
    }
  }

  lemma OfferedIsCaptureMove(s: State, m: GameMove)
    requires Total(s.board) && CalcCaptureMoves(s) != []
    requires m in GetPossibleMoves(s)
    ensures IsCaptureMove(s, m)
  {
    assert m in CaptureSeqMoves(s, CaptureOrigins(s));
    CaptureSeqMovesMember(s, CaptureOrigins(s), m);
    FoundIsCaptureMove(s, m);
  }

  /** A sequence the search finds from a capture origin is a capture move by the rules. */
  lemma FoundIsCaptureMove(s: State, m: GameMove)
    requires Total(s.board) && m.origin in CaptureOrigins(s) && m.playerType == s.board[m.origin]
    requires CaptureSeq(m.target, m.jumped) in FindAllCaptureSequence(s, ToolTable(s.board[m.origin]), m.origin, m.origin, [])
    ensures IsCaptureMove(s, m)
  {
    var o := m.origin;
    ColorTables(s.curr);
    var moves := ToolTable(s.board[o]);
    FindAllExact(s, moves, o, o, [], CaptureSeq(m.target, m.jumped));
    assert [] + m.jumped == m.jumped;
    OriginHasJump(s, o);
    FindAllStops(s, moves, o, o, []);
  }

  lemma CaptureMoveOffered(s: State, m: GameMove)
    requires Total(s.board) && CalcCaptureMoves(s) != []
    requires IsCaptureMove(s, m)
    ensures m in GetPossibleMoves(s)
  {
    CaptureMoveFound(s, m);
    CaptureSeqMovesMember(s, CaptureOrigins(s), m);
  }

  /** A capture move by the rules starts from a capture origin and is found by the search. */
  lemma CaptureMoveFound(s: State, m: GameMove)
    requires Total(s.board) && IsCaptureMove(s, m)
    ensures m.origin in CaptureOrigins(s)
    ensures CaptureSeq(m.target, m.jumped) in FindAllCaptureSequence(s, ToolTable(s.board[m.origin]), m.origin, m.origin, [])
  {
    var o := m.origin;
    ColorTables(s.curr);
    var moves := ToolTable(s.board[o]);
    var q0 := Jump(m.jumped[0], Beyond(o, m.jumped[0]));
    assert q0 in NextJumps(s, moves, o, o, []);
    OriginHasJump(s, o);
    FindAllExact(s, moves, o, o, [], CaptureSeq(m.target, m.jumped));
    assert [] + m.jumped == m.jumped;
  }

  /** Captures are mandatory: when the rules allow a first capture step, every move offered is a
      capture (and there is at least one); otherwise the moves offered are exactly the ordinary
      moves. */
  lemma MandatoryCapture(s: State)
    requires Total(s.board)
    ensures (exists c :: IsFirstJump(s, c)) ==>
      GetPossibleMoves(s) != [] && forall m | m in GetPossibleMoves(s) :: IsCapture(m)
    ensures (forall c :: !IsFirstJump(s, c)) ==>
      forall m :: m in GetPossibleMoves(s) <==> IsSingleMove(s, m)
  {
    var caps := CalcCaptureMoves(s);
    if exists c :: IsFirstJump(s, c) {
      var c :| IsFirstJump(s, c);
      CaptureMovesExact(s, c);
      CapturesOffered(s);
      forall m | m in GetPossibleMoves(s)
        ensures IsCapture(m)
      {
        CaptureMovesByRules(s, m);
      }
    } else {
      if caps != [] {
        CaptureMovesExact(s, caps[0]);
      }
      forall m
        ensures m in GetPossibleMoves(s) <==> IsSingleMove(s, m)
      {
        SingleMovesExact(s, m);
      }
    }
  }

  /** When a first capture step exists, at least one capture move is offered. */
  lemma CapturesOffered(s: State)
    requires Total(s.board) && CalcCaptureMoves(s) != []
    ensures GetPossibleMoves(s) != []
  {
    var caps := CalcCaptureMoves(s);
    var origins := CaptureOrigins(s);
    assert Origins(caps)[0] in origins;
    var o := origins[0];
    var t := s.board[o];
    var x := FindAllCaptureSequence(s, ToolTable(t), o, o, [])[0];
    CaptureSeqMovesMember(s, origins, GameMove(t, o, x.target, x.jumped));
  }

  // ---------------------------------------------------------------------------
  // Independence from the order of the capture origins
  // ---------------------------------------------------------------------------

  lemma {:induction false} ConcatMapSplit(f: Loc --> seq<GameMove>, a: seq<Loc>, b: seq<Loc>)
    requires forall o | o in a + b :: f.requires(o)
    ensures ConcatMap(f, a + b) == ConcatMap(f, a) + ConcatMap(f, b)
  {
    if a == [] {
      assert a + b == b;
    } else {
      ConcatMapSplit(f, a[1..], b);
      assert (a + b)[0] == a[0] && (a + b)[1..] == a[1..] + b;
    }
  }

  /** Taking out the element at `i` leaves the rest of the multiset. */
  lemma RemoveAt(b: seq<Loc>, i: int)
    requires 0 <= i < |b|
    ensures b == b[..i] + [b[i]] + b[i + 1..]
    ensures multiset(b) == multiset(b[..i] + b[i + 1..]) + multiset{b[i]}
  {
    assert b == b[..i] + [b[i]] + b[i + 1..];
  }

  /** Taking the element at `i` out of the visiting order takes its part out of the concatenation. */
  lemma ConcatMapRemoveAt(f: Loc --> seq<GameMove>, b: seq<Loc>, i: int)
    requires 0 <= i < |b| && forall o | o in b :: f.requires(o)
    ensures forall o | o in b[..i] + b[i + 1..] :: f.requires(o)
    ensures multiset(ConcatMap(f, b)) == multiset(f(b[i])) + multiset(ConcatMap(f, b[..i] + b[i + 1..]))
  {
    var pre, x, post := b[..i], b[i], b[i + 1..];
    RemoveAt(b, i);
    assert forall o | o in pre + post :: o in b;
    assert forall o | o in pre + [x] + post :: o in b;
    ConcatMapSplit(f, pre + [x], post);
    ConcatMapSplit(f, pre, [x]);
    ConcatMapSplit(f, pre, post);
    assert ConcatMap(f, [x]) == f(x) by {
      assert [x][1..] == [];
    }
  }

  /** Where the first element of `a` sits in a permutation `b` of `a`; the rest of `a` is a
      permutation of the rest of `b`. */
  lemma MatchingIndex(a: seq<Loc>, b: seq<Loc>) returns (i: int)
    requires a != [] && multiset(a) == multiset(b)
    ensures 0 <= i < |b| && b[i] == a[0]
    ensures multiset(a[1..]) == multiset(b[..i] + b[i + 1..])
  {
    var x := a[0];
    assert x in multiset(b);
    i :| 0 <= i < |b| && b[i] == x;
    RemoveAt(b, i);
    assert a == [x] + a[1..];
    assert multiset(a) == multiset{x} + multiset(a[1..]);
    calc {
      multiset(a[1..]);
      multiset(a) - multiset{x};
      multiset(b) - multiset{x};
      multiset(b[..i] + b[i + 1..]);
    }
  }

  /** Visiting the origins in a permuted order permutes the concatenation. */
  lemma {:induction false} ConcatMapPermutation(f: Loc --> seq<GameMove>, a: seq<Loc>, b: seq<Loc>)
    requires forall o | o in a :: f.requires(o)
    requires forall o | o in b :: f.requires(o)
    requires multiset(a) == multiset(b)
    ensures multiset(ConcatMap(f, a)) == multiset(ConcatMap(f, b))
    decreases |a|
  {
    if a == [] {
      assert |b| == |multiset(b)| == 0;
    } else {
      var i := MatchingIndex(a, b);
      var rest := b[..i] + b[i + 1..];
      ConcatMapRemoveAt(f, b, i);
      ConcatMapPermutation(f, a[1..], rest);
    }
  }

  /** A sequence without repetitions holds each of its elements once. */
  lemma {:induction false} DistinctMultiset(a: seq<Loc>, x: Loc)
    requires forall i, j | 0 <= i < j < |a| :: a[i] != a[j]
    ensures multiset(a)[x] == if x in a then 1 else 0
  {
    if a != [] {
      DistinctMultiset(a[1..], x);
      assert a == [a[0]] + a[1..];
    }
  }

  /** `get_possible_moves` gathers the capture origins in a hash set and visits them in whatever order the set
      yields: any visiting order gives the same moves, up to their order. */
  lemma CaptureMovesOrderFree(s: State, order: seq<Loc>)
    requires Total(s.board) && CalcCaptureMoves(s) != []
    requires forall i, j | 0 <= i < j < |order| :: order[i] != order[j]
    requires forall o :: o in order <==> o in CaptureOrigins(s)
    ensures multiset(CaptureSeqMoves(s, order)) == multiset(GetPossibleMoves(s))
  {
    var origins := CaptureOrigins(s);
    forall x
      ensures multiset(order)[x] == multiset(origins)[x]
    {
      DistinctMultiset(order, x);
      DistinctMultiset(origins, x);
    }
    assert multiset(order) == multiset(origins);
    ColorTables(s.curr);
    assert forall o | o in order :: o in origins;
    ConcatMapPermutation(OriginMovesOf(s), origins, order);
  }
}
