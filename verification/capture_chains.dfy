/** What the multi-jump search computes: exactly the maximal chains of legal jumps. */
module CaptureChains {
  import opened Consts
  import opened Moves
  import opened MoveTables
  import opened Board

  /** `js` is a chain of jumps from `cur`, along the capture table `moves` of a piece that started at `origin` with
      `already` jumped, ending on `target`: each jump is an entry of the table
      over the listed square, legal at its point of the chain. */
  ghost predicate IsChain(s: State, moves: Loc -> seq<Jump>, origin: Loc, cur: Loc, already: seq<Loc>, js: seq<Loc>, target: Loc)
    requires Total(s.board) && JumpTable(moves)
    decreases |js|
  {
    if js == [] then target == cur
    else
      var q := Jump(js[0], Beyond(cur, js[0]));
      q in moves(cur) && OnBoard(q.landing) && OnBoard(q.over) &&
      LegalNext(s, origin, already, q) &&
      IsChain(s, moves, origin, q.landing, already + [js[0]], js[1..], target)
  }

  /** No legal jump is left from `cur` once `jumped` have been taken. */
  ghost predicate Maximal(s: State, moves: Loc -> seq<Jump>, origin: Loc, cur: Loc, jumped: seq<Loc>)
    requires Total(s.board) && JumpTable(moves)
  {
    forall q | q in moves(cur) :: OnBoard(q.over) && OnBoard(q.landing) && !LegalNext(s, origin, jumped, q)
  }

  /** Sequence `x` starts with the jump `q` and continues with a sequence the search finds after it. */
  ghost predicate Continues(s: State, moves: Loc -> seq<Jump>, origin: Loc, already: seq<Loc>, q: Jump, x: CaptureSeq)
    requires Total(s.board) && JumpTable(moves)
  {
    x.jumped != [] && q.over == x.jumped[0] &&
    CaptureSeq(x.target, x.jumped[1..]) in FindAllCaptureSequence(s, moves, origin, q.landing, already + [q.over])
  }

  lemma PrefixMember(j: Loc, seqs: seq<CaptureSeq>, x: CaptureSeq)
    ensures x in Prefix(j, seqs) <==> x.jumped != [] && x.jumped[0] == j && CaptureSeq(x.target, x.jumped[1..]) in seqs
  {
    var pre := Prefix(j, seqs);
    if x in pre {
      var i :| 0 <= i < |pre| && pre[i] == x;
      assert x.jumped[1..] == seqs[i].jumped;
    }
    if x.jumped != [] && x.jumped[0] == j && CaptureSeq(x.target, x.jumped[1..]) in seqs {
      var i :| 0 <= i < |seqs| && seqs[i] == CaptureSeq(x.target, x.jumped[1..]);
      assert pre[i].jumped == x.jumped;
    }
  }

  /** Membership in the concatenation built by `ExtendAll`. */
  lemma {:induction false} ExtendAllMember(s: State, moves: Loc -> seq<Jump>, origin: Loc, already: seq<Loc>, nexts: seq<Jump>, x: CaptureSeq)
    requires Total(s.board) && JumpTable(moves)
    requires forall q | q in nexts :: OnBoard(q.over) && OnBoard(q.landing) && LegalNext(s, origin, already, q)
    ensures x in ExtendAll(s, moves, origin, already, nexts) <==> exists q | q in nexts :: Continues(s, moves, origin, already, q, x)
    decreases |nexts|
  {
    if nexts != [] {
      var q := nexts[0];
      assert q in nexts;
      ExtendAllMember(s, moves, origin, already, nexts[1..], x);
      var head := FindAllCaptureSequence(s, moves, origin, q.landing, already + [q.over]);
      PrefixMember(q.over, head, x);
      assert ExtendAll(s, moves, origin, already, nexts) == Prefix(q.over, head) + ExtendAll(s, moves, origin, already, nexts[1..]);
      assert x in Prefix(q.over, head) <==> Continues(s, moves, origin, already, q, x);
      forall q' | q' in nexts
        ensures q' == q || q' in nexts[1..]
      {
      }
    }
  }

  /** The search returns exactly the maximal chains: a pair (target, jumped) is listed iff `jumped`
      is a chain of legal jumps from `cur` ending on `target` after which no jump is legal. */
  lemma {:induction false} FindAllExact(s: State, moves: Loc -> seq<Jump>, origin: Loc, cur: Loc, already: seq<Loc>, x: CaptureSeq)
    requires Total(s.board) && JumpTable(moves)
    ensures x in FindAllCaptureSequence(s, moves, origin, cur, already) <==>
      IsChain(s, moves, origin, cur, already, x.jumped, x.target) && Maximal(s, moves, origin, x.target, already + x.jumped)
    decreases Unjumped(s, already)
  {
    var nexts := NextJumps(s, moves, origin, cur, already);
    var js := x.jumped;
    if js == [] {
      assert already + js == already;
      EmptySequence(s, moves, origin, cur, already, x);
    } else {
      var q0 := Jump(js[0], Beyond(cur, js[0]));
      var rest := CaptureSeq(x.target, js[1..]);
      assert already + js == (already + [js[0]]) + js[1..];
      FindAllFirstJump(s, moves, origin, cur, already, x);
      if q0 in nexts {
        UnjumpedShrinks(s, already, js[0]);
        FindAllExact(s, moves, origin, q0.landing, already + [js[0]], rest);
      }
    }
  }

  /** The empty sequence is listed iff no jump is legal from `cur`, and then it ends on `cur`. */
  lemma EmptySequence(s: State, moves: Loc -> seq<Jump>, origin: Loc, cur: Loc, already: seq<Loc>, x: CaptureSeq)
    requires Total(s.board) && JumpTable(moves) && x.jumped == []
    ensures x in FindAllCaptureSequence(s, moves, origin, cur, already) <==>
      x.target == cur && Maximal(s, moves, origin, cur, already)
  {
    var nexts := NextJumps(s, moves, origin, cur, already);
    if nexts != [] {
      assert nexts[0] in nexts;
      assert x !in ExtendAll(s, moves, origin, already, nexts);
    }
  }

  /** A non-empty sequence is listed iff its first jump is legal from `cur` and the rest is listed
      by the search continuing after that jump. */
  lemma FindAllFirstJump(s: State, moves: Loc -> seq<Jump>, origin: Loc, cur: Loc, already: seq<Loc>, x: CaptureSeq)
    requires Total(s.board) && JumpTable(moves) && x.jumped != []
    ensures
      var q0 := Jump(x.jumped[0], Beyond(cur, x.jumped[0]));
      (q0 in NextJumps(s, moves, origin, cur, already) <==>
        q0 in moves(cur) && OnBoard(q0.landing) && OnBoard(q0.over) && LegalNext(s, origin, already, q0)) &&
      (x in FindAllCaptureSequence(s, moves, origin, cur, already) <==>
        q0 in NextJumps(s, moves, origin, cur, already) &&
        CaptureSeq(x.target, x.jumped[1..]) in FindAllCaptureSequence(s, moves, origin, q0.landing, already + [x.jumped[0]]))
  {
    var nexts := NextJumps(s, moves, origin, cur, already);
    var q0 := Jump(x.jumped[0], Beyond(cur, x.jumped[0]));
    if nexts != [] {
      ExtendAllMember(s, moves, origin, already, nexts, x);
      forall q | q in nexts && Continues(s, moves, origin, already, q, x)
        ensures q == q0
      {
      }
      if q0 in nexts {
        assert Continues(s, moves, origin, already, q0, x) ==>
          x in ExtendAll(s, moves, origin, already, nexts);
      }
    }
  }

  /** Along a chain every jumped square holds an opponent piece, none is jumped twice or was jumped
      before, and the final square is empty or the square the piece started from. */
  lemma {:induction false} ChainProperties(s: State, moves: Loc -> seq<Jump>, origin: Loc, cur: Loc, already: seq<Loc>, js: seq<Loc>, target: Loc)
    requires Total(s.board) && JumpTable(moves)
    requires IsChain(s, moves, origin, cur, already, js, target)
    requires cur in s.board && (s.board[cur] == EM || cur == origin)
    ensures forall i | 0 <= i < |js| :: OnBoard(js[i]) && s.board[js[i]] in OpponentColors(s.curr) && js[i] !in already
    ensures forall i, j | 0 <= i < j < |js| :: js[i] != js[j]
    ensures target in s.board && (s.board[target] == EM || target == origin)
    ensures OnBoard(cur) ==> OnBoard(target)
    decreases |js|
  {
    if js != [] {
      var q := Jump(js[0], Beyond(cur, js[0]));
      ChainProperties(s, moves, origin, q.landing, already + [js[0]], js[1..], target);
      forall i | 0 <= i < |js|
        ensures OnBoard(js[i]) && s.board[js[i]] in OpponentColors(s.curr) && js[i] !in already
      {
        if i > 0 {
          assert js[i] == js[1..][i - 1];
        }
      }
      forall i, j | 0 <= i < j < |js|
        ensures js[i] != js[j]
      {
        assert js[j] == js[1..][j - 1];
        if i > 0 {
          assert js[i] == js[1..][i - 1];
        }
      }
    }
  }

  /** The search reports the single empty sequence exactly when the piece has no legal jump from
      `cur`; otherwise every sequence it reports jumps at least once. */
  lemma FindAllStops(s: State, moves: Loc -> seq<Jump>, origin: Loc, cur: Loc, already: seq<Loc>)
    requires Total(s.board) && JumpTable(moves)
    ensures FindAllCaptureSequence(s, moves, origin, cur, already) == [CaptureSeq(cur, [])] <==>
      NextJumps(s, moves, origin, cur, already) == []
    ensures NextJumps(s, moves, origin, cur, already) != [] ==>
      forall x | x in FindAllCaptureSequence(s, moves, origin, cur, already) :: x.jumped != []
  {
    var r := FindAllCaptureSequence(s, moves, origin, cur, already);
    if NextJumps(s, moves, origin, cur, already) != [] {
      assert r[0] in r;
    }
  }
}
