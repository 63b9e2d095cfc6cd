/** The decision logic of `get_move`, apart from the clock. Iterative deepening searches depth 1,
    2, 3, ... until time runs out; here the searches' results arrive as a sequence of outcomes, one
    per depth, and the sequence ends (or holds `OutOfTime`) where the time ran out. */
module Driver {
  import opened Consts
  import opened Moves
  import opened Evaluation

  /** The result of the search to one depth: its value and best move, or the time ran out first. */
  datatype Outcome = Completed(alpha: Score, move: GameMove) | OutOfTime

  /** How a player deepens: the simple player searches until time runs out or a sentinel value is
      found; the improved players also stop after `UnchangedRounds` rounds past `minDepth` in which
      neither the value nor the move's squares changed. */
  datatype Strategy = Simple | Convergent(minDepth: int)

  /** The improved player counts unchanged rounds from depth 5 on, improved_better_h from depth 6. */
  const ImprovedPlayerMinDepth: int := 4
  const ImprovedBetterHMinDepth: int := 5
  const UnchangedRounds: nat := 3

  // ---------------------------------------------------------------------------
  // The round clock
  // ---------------------------------------------------------------------------

  /** The count of turns left in the current round of `k` turns after one more move: it starts a new
      round when this was the last turn, and otherwise counts down. */
  function NextTurns(turns: int, k: int): (r: int)
    ensures turns == 1 ==> r == k
    ensures turns > 1 ==> r < turns
  {
    if turns == 1 then k else turns - 1
  }

  /** The count after `n` more moves. */
  function AfterTurns(turns: int, k: int, n: nat): int
    decreases n
  {
    if n == 0 then turns else AfterTurns(NextTurns(turns, k), k, n - 1)
  }

  /** The count stays within 1..k, and it cycles with period `k`: from `turns` left, a new round
      begins after exactly `turns` moves, and every round lasts `k` moves. */
  lemma {:induction false} RoundCycle(turns: int, k: int, n: nat)
    requires 1 <= turns <= k
    ensures 1 <= AfterTurns(turns, k, n) <= k
    ensures n == turns ==> AfterTurns(turns, k, n) == k
    ensures AfterTurns(turns, k, n + k) == AfterTurns(turns, k, n)
    decreases n
  {
    if n > 0 {
      RoundCycle(NextTurns(turns, k), k, n - 1);
      if n == turns && turns > 1 {
        assert n - 1 == NextTurns(turns, k);
      }
    } else {
      RoundStart(turns, k, k);
    }
    AfterSplit(turns, k, n, k);
    AfterSplit(turns, k, k, n);
  }

  /** A round of `k` moves from any count in 1..k returns to that count. */
  lemma {:induction false} RoundStart(turns: int, k: int, m: nat)
    requires 1 <= turns <= k && m == k
    ensures AfterTurns(turns, k, m) == turns
  {
    AfterSplit(turns, k, turns, k - turns);
    CountDown(turns, k, turns);
    CountDown(k, k, k - turns);
  }

  /** Counting down `n` moves from a count above `n` gives the count minus `n`, and the `turns`-th
      move starts a new round. */
  lemma {:induction false} CountDown(turns: int, k: int, n: nat)
    requires 1 <= turns <= k && n <= turns
    ensures n < turns ==> AfterTurns(turns, k, n) == turns - n
    ensures n == turns ==> AfterTurns(turns, k, n) == k
    decreases n
  {
    if n > 0 {
      CountDown(NextTurns(turns, k), k, n - 1);
      if turns == 1 {
        assert n == 1;
      }
    }
  }

  lemma {:induction false} AfterSplit(turns: int, k: int, a: nat, b: nat)
    ensures AfterTurns(turns, k, a + b) == AfterTurns(AfterTurns(turns, k, a), k, b)
    decreases a
  {
    if a > 0 {
      AfterSplit(NextTurns(turns, k), k, a - 1, b);
    }
  }

  // ---------------------------------------------------------------------------
  // Iterative deepening
  // ---------------------------------------------------------------------------

  /** The simple player's loop: each completed depth's move becomes the best move; the loop stops
      when time runs out or when a completed depth's value is a sentinel. */
  function Deepen(outs: seq<Outcome>, best: GameMove): (r: GameMove)
    ensures r == best || exists i | 0 <= i < |outs| :: outs[i].Completed? && outs[i].move == r
    decreases |outs|
  {
    if outs == [] || outs[0].OutOfTime? then best
    else if IsSentinel(outs[0].alpha) then outs[0].move
    else
      var r := Deepen(outs[1..], outs[0].move);
      assert r != outs[0].move ==> exists i | 0 <= i < |outs[1..]| :: outs[1..][i].Completed? && outs[1..][i].move == r;
      r
  }

  /** The move and the target squares of a completed depth agree with the best move so far. */
  predicate SameSquares(m: GameMove, best: GameMove) {
    m.origin == best.origin && m.target == best.target
  }

  /** The improved players' loop at search depth `depth`: a completed depth past `minDepth` whose
      value equals the previous one and whose move has the best move's squares counts as unchanged,
      any other resets the count; on the third unchanged round the loop stops with the best move so
      far, unless this is the last turn of the round; otherwise as in `Deepen`. */
  function Converge(outs: seq<Outcome>, depth: int, prevAlpha: Score, best: GameMove, streak: nat, minDepth: int, turns: int): (r: GameMove)
    ensures r == best || exists i | 0 <= i < |outs| :: outs[i].Completed? && outs[i].move == r
    decreases |outs|
  {
    if outs == [] || outs[0].OutOfTime? then best
    else
      var alpha, move := outs[0].alpha, outs[0].move;
      var u := if prevAlpha == alpha && SameSquares(move, best) && depth > minDepth then streak + 1 else 0;
      if u == UnchangedRounds && turns > 1 then best
      else if IsSentinel(alpha) then move
      else
        var r := Converge(outs[1..], depth + 1, alpha, move, u, minDepth, turns);
        assert r != move ==> exists i | 0 <= i < |outs[1..]| :: outs[1..][i].Completed? && outs[1..][i].move == r;
        r
  }

  /** What `get_move` decides: the move, and the turns left in the round afterwards. */
  datatype Decision = Decision(move: GameMove, turns: int)

  /** `get_move`. With a single legal move it is returned at once; the simple player then leaves the
      round clock alone, the improved players advance it. Otherwise the first legal move is the
      fallback, deepening starts at depth 1 from a previous value of -inf, and the clock advances. */
  function GetMove(strategy: Strategy, moves: seq<GameMove>, outs: seq<Outcome>, turns: int, k: int): (r: Decision)
    requires moves != []
    ensures (forall i | 0 <= i < |outs| && outs[i].Completed? :: outs[i].move in moves) ==> r.move in moves
    ensures |moves| == 1 ==> r.move == moves[0]
    ensures r.turns == if strategy.Simple? && |moves| == 1 then turns else NextTurns(turns, k)
  {
    if |moves| == 1 then
      Decision(moves[0], if strategy.Simple? then turns else NextTurns(turns, k))
    else
      var move := match strategy
        case Simple => Deepen(outs, moves[0])
        case Convergent(minDepth) => Converge(outs, 1, NegInf, moves[0], 0, minDepth, turns);
      Decision(move, NextTurns(turns, k))
  }

  // ---------------------------------------------------------------------------
  // Properties of the loops
  // ---------------------------------------------------------------------------

  /** The first `i` depths all completed with a finite value. */
  predicate Running(outs: seq<Outcome>, i: int) {
    0 <= i <= |outs| && forall j | 0 <= j < i :: outs[j].Completed? && !IsSentinel(outs[j].alpha)
  }

  /** The simple loop returns the move of the last depth completed before time ran out (the fallback
      when none completed), or the move of the first depth whose value is a sentinel; later
      outcomes do not matter. */
  lemma {:induction false} DeepenStops(outs: seq<Outcome>, best: GameMove, i: int)
    requires Running(outs, i)
    ensures i == |outs| || outs[i].OutOfTime? ==> Deepen(outs, best) == if i == 0 then best else outs[i - 1].move
    ensures i < |outs| && outs[i].Completed? && IsSentinel(outs[i].alpha) ==> Deepen(outs, best) == outs[i].move
    decreases i
  {
    if i > 0 {
      DeepenStops(outs[1..], outs[0].move, i - 1);
      if i > 1 {
        assert outs[1..][i - 2] == outs[i - 1];
      }
    }
  }

  /** On the last turn of a round the convergence rule is off, and the improved players' loop
      returns exactly what the simple player's would. */
  lemma {:induction false} LastTurnDeepensFully(outs: seq<Outcome>, depth: int, prevAlpha: Score, best: GameMove, streak: nat, minDepth: int)
    ensures Converge(outs, depth, prevAlpha, best, streak, minDepth, 1) == Deepen(outs, best)
    decreases |outs|
  {
    if outs != [] && outs[0].Completed? && !IsSentinel(outs[0].alpha) {
      var u := if prevAlpha == outs[0].alpha && SameSquares(outs[0].move, best) && depth > minDepth then streak + 1 else 0;
      LastTurnDeepensFully(outs[1..], depth + 1, outs[0].alpha, outs[0].move, u, minDepth);
    }
  }

  /** Otherwise three completed depths past `minDepth` with the previous finite value and the best
      move's squares stop the loop on the third, which is not recorded: the result is the second's
      move, whatever later depths would have found. */
  lemma ThreeUnchangedRoundsStop(outs: seq<Outcome>, depth: int, alpha: Score, best: GameMove, minDepth: int, turns: int)
    requires turns > 1 && depth > minDepth && !IsSentinel(alpha) && |outs| >= 3
    requires forall i | 0 <= i < 3 :: outs[i].Completed? && outs[i].alpha == alpha && SameSquares(outs[i].move, best)
    ensures Converge(outs, depth, alpha, best, 0, minDepth, turns) == outs[1].move
  {
    var a, m0, m1 := alpha, outs[0].move, outs[1].move;
    assert Converge(outs, depth, a, best, 0, minDepth, turns) == Converge(outs[1..], depth + 1, a, m0, 1, minDepth, turns);
    assert outs[1..][0] == outs[1] && outs[1..][1..] == outs[2..];
    assert Converge(outs[1..], depth + 1, a, m0, 1, minDepth, turns) == Converge(outs[2..], depth + 2, a, m1, 2, minDepth, turns);
    assert outs[2..][0] == outs[2];
  }

  /** Depth `depth + i` completed unchanged: it and the depth before it completed, its value is the
      previous value and its move has the previous move's squares (before the first outcome: the
      values `prevAlpha` and `best` the loop starts with), and it lies past `minDepth`. */
  predicate Unchanged(outs: seq<Outcome>, i: int, depth: int, prevAlpha: Score, best: GameMove, minDepth: int)
    requires 0 <= i < |outs|
  {
    outs[i].Completed? && (i == 0 || outs[i - 1].Completed?) &&
    var pa := if i == 0 then prevAlpha else outs[i - 1].alpha;
    var pm := if i == 0 then best else outs[i - 1].move;
    outs[i].alpha == pa && SameSquares(outs[i].move, pm) && depth + i > minDepth
  }

  /** Outcome `i` completes a window of three unchanged rounds, counting the `streak` rounds already
      unchanged before the first outcome. */
  predicate Window(outs: seq<Outcome>, i: int, depth: int, prevAlpha: Score, best: GameMove, streak: nat, minDepth: int)
    requires 0 <= i < |outs|
  {
    Unchanged(outs, i, depth, prevAlpha, best, minDepth) &&
    (i == 0 ==> streak >= 2) &&
    (i == 1 ==> streak >= 1 && Unchanged(outs, 0, depth, prevAlpha, best, minDepth)) &&
    (i >= 2 ==> Unchanged(outs, i - 1, depth, prevAlpha, best, minDepth) && Unchanged(outs, i - 2, depth, prevAlpha, best, minDepth))
  }

  /** Dropping the first outcome shifts the unchanged rounds and the windows by one. */
  lemma WindowShift(outs: seq<Outcome>, depth: int, prevAlpha: Score, best: GameMove, streak: nat, minDepth: int, j: int)
    requires 0 <= j && j + 1 < |outs| && outs[0].Completed?
    ensures var u := if Unchanged(outs, 0, depth, prevAlpha, best, minDepth) then streak + 1 else 0;
      (Unchanged(outs[1..], j, depth + 1, outs[0].alpha, outs[0].move, minDepth) <==>
       Unchanged(outs, j + 1, depth, prevAlpha, best, minDepth)) &&
      (Window(outs[1..], j, depth + 1, outs[0].alpha, outs[0].move, u, minDepth) <==>
       Window(outs, j + 1, depth, prevAlpha, best, streak, minDepth))
  {
    assert outs[1..][j] == outs[j + 1];
    if j > 0 {
      assert outs[1..][j - 1] == outs[j];
    }
    if j > 1 {
      assert outs[1..][j - 2] == outs[j - 1];
    }
  }

  /** Where the improved players' loop ends when it is not the last turn of the round. Let depths
      `0 .. i-1` complete with finite values and none of them complete a window of three unchanged
      rounds. Then at outcome `i`: if time ran out, or the outcomes end, the result is the move of
      the last completed depth (the fallback when none completed); if `i` completes a window, the
      result is the move before it, the third unchanged round not being recorded; otherwise, if
      its value is a sentinel, the result is its move. */
  lemma {:induction false} ConvergeExits(outs: seq<Outcome>, depth: int, prevAlpha: Score, best: GameMove, streak: nat, minDepth: int, turns: int, i: int)
    requires turns > 1 && streak <= 2 && Running(outs, i)
    requires forall j | 0 <= j < i :: !Window(outs, j, depth, prevAlpha, best, streak, minDepth)
    ensures i == |outs| || outs[i].OutOfTime? ==>
      Converge(outs, depth, prevAlpha, best, streak, minDepth, turns) == if i == 0 then best else outs[i - 1].move
    ensures i < |outs| && Window(outs, i, depth, prevAlpha, best, streak, minDepth) ==>
      Converge(outs, depth, prevAlpha, best, streak, minDepth, turns) == if i == 0 then best else outs[i - 1].move
    ensures i < |outs| && outs[i].Completed? && IsSentinel(outs[i].alpha) && !Window(outs, i, depth, prevAlpha, best, streak, minDepth) ==>
      Converge(outs, depth, prevAlpha, best, streak, minDepth, turns) == outs[i].move
    decreases i
  {
    if i > 0 {
      assert !Window(outs, 0, depth, prevAlpha, best, streak, minDepth);
      var u := if Unchanged(outs, 0, depth, prevAlpha, best, minDepth) then streak + 1 else 0;
      assert u <= 2;
      var rest := outs[1..];
      forall j {:trigger Window(rest, j, depth + 1, outs[0].alpha, outs[0].move, u, minDepth)} | 0 <= j < |rest|
        ensures Window(rest, j, depth + 1, outs[0].alpha, outs[0].move, u, minDepth) <==>
                Window(outs, j + 1, depth, prevAlpha, best, streak, minDepth)
      {
        WindowShift(outs, depth, prevAlpha, best, streak, minDepth, j);
      }
      assert Running(outs[1..], i - 1) by {
        forall j | 0 <= j < i - 1 ensures outs[1..][j] == outs[j + 1] { }
      }
      ConvergeExits(outs[1..], depth + 1, outs[0].alpha, outs[0].move, u, minDepth, turns, i - 1);
      assert Converge(outs, depth, prevAlpha, best, streak, minDepth, turns) ==
        Converge(outs[1..], depth + 1, outs[0].alpha, outs[0].move, u, minDepth, turns);
      if i - 1 < |outs| - 1 {
        assert outs[1..][i - 1] == outs[i];
      }
      if i > 1 {
        assert outs[1..][i - 2] == outs[i - 1];
      }
    }
  }

  /** Without a window of three unchanged rounds the improved players' loop returns exactly what
      the simple player's loop would, on every turn but the last of the round too. */
  lemma ConvergeWithoutWindowIsDeepen(outs: seq<Outcome>, depth: int, prevAlpha: Score, best: GameMove, minDepth: int, turns: int, i: int)
    requires turns > 1 && Running(outs, i)
    requires forall j | 0 <= j < i :: !Window(outs, j, depth, prevAlpha, best, 0, minDepth)
    requires i == |outs| || outs[i].OutOfTime? || (IsSentinel(outs[i].alpha) && !Window(outs, i, depth, prevAlpha, best, 0, minDepth))
    ensures Converge(outs, depth, prevAlpha, best, 0, minDepth, turns) == Deepen(outs, best)
  {
    ConvergeExits(outs, depth, prevAlpha, best, 0, minDepth, turns, i);
    DeepenStops(outs, best, i);
  }

  /** A completed depth whose value or move squares differ from the previous ones resets the count,
      so the loop cannot stop at it through the convergence rule. */
  lemma ChangeResets(outs: seq<Outcome>, depth: int, prevAlpha: Score, best: GameMove, streak: nat, minDepth: int, turns: int)
    requires outs != [] && outs[0].Completed? && !IsSentinel(outs[0].alpha)
    requires outs[0].alpha != prevAlpha || !SameSquares(outs[0].move, best)
    ensures Converge(outs, depth, prevAlpha, best, streak, minDepth, turns) ==
      Converge(outs[1..], depth + 1, outs[0].alpha, outs[0].move, 0, minDepth, turns)
  {
  }

  /** Up to depth `minDepth` every completed round resets the count, whatever the values and moves:
      the loop runs through the first `n` such depths without stopping and enters the next with a
      count of 0, carrying the last value and move. */
  lemma {:induction false} EarlyDepthsReset(outs: seq<Outcome>, depth: int, prevAlpha: Score, best: GameMove, streak: nat, minDepth: int, turns: int, n: nat)
    requires 0 < n && depth + n - 1 <= minDepth && Running(outs, n)
    ensures Converge(outs, depth, prevAlpha, best, streak, minDepth, turns) ==
      Converge(outs[n..], depth + n, outs[n - 1].alpha, outs[n - 1].move, 0, minDepth, turns)
    decreases n
  {
    if n > 1 {
      assert Running(outs[1..], n - 1) by {
        forall j | 0 <= j < n - 1 ensures outs[1..][j] == outs[j + 1] { }
      }
      EarlyDepthsReset(outs[1..], depth + 1, outs[0].alpha, outs[0].move, 0, minDepth, turns, n - 1);
      assert outs[1..][n - 1..] == outs[n..] && outs[1..][n - 2] == outs[n - 1];
    }
  }

  /** Each improved player searches its first `minDepth` depths (4 for the improved player, 5 for
      improved_better_h) to the end before the convergence rule can stop it: with several legal
      moves and those depths completed with finite values, its move is what the loop finds from
      depth `minDepth + 1` on, starting with a count of 0. */
  lemma ImprovedPlayersSearchEarlyDepths(minDepth: int, moves: seq<GameMove>, outs: seq<Outcome>, turns: int, k: int)
    requires minDepth == ImprovedPlayerMinDepth || minDepth == ImprovedBetterHMinDepth
    requires |moves| > 1 && Running(outs, minDepth)
    ensures GetMove(Convergent(minDepth), moves, outs, turns, k).move ==
      Converge(outs[minDepth..], minDepth + 1, outs[minDepth - 1].alpha, outs[minDepth - 1].move, 0, minDepth, turns)
  {
    EarlyDepthsReset(outs, 1, NegInf, moves[0], 0, minDepth, turns, minDepth);
  }

  /** `get_move` falls back on the first legal move when no depth completes, for every strategy. */
  lemma FallbackMove(strategy: Strategy, moves: seq<GameMove>, outs: seq<Outcome>, turns: int, k: int)
    requires moves != [] && (outs == [] || outs[0].OutOfTime?)
    ensures GetMove(strategy, moves, outs, turns, k).move == moves[0]
  {
  }
}
