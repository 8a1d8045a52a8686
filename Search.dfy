/**
 * Game-tree search in the abstract: a position has an ordered list of children and a
 * static value. `Minimax` is the plain definition; `AlphaBeta` is the fail-soft pruning
 * loop of `Bot::minimax` (src/ai/bot.cpp), written over the same tree. The theorems say
 * that pruning never changes the answer the full window asks for.
 */
module Search {

  /** The bounds of the source's 32-bit `int`, the initial `maxEval`/`minEval` and the root window. */
  const IntMin: int := -0x8000_0000
  const IntMax: int := 0x7fff_ffff

  /** A game tree: the positions reachable in one move, in generation order, and the static value of a position. */
  datatype Game<!S> = Game(children: S -> seq<S>, value: S -> int)

  /** Every static value fits in the source's `int`. */
  ghost predicate ValuesFit<S(!new)>(g: Game<S>)
  {
    forall s :: IntMin <= g.value(s) <= IntMax
  }

  function Max(a: int, b: int): int { if a < b then b else a }
  function Min(a: int, b: int): int { if a < b then a else b }

  // ------------------------------------------------------------ plain minimax

  /** The minimax value to the given depth: a leaf (depth 0 or no children) is valued statically. */
  function Minimax<S>(g: Game<S>, s: S, depth: nat, maximizing: bool): int
    decreases depth, 1
  {
    var cs := g.children(s);
    if depth == 0 || |cs| == 0 then g.value(s)
    else Best(g, cs, |cs|, depth, maximizing)
  }

  /** The best, for the side choosing, of the first n children's values one level down. */
  function Best<S>(g: Game<S>, cs: seq<S>, n: nat, depth: nat, maximizing: bool): int
    requires 1 <= n <= |cs| && depth >= 1
    decreases depth, 0, n
  {
    var v := Minimax(g, cs[n - 1], depth - 1, !maximizing);
    if n == 1 then v
    else if maximizing then Max(Best(g, cs, n - 1, depth, maximizing), v)
    else Min(Best(g, cs, n - 1, depth, maximizing), v)
  }

  // ------------------------------------------------------------ the pruning search

  /** `minimax(board, depth, alpha, beta, maximizingPlayer)`. */
  function AlphaBeta<S>(g: Game<S>, s: S, depth: nat, alpha: int, beta: int, maximizing: bool): int
    decreases depth, 1
  {
    var cs := g.children(s);
    if depth == 0 || |cs| == 0 then g.value(s)
    else if maximizing then MaxLoop(g, cs, 0, depth, alpha, beta, IntMin)
    else MinLoop(g, cs, 0, depth, alpha, beta, IntMax)
  }

  /** The maximising loop from child i on, with the running `alpha` and `maxEval`. */
  function MaxLoop<S>(g: Game<S>, cs: seq<S>, i: nat, depth: nat, alpha: int, beta: int, best: int): int
    requires i <= |cs| && depth >= 1
    decreases depth, 0, |cs| - i
  {
    if i == |cs| then best
    else
      var eval := AlphaBeta(g, cs[i], depth - 1, alpha, beta, false);
      var best', alpha' := Max(best, eval), Max(alpha, eval);
      if beta <= alpha' then best' else MaxLoop(g, cs, i + 1, depth, alpha', beta, best')
  }

  /** The minimising loop from child i on, with the running `beta` and `minEval`. */
  function MinLoop<S>(g: Game<S>, cs: seq<S>, i: nat, depth: nat, alpha: int, beta: int, best: int): int
    requires i <= |cs| && depth >= 1
    decreases depth, 0, |cs| - i
  {
    if i == |cs| then best
    else
      var eval := AlphaBeta(g, cs[i], depth - 1, alpha, beta, true);
      var best', beta' := Min(best, eval), Min(beta, eval);
      if beta' <= alpha then best' else MinLoop(g, cs, i + 1, depth, alpha, beta', best')
  }

  /** The search of child i one ply down, as the loops call it. */
  function ChildSearch<S>(g: Game<S>, cs: seq<S>, i: nat, depth: nat, alpha: int, beta: int, maximizing: bool): int
    requires i < |cs|
  {
    AlphaBeta(g, cs[i], depth, alpha, beta, maximizing)
  }

  /** One turn of the maximising loop, given the child's search result. */
  lemma MaxLoopStep<S>(g: Game<S>, cs: seq<S>, i: nat, depth: nat, alpha: int, beta: int, best: int, eval: int, goal: int)
    requires i < |cs| && depth >= 1 && MaxLoop(g, cs, i, depth, alpha, beta, best) == goal
    requires eval == ChildSearch(g, cs, i, depth - 1, alpha, beta, false)
    ensures beta <= Max(alpha, eval) ==> Max(best, eval) == goal
    ensures beta > Max(alpha, eval) ==> MaxLoop(g, cs, i + 1, depth, Max(alpha, eval), beta, Max(best, eval)) == goal
  {
  }

  /** One turn of the minimising loop, given the child's search result. */
  lemma MinLoopStep<S>(g: Game<S>, cs: seq<S>, i: nat, depth: nat, alpha: int, beta: int, best: int, eval: int, goal: int)
    requires i < |cs| && depth >= 1 && MinLoop(g, cs, i, depth, alpha, beta, best) == goal
    requires eval == ChildSearch(g, cs, i, depth - 1, alpha, beta, true)
    ensures Min(beta, eval) <= alpha ==> Min(best, eval) == goal
    ensures Min(beta, eval) > alpha ==> MinLoop(g, cs, i + 1, depth, alpha, Min(beta, eval), Min(best, eval)) == goal
  {
  }

  // ------------------------------------------------------------ what pruning preserves

  /**
   * The fail-soft guarantee of a search result r for true value v in the window (alpha, beta):
   * exact inside the window, and on the correct side of it, no further than v, outside.
   */
  predicate FailSoft(r: int, v: int, alpha: int, beta: int)
  {
    && (v <= alpha ==> v <= r <= alpha)
    && (alpha < v < beta ==> r == v)
    && (beta <= v ==> beta <= r <= v)
  }

  /** Minimax values stay within the source's `int` when the static values do. */
  lemma {:induction false} MinimaxFits<S(!new)>(g: Game<S>, s: S, depth: nat, maximizing: bool)
    requires ValuesFit(g)
    ensures IntMin <= Minimax(g, s, depth, maximizing) <= IntMax
    decreases depth, 1
  {
    var cs := g.children(s);
    if depth > 0 && |cs| > 0 {
      BestFits(g, cs, |cs|, depth, maximizing);
    }
  }

  lemma {:induction false} BestFits<S(!new)>(g: Game<S>, cs: seq<S>, n: nat, depth: nat, maximizing: bool)
    requires ValuesFit(g) && 1 <= n <= |cs| && depth >= 1
    ensures IntMin <= Best(g, cs, n, depth, maximizing) <= IntMax
    decreases depth, 0, n
  {
    MinimaxFits(g, cs[n - 1], depth - 1, !maximizing);
    if n > 1 {
      BestFits(g, cs, n - 1, depth, maximizing);
    }
  }

  /** A longer prefix is at least as good for the side choosing. */
  lemma {:induction false} BestMonotone<S>(g: Game<S>, cs: seq<S>, m: nat, n: nat, depth: nat, maximizing: bool)
    requires 1 <= m <= n <= |cs| && depth >= 1
    ensures maximizing ==> Best(g, cs, m, depth, maximizing) <= Best(g, cs, n, depth, maximizing)
    ensures !maximizing ==> Best(g, cs, n, depth, maximizing) <= Best(g, cs, m, depth, maximizing)
    decreases n
  {
    if m < n {
      BestMonotone(g, cs, m, n - 1, depth, maximizing);
    }
  }

  /** For the maximising side, `Best` is the largest child value, and some child attains it. */
  lemma {:induction false} BestIsMaximum<S>(g: Game<S>, cs: seq<S>, n: nat, depth: nat)
    requires 1 <= n <= |cs| && depth >= 1
    ensures forall j | 0 <= j < n :: Minimax(g, cs[j], depth - 1, false) <= Best(g, cs, n, depth, true)
    ensures exists j | 0 <= j < n :: Best(g, cs, n, depth, true) == Minimax(g, cs[j], depth - 1, false)
    decreases n
  {
    var v := Minimax(g, cs[n - 1], depth - 1, false);
    if n == 1 {
      assert Best(g, cs, n, depth, true) == Minimax(g, cs[0], depth - 1, false);
    } else {
      BestIsMaximum(g, cs, n - 1, depth);
      var j :| 0 <= j < n - 1 && Best(g, cs, n - 1, depth, true) == Minimax(g, cs[j], depth - 1, false);
      if Best(g, cs, n - 1, depth, true) < v {
        assert Best(g, cs, n, depth, true) == Minimax(g, cs[n - 1], depth - 1, false);
      } else {
        assert Best(g, cs, n, depth, true) == Minimax(g, cs[j], depth - 1, false);
      }
    }
  }

  /** The value of the children seen so far, `IntMin` (maximising) or `IntMax` (minimising) before any. */
  function SeenSoFar<S>(g: Game<S>, cs: seq<S>, i: nat, depth: nat, maximizing: bool): int
    requires i <= |cs| && depth >= 1
  {
    if i == 0 then (if maximizing then IntMin else IntMax) else Best(g, cs, i, depth, maximizing)
  }

  /** The main theorem: the pruning search keeps the fail-soft guarantee for any window inside the `int` range. */
  lemma {:induction false} AlphaBetaFailSoft<S(!new)>(g: Game<S>, s: S, depth: nat, alpha: int, beta: int, maximizing: bool)
    requires ValuesFit(g) && IntMin <= alpha < beta <= IntMax
    ensures FailSoft(AlphaBeta(g, s, depth, alpha, beta, maximizing), Minimax(g, s, depth, maximizing), alpha, beta)
    decreases depth, 1
  {
    var cs := g.children(s);
    if depth > 0 && |cs| > 0 {
      if maximizing {
        MaxLoopFailSoft(g, cs, 0, depth, alpha, alpha, beta, IntMin);
      } else {
        MinLoopFailSoft(g, cs, 0, depth, alpha, beta, beta, IntMax);
      }
    }
  }

  lemma {:induction false} MaxLoopFailSoft<S(!new)>(g: Game<S>, cs: seq<S>, i: nat, depth: nat,
                                                   alpha0: int, alpha: int, beta: int, best: int)
    requires ValuesFit(g) && i < |cs| && depth >= 1
    requires IntMin <= alpha0 < beta <= IntMax && IntMin <= best < beta && alpha == Max(alpha0, best)
    requires FailSoft(best, SeenSoFar(g, cs, i, depth, true), alpha0, beta)
    ensures FailSoft(MaxLoop(g, cs, i, depth, alpha, beta, best), Best(g, cs, |cs|, depth, true), alpha0, beta)
    decreases depth, 0, |cs| - i
  {
    var eval := AlphaBeta(g, cs[i], depth - 1, alpha, beta, false);
    var v := Minimax(g, cs[i], depth - 1, false);
    AlphaBetaFailSoft(g, cs[i], depth - 1, alpha, beta, false);
    MinimaxFits(g, cs[i], depth - 1, false);
    if i > 0 {
      BestFits(g, cs, i, depth, true);
    }
    assert Best(g, cs, i + 1, depth, true) == Max(SeenSoFar(g, cs, i, depth, true), v);
    var best', alpha' := Max(best, eval), Max(alpha, eval);
    assert FailSoft(best', Best(g, cs, i + 1, depth, true), alpha0, beta);
    if beta <= alpha' {
      BestMonotone(g, cs, i + 1, |cs|, depth, true);
    } else if i + 1 < |cs| {
      MaxLoopFailSoft(g, cs, i + 1, depth, alpha0, alpha', beta, best');
    }
  }

  lemma {:induction false} MinLoopFailSoft<S(!new)>(g: Game<S>, cs: seq<S>, i: nat, depth: nat,
                                                   alpha: int, beta0: int, beta: int, best: int)
    requires ValuesFit(g) && i < |cs| && depth >= 1
    requires IntMin <= alpha < beta0 <= IntMax && alpha < best <= IntMax && beta == Min(beta0, best)
    requires FailSoft(best, SeenSoFar(g, cs, i, depth, false), alpha, beta0)
    ensures FailSoft(MinLoop(g, cs, i, depth, alpha, beta, best), Best(g, cs, |cs|, depth, false), alpha, beta0)
    decreases depth, 0, |cs| - i
  {
    var eval := AlphaBeta(g, cs[i], depth - 1, alpha, beta, true);
    var v := Minimax(g, cs[i], depth - 1, true);
    AlphaBetaFailSoft(g, cs[i], depth - 1, alpha, beta, true);
    MinimaxFits(g, cs[i], depth - 1, true);
    if i > 0 {
      BestFits(g, cs, i, depth, false);
    }
    assert Best(g, cs, i + 1, depth, false) == Min(SeenSoFar(g, cs, i, depth, false), v);
    var best', beta' := Min(best, eval), Min(beta, eval);
    assert FailSoft(best', Best(g, cs, i + 1, depth, false), alpha, beta0);
    if beta' <= alpha {
      BestMonotone(g, cs, i + 1, |cs|, depth, false);
    } else if i + 1 < |cs| {
      MinLoopFailSoft(g, cs, i + 1, depth, alpha, beta0, beta', best');
    }
  }

  /** With the root window (`INT_MIN`, `INT_MAX`) the pruning search returns exactly the minimax value. */
  lemma FullWindowIsMinimax<S(!new)>(g: Game<S>, s: S, depth: nat, maximizing: bool)
    requires ValuesFit(g)
    ensures AlphaBeta(g, s, depth, IntMin, IntMax, maximizing) == Minimax(g, s, depth, maximizing)
  {
    AlphaBetaFailSoft(g, s, depth, IntMin, IntMax, maximizing);
    MinimaxFits(g, s, depth, maximizing);
  }
}
