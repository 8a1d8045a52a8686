/**
 * The search bot of src/ai/bot.h and src/ai/bot.cpp: the transposition table built by the
 * constructor, `findBestMove`, the alpha-beta `minimax` and the material count
 * `evaluateBoard`. The move search is proved equal to the abstract `AlphaBeta` of the
 * Search module over the tree of board states whose children are the legal moves, so
 * the theorems proved there carry over to the bot.
 */
module Bots {
  import opened Pieces
  import opened BoardModel
  import opened Boards
  import opened MoveGenerator
  import opened Evaluation
  import opened Search

  // ------------------------------------------------------------ the game tree of boards

  /**
   * The position after a listed move: `Board temp = board; temp.movePiece(...)`. Every
   * listed move is on the board with distinct squares; the else-branch only makes the
   * function total.
   */
  function ChildOf(s: BoardState, m: Move, promotion: char): BoardState
  {
    if MoveOnBoard(m) && (m.fromRow != m.toRow || m.fromCol != m.toCol) then
      MovePieceOutcome(CopyOf(s), m.fromRow, m.fromCol, m.toRow, m.toCol, promotion).after
    else CopyOf(s)
  }

  /** The positions the search visits below s, one per legal move of the side to move, in list order. */
  function Children(s: BoardState, promotion: char): (cs: seq<BoardState>)
    ensures |cs| == |LegalMoves(s, s.turn, promotion)|
    ensures forall i | 0 <= i < |cs| :: cs[i] == ChildOf(s, LegalMoves(s, s.turn, promotion)[i], promotion)
  {
    var ms := LegalMoves(s, s.turn, promotion);
    seq(|ms|, i requires 0 <= i < |ms| => ChildOf(s, ms[i], promotion))
  }

  /** The tree `minimax` searches: children by legal move, leaves valued by `evaluate`. */
  function BoardGame(promotion: char): Game<BoardState>
  {
    Game((s: BoardState) => Children(s, promotion), (s: BoardState) => Score(s.grid))
  }

  /** `evaluate` always fits in the source's `int`, so the pruning theorems apply. */
  lemma BoardValuesFit(promotion: char)
    ensures ValuesFit(BoardGame(promotion))
  {
    forall s: BoardState
      ensures Search.IntMin <= BoardGame(promotion).value(s) <= Search.IntMax
    {
      ScoreBounded(s.grid);
    }
  }

  /** The value `findBestMove` gets back for each root move: a full-window search one ply shallower. */
  function RootValues(s: BoardState, depth: nat, promotion: char): (vs: seq<int>)
    requires depth >= 1
    ensures |vs| == |LegalMoves(s, s.turn, promotion)|
  {
    var cs := Children(s, promotion);
    seq(|cs|, i requires 0 <= i < |cs| => Minimax(BoardGame(promotion), cs[i], depth - 1, false))
  }

  /** The index of the first largest value: the one a strict `value > bestValue` scan keeps. */
  function FirstBest(vs: seq<int>): (i: nat)
    requires |vs| > 0
    ensures i < |vs|
    ensures forall j | 0 <= j < |vs| :: vs[j] <= vs[i]
    ensures forall j | 0 <= j < i :: vs[j] < vs[i]
  {
    if |vs| == 1 then 0
    else
      var k := FirstBest(vs[..|vs| - 1]);
      if vs[k] < vs[|vs| - 1] then |vs| - 1 else k
  }

  /** `best` is the first largest of the first n values. */
  predicate LeadsPrefix(vs: seq<int>, n: nat, best: nat)
  {
    best < n <= |vs| &&
    (forall j | 0 <= j < n :: vs[j] <= vs[best]) &&
    (forall j | 0 <= j < best :: vs[j] < vs[best])
  }

  /** One more value either takes the lead, when strictly larger, or leaves it where it was. */
  lemma LeadsPrefixStep(vs: seq<int>, n: nat, best: nat)
    requires LeadsPrefix(vs, n, best) && n < |vs|
    ensures LeadsPrefix(vs, n + 1, if vs[best] < vs[n] then n else best)
  {
  }

  /** Only one index is the first largest value. */
  lemma FirstBestUnique(vs: seq<int>, i: nat)
    requires LeadsPrefix(vs, |vs|, i)
    ensures FirstBest(vs) == i
  {
  }

  /** The move `findBestMove` chooses is worth exactly the minimax value of the root. */
  lemma RootChoiceIsMinimax(s: BoardState, depth: nat, promotion: char)
    requires depth >= 1 && |LegalMoves(s, s.turn, promotion)| > 0
    ensures var vs := RootValues(s, depth, promotion);
      vs[FirstBest(vs)] == Minimax(BoardGame(promotion), s, depth, true)
  {
    var g := BoardGame(promotion);
    var vs := RootValues(s, depth, promotion);
    var cs := Children(s, promotion);
    assert g.children(s) == cs;
    assert forall j | 0 <= j < |cs| :: vs[j] == Minimax(g, cs[j], depth - 1, false);
    BestIsMaximum(g, cs, |cs|, depth);
    var i := FirstBest(vs);
    var j :| 0 <= j < |cs| && Best(g, cs, |cs|, depth, true) == Minimax(g, cs[j], depth - 1, false);
    assert vs[j] <= vs[i] && vs[i] <= Minimax(g, s, depth, true);
  }

  // ------------------------------------------------------------ the transposition table

  /** `TranspositionEntry`. */
  datatype TranspositionEntry = TranspositionEntry(score: int, depth: int, bestMove: Move, isValid: bool)

  /** `TT_SIZE`. */
  const TtSize: nat := 65536

  /** A value-initialised entry, as `std::vector::resize` creates it. */
  function EmptyEntry(): (e: TranspositionEntry)
    ensures e.score == 0 && e.depth == 0 && e.bestMove == DefaultMove() && !e.isValid
  {
    TranspositionEntry(0, 0, DefaultMove(), false)
  }

  /** The material values `evaluateBoard` adds for White and subtracts for Black. */
  function MaterialTerms(g: Grid): SquareFn
  {
    (r, c) => if OnBoard(r, c) && At(g, r, c).Some? then Signed(At(g, r, c).value.color, PieceValue(At(g, r, c).value.kind)) else 0
  }

  /** `evaluateBoard(board)`: the material balance, White-positive. */
  function Material(g: Grid): int
  {
    SumTo(MaterialTerms(g), 64)
  }

  lemma MaterialStep(g: Grid, r: int, c: int)
    requires OnBoard(r, c)
    ensures SumTo(MaterialTerms(g), Index(r, c + 1)) == SumTo(MaterialTerms(g), Index(r, c)) + MaterialTerms(g)(r, c)
  {
    SumStep(MaterialTerms(g), r, c);
    assert Index(r, c) + 1 == Index(r, c + 1);
  }

  lemma MaterialReflects(g: Grid)
    ensures Reflects(MaterialTerms(Mirror(g)), MaterialTerms(g), true)
  {
    var h := Mirror(g);
    forall r, c | OnBoard(r, c)
      ensures MaterialTerms(h)(r, c) == -MaterialTerms(g)(7 - r, c)
    {
      assert At(h, r, c) == Recolor(At(g, 7 - r, c));
    }
  }

  /** Swapping the colours and mirroring the rows negates the material balance. */
  lemma MaterialMirror(g: Grid)
    ensures Material(Mirror(g)) == -Material(g)
  {
    MaterialReflects(g);
    SumReflected(MaterialTerms(Mirror(g)), MaterialTerms(g), true);
  }

  /** With only the two kings on the board, the material is balanced. */
  lemma MaterialOnlyKings(g: Grid)
    requires forall r, c | OnBoard(r, c) && At(g, r, c).Some? :: At(g, r, c).value.kind == King
    requires forall r, c, r', c' | OnBoard(r, c) && OnBoard(r', c') && At(g, r, c).Some? && At(g, r', c').Some? &&
      At(g, r, c).value.color == At(g, r', c').value.color :: r == r' && c == c'
    requires exists r, c | OnBoard(r, c) :: IsKingOf(At(g, r, c), White)
    requires exists r, c | OnBoard(r, c) :: IsKingOf(At(g, r, c), Black)
    ensures Material(g) == 0
  {
    var wr, wc :| OnBoard(wr, wc) && IsKingOf(At(g, wr, wc), White);
    var br, bc :| OnBoard(br, bc) && IsKingOf(At(g, br, bc), Black);
    OnlyTwoSquares(MaterialTerms(g), wr, wc, br, bc, 64);
  }

  /** A sum whose only non-zero terms are +20000 at one square and -20000 at another. */
  lemma {:induction false} OnlyTwoSquares(f: SquareFn, wr: int, wc: int, br: int, bc: int, k: nat)
    requires k <= 64 && OnBoard(wr, wc) && OnBoard(br, bc) && (wr != br || wc != bc)
    requires f(wr, wc) == 20000 && f(br, bc) == -20000
    requires forall r, c | OnBoard(r, c) && (r != wr || c != wc) && (r != br || c != bc) :: f(r, c) == 0
    ensures SumTo(f, k) == (if Index(wr, wc) < k then 20000 else 0) - (if Index(br, bc) < k then 20000 else 0)
  {
    if k > 0 {
      OnlyTwoSquares(f, wr, wc, br, bc, k - 1);
      var r, c := (k - 1) / 8, (k - 1) % 8;
      assert OnBoard(r, c) && Index(r, c) == k - 1;
      if Index(wr, wc) == k - 1 {
        IndexInjective(r, c, wr, wc);
      } else if Index(br, bc) == k - 1 {
        IndexInjective(r, c, br, bc);
      }
    }
  }

  // ------------------------------------------------------------ the bot

  class Bot {
    var transpositionTable: array<TranspositionEntry>
    var nodesSearched: int
    var ttHits: int

    /** `Bot()`: zero counters and `TT_SIZE` entries, each marked invalid. */
    constructor ()
      ensures fresh(transpositionTable) && transpositionTable.Length == TtSize
      ensures forall i | 0 <= i < TtSize :: transpositionTable[i] == EmptyEntry()
      ensures nodesSearched == 0 && ttHits == 0
    {
      nodesSearched := 0;
      ttHits := 0;
      var table := new TranspositionEntry[TtSize](_ => EmptyEntry());
      for i := 0 to TtSize
        invariant forall j | 0 <= j < TtSize :: table[j] == EmptyEntry()
      {
        table[i] := table[i].(isValid := false);
      }
      transpositionTable := table;
    }

    /**
     * `minimax(board, depth, alpha, beta, maximizingPlayer)`: the fail-soft alpha-beta
     * search, with each child searched on a fresh copy of the board. The board itself is
     * only read.
     */
    method Minimax(board: Board, depth: int, alpha: int, beta: int, maximizingPlayer: bool, promotion: char)
      returns (value: int)
      requires depth >= 0
      ensures value == AlphaBeta(BoardGame(promotion), board.State(), depth, alpha, beta, maximizingPlayer)
      decreases depth, 3
    {
      ghost var game := BoardGame(promotion);
      ghost var s := board.State();
      if depth == 0 {
        value := Evaluate(board);
        return;
      }
      var moves := GenerateLegalMoves(board, board.currentTurn, promotion);
      ghost var cs := Children(s, promotion);
      assert game.children(s) == cs;
      if |moves| == 0 {
        value := Evaluate(board);
        return;
      }
      if maximizingPlayer {
        value := MaxLoopSearch(board, moves, depth, alpha, beta, promotion);
      } else {
        value := MinLoopSearch(board, moves, depth, alpha, beta, promotion);
      }
    }

    /**
     * One child of the loops: `Board temp = board; temp.movePiece(...)`, then the search
     * one ply down on the copy.
     */
    method SearchChild(board: Board, moves: seq<Move>, i: int, depth: int, alpha: int, beta: int, maximizingPlayer: bool,
                       promotion: char, ghost game: Game<BoardState>, ghost cs: seq<BoardState>)
      returns (eval: int)
      requires moves == LegalMoves(board.State(), board.currentTurn, promotion) && 0 <= i < |moves| && depth >= 0
      requires game == BoardGame(promotion) && cs == Children(board.State(), promotion)
      ensures i < |cs| && eval == ChildSearch(game, cs, i, depth, alpha, beta, maximizingPlayer)
      decreases depth, 4
    {
      var m := moves[i];
      LegalMovesSound(board.State(), board.currentTurn, promotion, m);
      var temp := new Board.Copy(board);
      var _ := temp.MovePiece(m.fromRow, m.fromCol, m.toRow, m.toCol, promotion);
      eval := Minimax(temp, depth, alpha, beta, maximizingPlayer, promotion);
    }

    /**
     * One turn of the maximising loop of `minimax`: search the next child, raise `maxEval`
     * and `alpha`, and report whether the window has closed.
     */
    method MaxTurn(board: Board, moves: seq<Move>, i: int, depth: int, alpha: int, beta: int, maxEval: int,
                   promotion: char, ghost game: Game<BoardState>, ghost cs: seq<BoardState>, ghost goal: int)
      returns (alpha': int, maxEval': int, cutoff: bool)
      requires depth >= 1 && moves == LegalMoves(board.State(), board.currentTurn, promotion) && 0 <= i < |moves|
      requires game == BoardGame(promotion) && cs == Children(board.State(), promotion)
      requires MaxLoop(game, cs, i, depth, alpha, beta, maxEval) == goal
      ensures cutoff ==> maxEval' == goal
      ensures !cutoff ==> MaxLoop(game, cs, i + 1, depth, alpha', beta, maxEval') == goal
      decreases depth, 1
    {
      var eval := SearchChild(board, moves, i, depth - 1, alpha, beta, false, promotion, game, cs);
      MaxLoopStep(game, cs, i, depth, alpha, beta, maxEval, eval, goal);
      maxEval' := Max(maxEval, eval);
      alpha' := Max(alpha, eval);
      cutoff := beta <= alpha';
    }

    /** The maximising loop of `minimax`: `maxEval` from INT_MIN, raising `alpha`, cut off once `beta <= alpha`. */
    method MaxLoopSearch(board: Board, moves: seq<Move>, depth: int, alpha: int, beta: int, promotion: char)
      returns (maxEval: int)
      requires depth >= 1 && moves == LegalMoves(board.State(), board.currentTurn, promotion)
      ensures maxEval == MaxLoop(BoardGame(promotion), Children(board.State(), promotion), 0, depth, alpha, beta, Search.IntMin)
      decreases depth, 2
    {
      ghost var game := BoardGame(promotion);
      ghost var cs := Children(board.State(), promotion);
      ghost var goal := MaxLoop(game, cs, 0, depth, alpha, beta, Search.IntMin);
      var a := alpha;
      maxEval := Search.IntMin;
      var i := 0;
      while i < |moves|
        invariant 0 <= i <= |moves|
        invariant MaxLoop(game, cs, i, depth, a, beta, maxEval) == goal
      {
        var cutoff;
        a, maxEval, cutoff := MaxTurn(board, moves, i, depth, a, beta, maxEval, promotion, game, cs, goal);
        if cutoff {
          return;
        }
        i := i + 1;
      }
    }

    /**
     * One turn of the minimising loop of `minimax`: search the next child, lower `minEval`
     * and `beta`, and report whether the window has closed.
     */
    method MinTurn(board: Board, moves: seq<Move>, i: int, depth: int, alpha: int, beta: int, minEval: int,
                   promotion: char, ghost game: Game<BoardState>, ghost cs: seq<BoardState>, ghost goal: int)
      returns (beta': int, minEval': int, cutoff: bool)
      requires depth >= 1 && moves == LegalMoves(board.State(), board.currentTurn, promotion) && 0 <= i < |moves|
      requires game == BoardGame(promotion) && cs == Children(board.State(), promotion)
      requires MinLoop(game, cs, i, depth, alpha, beta, minEval) == goal
      ensures cutoff ==> minEval' == goal
      ensures !cutoff ==> MinLoop(game, cs, i + 1, depth, alpha, beta', minEval') == goal
      decreases depth, 1
    {
      var eval := SearchChild(board, moves, i, depth - 1, alpha, beta, true, promotion, game, cs);
      MinLoopStep(game, cs, i, depth, alpha, beta, minEval, eval, goal);
      minEval' := Min(minEval, eval);
      beta' := Min(beta, eval);
      cutoff := beta' <= alpha;
    }

    /** The minimising loop of `minimax`: `minEval` from INT_MAX, lowering `beta`, cut off once `beta <= alpha`. */
    method MinLoopSearch(board: Board, moves: seq<Move>, depth: int, alpha: int, beta: int, promotion: char)
      returns (minEval: int)
      requires depth >= 1 && moves == LegalMoves(board.State(), board.currentTurn, promotion)
      ensures minEval == MinLoop(BoardGame(promotion), Children(board.State(), promotion), 0, depth, alpha, beta, Search.IntMax)
      decreases depth, 2
    {
      ghost var game := BoardGame(promotion);
      ghost var cs := Children(board.State(), promotion);
      ghost var goal := MinLoop(game, cs, 0, depth, alpha, beta, Search.IntMax);
      var b := beta;
      minEval := Search.IntMax;
      var i := 0;
      while i < |moves|
        invariant 0 <= i <= |moves|
        invariant MinLoop(game, cs, i, depth, alpha, b, minEval) == goal
      {
        var cutoff;
        b, minEval, cutoff := MinTurn(board, moves, i, depth, alpha, b, minEval, promotion, game, cs, goal);
        if cutoff {
          return;
        }
        i := i + 1;
      }
    }

    /**
     * The root's search of one move in `findBestMove`: a full window `[INT_MIN, INT_MAX]`
     * one ply down, which is the plain minimax value of that child.
     */
    method RootSearch(board: Board, moves: seq<Move>, i: int, depth: int, promotion: char) returns (value: int)
      requires depth >= 1 && moves == LegalMoves(board.State(), board.currentTurn, promotion) && 0 <= i < |moves|
      ensures var vs := RootValues(board.State(), depth, promotion); i < |vs| && value == vs[i]
      ensures Search.IntMin <= value <= Search.IntMax
    {
      ghost var game := BoardGame(promotion);
      ghost var cs := Children(board.State(), promotion);
      BoardValuesFit(promotion);
      value := SearchChild(board, moves, i, depth - 1, Search.IntMin, Search.IntMax, false, promotion, game, cs);
      FullWindowIsMinimax(game, cs[i], depth - 1, false);
      MinimaxFits(game, cs[i], depth - 1, false);
    }

    /**
     * `findBestMove(board, depth)`: the first legal move whose full-window search one ply
     * down scores highest; `None` where the source throws "No legal moves available".
     */
    method FindBestMove(board: Board, depth: int, promotion: char) returns (r: Option<Move>)
      requires depth >= 1
      ensures var moves := LegalMoves(board.State(), board.State().turn, promotion);
        r == if |moves| == 0 then None else Some(moves[FirstBest(RootValues(board.State(), depth, promotion))])
    {
      ghost var s := board.State();
      var moves := GenerateLegalMoves(board, board.currentTurn, promotion);
      if |moves| == 0 {
        return None;
      }
      ghost var vs := RootValues(s, depth, promotion);
      var bestValue := Search.IntMin;
      var bestMove := moves[0];
      ghost var best := 0;
      for i := 0 to |moves|
        invariant 0 <= best < |moves| && bestMove == moves[best]
        invariant i == 0 ==> best == 0 && bestValue == Search.IntMin
        invariant i > 0 ==> LeadsPrefix(vs, i, best) && bestValue == vs[best]
      {
        var value := RootSearch(board, moves, i, depth, promotion);
        if i > 0 {
          LeadsPrefixStep(vs, i, best);
        }
        if value > bestValue {
          bestValue := value;
          bestMove := moves[i];
          best := i;
        }
      }
      FirstBestUnique(vs, best);
      r := Some(bestMove);
    }

    /** `evaluateBoard(board)`: the material sum over the squares, row by row. */
    method EvaluateBoard(board: Board) returns (score: int)
      ensures score == Material(board.grid)
    {
      score := 0;
      for row := 0 to 8
        invariant score == SumTo(MaterialTerms(board.grid), Index(row, 0))
      {
        for col := 0 to 8
          invariant score == SumTo(MaterialTerms(board.grid), Index(row, col))
        {
          MaterialStep(board.grid, row, col);
          var square := board.grid[row][col];
          if square.None? {
            continue;
          }
          var piece := square.value;
          var value := PieceValue(piece.kind);
          if piece.color == White {
            score := score + value;
          } else {
            score := score - value;
          }
        }
        assert Index(row, 8) == Index(row + 1, 0);
      }
    }
  }
}
