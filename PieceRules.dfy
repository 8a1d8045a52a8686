// Per-piece move legality (src/core/pawn.cpp, knight.cpp, bishop.cpp, rook.cpp,
// queen.cpp, king.cpp). Each rule reads the grid and never changes it.

module PieceRules {
  import opened Pieces

  /** White pawns advance toward row 0, Black pawns toward row 7. */
  function Direction(color: Color): (d: int)
    ensures d == -1 || d == 1
    ensures d == -1 <==> color == White
  {
    if color == White then -1 else 1
  }

  /** The row a pawn of this colour starts on, from which it may advance two squares. */
  function StartRow(color: Color): (r: int)
    ensures OnBoard(r, 0)
    ensures color == White ==> r == 6
    ensures color == Black ==> r == 1
  {
    if color == White then 6 else 1
  }

  /** The k-th square from a toward b along one axis. */
  function Toward(a: int, b: int, k: int): (x: int)
    ensures 0 <= k <= Abs(b - a) ==> (a <= x <= b || b <= x <= a)
    ensures 0 < k < Abs(b - a) ==> x != a && x != b
  {
    if b > a then a + k else a - k
  }

  // ---------------------------------------------------------------- pawn

  /** `Pawn::isValidMove`. */
  predicate PawnMove(color: Color, g: Grid, fr: int, fc: int, tr: int, tc: int)
    requires OnBoard(fr, fc) && OnBoard(tr, tc)
    ensures PawnMove(color, g, fr, fc, tr, tc) ==>
      tr - fr == Direction(color) || (tr - fr == 2 * Direction(color) && fr == StartRow(color))
    ensures PawnMove(color, g, fr, fc, tr, tc) && tc == fc ==> At(g, tr, tc).None?
    ensures PawnMove(color, g, fr, fc, tr, tc) && tr - fr == 2 * Direction(color) ==>
      tc == fc && At(g, fr + Direction(color), fc).None?
    ensures PawnMove(color, g, fr, fc, tr, tc) && tc != fc ==>
      Abs(tc - fc) == 1 && tr - fr == Direction(color) && IsPieceOf(At(g, tr, tc), Opponent(color))
  {
    var dir := Direction(color);
    var rowDiff := tr - fr;
    var colDiff := tc - fc;
    (colDiff == 0 && rowDiff == dir && At(g, tr, tc).None?)
    || (colDiff == 0 && fr == StartRow(color) && rowDiff == 2 * dir
        && At(g, fr + dir, fc).None? && At(g, tr, tc).None?)
    || (Abs(colDiff) == 1 && rowDiff == dir && At(g, tr, tc).Some? && At(g, tr, tc).value.color != color)
  }

  /**
   * `Pawn::canEnPassant`: one step diagonally forward onto an empty square, just after an
   * opposing pawn moved two rows and ended beside this pawn, on the destination's column.
   */
  predicate CanEnPassant(color: Color, g: Grid, fr: int, fc: int, tr: int, tc: int, last: Move)
    requires OnBoard(fr, fc) && OnBoard(tr, tc)
  {
    && tr - fr == Direction(color)
    && Abs(tc - fc) == 1
    && At(g, tr, tc).None?
    && last.pieceMoved.Some?
    && last.pieceMoved.value.color != color
    && last.pieceMoved.value.kind == Pawn
    && Abs(last.toRow - last.fromRow) == 2
    && last.toRow == fr
    && last.toCol == tc
  }

  // ---------------------------------------------------------------- knight

  /** `Knight::isValidMove`: no intervening square is ever inspected. */
  predicate KnightMove(color: Color, g: Grid, fr: int, fc: int, tr: int, tc: int)
    requires OnBoard(fr, fc) && OnBoard(tr, tc)
    ensures KnightMove(color, g, fr, fc, tr, tc) ==> EmptyOrEnemy(g, tr, tc, color)
  {
    var dRow := Abs(tr - fr);
    var dCol := Abs(tc - fc);
    ((dRow == 2 && dCol == 1) || (dRow == 1 && dCol == 2)) && EmptyOrEnemy(g, tr, tc, color)
  }

  // ---------------------------------------------------------------- bishop

  /** Every square strictly between the two ends of a diagonal is empty. */
  predicate DiagonalClear(g: Grid, fr: int, fc: int, tr: int, tc: int)
    requires OnBoard(fr, fc) && OnBoard(tr, tc) && Abs(tr - fr) == Abs(tc - fc)
  {
    forall k | 0 < k < Abs(tr - fr) :: At(g, Toward(fr, tr, k), Toward(fc, tc, k)).None?
  }

  /** `Bishop::isValidMove`, defined for distinct squares only. */
  predicate BishopMove(color: Color, g: Grid, fr: int, fc: int, tr: int, tc: int)
    requires OnBoard(fr, fc) && OnBoard(tr, tc) && (fr != tr || fc != tc)
    ensures BishopMove(color, g, fr, fc, tr, tc) ==> Abs(tr - fr) == Abs(tc - fc) && EmptyOrEnemy(g, tr, tc, color)
  {
    Abs(tr - fr) == Abs(tc - fc) && DiagonalClear(g, fr, fc, tr, tc) && EmptyOrEnemy(g, tr, tc, color)
  }

  /** The loop of `Bishop::isValidMove`: cursors walk the diagonal from `from` toward `to`. */
  method BishopIsValidMove(color: Color, g: Grid, fr: int, fc: int, tr: int, tc: int) returns (valid: bool)
    requires OnBoard(fr, fc) && OnBoard(tr, tc) && (fr != tr || fc != tc)
    ensures valid == BishopMove(color, g, fr, fc, tr, tc)
  {
    var dRow := Abs(tr - fr);
    var dCol := Abs(tc - fc);
    if dRow != dCol {
      return false;
    }
    var rowDirection := if tr > fr then 1 else -1;
    var colDirection := if tc > fc then 1 else -1;
    var row := fr + rowDirection;
    var col := fc + colDirection;
    ghost var k := 1;
    while row != tr && col != tc
      invariant 1 <= k <= dRow
      invariant row == Toward(fr, tr, k) && col == Toward(fc, tc, k)
      invariant forall j | 0 < j < k :: At(g, Toward(fr, tr, j), Toward(fc, tc, j)).None?
      decreases dRow - k
    {
      if At(g, row, col).Some? {
        return false;
      }
      row := row + rowDirection;
      col := col + colDirection;
      k := k + 1;
    }
    valid := EmptyOrEnemy(g, tr, tc, color);
  }

  // ---------------------------------------------------------------- rook

  /** Every square of row r strictly between columns c1 and c2 is empty. */
  predicate RowClear(g: Grid, r: int, c1: int, c2: int)
    requires OnBoard(r, c1) && OnBoard(r, c2)
  {
    forall c | 0 <= c < 8 && (c1 < c < c2 || c2 < c < c1) :: At(g, r, c).None?
  }

  /** Every square of column c strictly between rows r1 and r2 is empty. */
  predicate ColumnClear(g: Grid, c: int, r1: int, r2: int)
    requires OnBoard(r1, c) && OnBoard(r2, c)
  {
    forall r | 0 <= r < 8 && (r1 < r < r2 || r2 < r < r1) :: At(g, r, c).None?
  }

  /** The plain orthogonal rule: along a row or a column, clear path, non-friendly end. */
  predicate OrthogonalMove(color: Color, g: Grid, fr: int, fc: int, tr: int, tc: int)
    requires OnBoard(fr, fc) && OnBoard(tr, tc)
  {
    || (fr == tr && RowClear(g, fr, fc, tc) && EmptyOrEnemy(g, tr, tc, color))
    || (fc == tc && ColumnClear(g, fc, fr, tr) && EmptyOrEnemy(g, tr, tc, color))
  }

  /**
   * The castling clause at the top of `Rook::isValidMove`: a two-column move along a row
   * whose one middle square is empty is accepted when the FROM square holds a king whose
   * base flag is clear and the corner on the destination's side holds a rook of either
   * colour (a rook's own flag is always false).
   */
  predicate RookCastlingClause(g: Grid, fr: int, fc: int, tr: int, tc: int)
    requires OnBoard(fr, fc) && OnBoard(tr, tc)
  {
    && fr == tr
    && (tc == fc + 2 || tc == fc - 2)
    && At(g, fr, Toward(fc, tc, 1)).None?
    && IsKindOf(At(g, fr, fc), King)
    && !At(g, fr, fc).value.baseMoved
    && IsKindOf(At(g, fr, if tc > fc then 7 else 0), Rook)
  }

  /** `Rook::isValidMove`, defined for distinct squares only. */
  predicate RookMove(color: Color, g: Grid, fr: int, fc: int, tr: int, tc: int)
    requires OnBoard(fr, fc) && OnBoard(tr, tc) && (fr != tr || fc != tc)
  {
    RookCastlingClause(g, fr, fc, tr, tc) || OrthogonalMove(color, g, fr, fc, tr, tc)
  }

  /** The loops of `Rook::isValidMove`, castling clause first, then row, then column. */
  method RookIsValidMove(color: Color, g: Grid, fr: int, fc: int, tr: int, tc: int) returns (valid: bool)
    requires OnBoard(fr, fc) && OnBoard(tr, tc) && (fr != tr || fc != tc)
    ensures valid == RookMove(color, g, fr, fc, tr, tc)
  {
    if fr == tr && (tc == fc + 2 || tc == fc - 2) {
      var step := if tc > fc then 1 else -1;
      var col := fc + step;
      while col != tc
        invariant col == fc + step || col == tc
        invariant col == tc ==> At(g, fr, fc + step).None?
        decreases if col == tc then 0 else 1
      {
        if At(g, fr, col).Some? {
          return false;
        }
        col := col + step;
      }
      if IsKindOf(At(g, fr, fc), King) && !At(g, fr, fc).value.baseMoved {
        var rookCol := if tc > fc then 7 else 0;
        if IsKindOf(At(g, fr, rookCol), Rook) {
          return true;
        }
      }
    }
    if fr == tr {
      var step := if tc > fc then 1 else -1;
      var col := fc + step;
      while col != tc
        invariant Toward(fc, tc, 1) == fc + step
        invariant if tc > fc then fc < col <= tc else tc <= col < fc
        invariant forall c | (fc < c < col || col < c < fc) :: At(g, fr, c).None?
        decreases Abs(tc - col)
      {
        if At(g, fr, col).Some? {
          return false;
        }
        col := col + step;
      }
      if EmptyOrEnemy(g, tr, tc, color) {
        return true;
      }
    }
    if fc == tc {
      var step := if tr > fr then 1 else -1;
      var row := fr + step;
      while row != tr
        invariant if tr > fr then fr < row <= tr else tr <= row < fr
        invariant forall r | (fr < r < row || row < r < fr) :: At(g, r, fc).None?
        decreases Abs(tr - row)
      {
        if At(g, row, fc).Some? {
          return false;
        }
        row := row + step;
      }
      if EmptyOrEnemy(g, tr, tc, color) {
        return true;
      }
    }
    return false;
  }

  // ---------------------------------------------------------------- queen

  /** `Queen::isValidMove`: a same-coloured rook or a same-coloured bishop could make it. */
  predicate QueenMove(color: Color, g: Grid, fr: int, fc: int, tr: int, tc: int)
    requires OnBoard(fr, fc) && OnBoard(tr, tc) && (fr != tr || fc != tc)
  {
    RookMove(color, g, fr, fc, tr, tc) || BishopMove(color, g, fr, fc, tr, tc)
  }

  /** `Queen::isValidMove` as the source runs it: a temporary rook, then a temporary bishop. */
  method QueenIsValidMove(color: Color, g: Grid, fr: int, fc: int, tr: int, tc: int) returns (valid: bool)
    requires OnBoard(fr, fc) && OnBoard(tr, tc) && (fr != tr || fc != tc)
    ensures valid == QueenMove(color, g, fr, fc, tr, tc)
  {
    valid := RookIsValidMove(color, g, fr, fc, tr, tc);
    if !valid {
      valid := BishopIsValidMove(color, g, fr, fc, tr, tc);
    }
  }

  // ---------------------------------------------------------------- king

  /**
   * `King::isValidMove`: one step in any direction onto an empty or enemy square, or two
   * columns along the row onto an empty square when the king's own (uninitialised) base
   * flag is clear and the corner on that side holds a rook of either colour.
   */
  predicate KingMove(king: Piece, g: Grid, fr: int, fc: int, tr: int, tc: int)
    requires OnBoard(fr, fc) && OnBoard(tr, tc)
  {
    var dRow := Abs(tr - fr);
    var dCol := Abs(tc - fc);
    if (dRow == 1 && dCol <= 1) || (dRow <= 1 && dCol == 1) then
      EmptyOrEnemy(g, tr, tc, king.color)
    else
      && !king.baseMoved
      && At(g, tr, tc).None?
      && tr == fr
      && (tc == fc + 2 || tc == fc - 2)
      && IsKindOf(At(g, fr, if tc > fc then 7 else 0), Rook)
  }

  // ---------------------------------------------------------------- dispatch

  /** The virtual call `piece->isValidMove(from, to, board)`. */
  predicate IsValidMove(p: Piece, g: Grid, fr: int, fc: int, tr: int, tc: int)
    requires OnBoard(fr, fc) && OnBoard(tr, tc) && (fr != tr || fc != tc)
  {
    match p.kind
    case Pawn => PawnMove(p.color, g, fr, fc, tr, tc)
    case Knight => KnightMove(p.color, g, fr, fc, tr, tc)
    case Bishop => BishopMove(p.color, g, fr, fc, tr, tc)
    case Rook => RookMove(p.color, g, fr, fc, tr, tc)
    case Queen => QueenMove(p.color, g, fr, fc, tr, tc)
    case King => KingMove(p, g, fr, fc, tr, tc)
    case NoType => false
  }

  /** The virtual call, running the loops of the sliding pieces. */
  method PieceIsValidMove(p: Piece, g: Grid, fr: int, fc: int, tr: int, tc: int) returns (valid: bool)
    requires OnBoard(fr, fc) && OnBoard(tr, tc) && (fr != tr || fc != tc)
    ensures valid == IsValidMove(p, g, fr, fc, tr, tc)
  {
    match p.kind
    case Bishop =>
      valid := BishopIsValidMove(p.color, g, fr, fc, tr, tc);
    case Rook =>
      valid := RookIsValidMove(p.color, g, fr, fc, tr, tc);
    case Queen =>
      valid := QueenIsValidMove(p.color, g, fr, fc, tr, tc);
    case Pawn =>
      valid := PawnMove(p.color, g, fr, fc, tr, tc);
    case Knight =>
      valid := KnightMove(p.color, g, fr, fc, tr, tc);
    case King =>
      valid := KingMove(p, g, fr, fc, tr, tc);
    case NoType =>
      valid := false;
  }

  // ---------------------------------------------------------------- properties

  /** A knight's displacement is exactly the one whose squared length is 5. */
  lemma KnightMoveIsDistanceRootFive(color: Color, g: Grid, fr: int, fc: int, tr: int, tc: int)
    requires OnBoard(fr, fc) && OnBoard(tr, tc)
    ensures KnightMove(color, g, fr, fc, tr, tc) <==>
      (tr - fr) * (tr - fr) + (tc - fc) * (tc - fc) == 5 && EmptyOrEnemy(g, tr, tc, color)
  {
    var dr, dc := Abs(tr - fr), Abs(tc - fc);
    assert (tr - fr) * (tr - fr) == dr * dr && (tc - fc) * (tc - fc) == dc * dc;
    SquareSumFive(dr, dc);
  }

  lemma SquareSumFive(x: nat, y: nat)
    requires x <= 7 && y <= 7
    ensures x * x + y * y == 5 <==> (x == 2 && y == 1) || (x == 1 && y == 2)
  {
    if x >= 3 {
      assert x * x >= 9 by { MulMono(x, 3); }
    } else if y >= 3 {
      assert y * y >= 9 by { MulMono(y, 3); }
    }
  }

  lemma MulMono(x: nat, y: nat)
    requires x >= y
    ensures x * x >= y * y
  {
  }

  /** A knight-shaped displacement is never a valid queen move. */
  lemma QueenNeverKnightShaped(color: Color, g: Grid, fr: int, fc: int, tr: int, tc: int)
    requires OnBoard(fr, fc) && OnBoard(tr, tc)
    requires (Abs(tr - fr) == 2 && Abs(tc - fc) == 1) || (Abs(tr - fr) == 1 && Abs(tc - fc) == 2)
    ensures !QueenMove(color, g, fr, fc, tr, tc)
  {
  }

  /**
   * When the FROM square does not hold a king (always so when a rook or a queen is asked
   * about its own square), the rook's castling clause is dead and the rule is the plain
   * orthogonal one.
   */
  lemma RookIsOrthogonal(color: Color, g: Grid, fr: int, fc: int, tr: int, tc: int)
    requires OnBoard(fr, fc) && OnBoard(tr, tc) && (fr != tr || fc != tc)
    requires !IsKindOf(At(g, fr, fc), King)
    ensures RookMove(color, g, fr, fc, tr, tc) <==> OrthogonalMove(color, g, fr, fc, tr, tc)
  {
  }

  /**
   * A queen standing on the FROM square moves along a row, a column or a diagonal, over
   * empty squares only, onto a square that is empty or holds an enemy.
   */
  lemma QueenLines(q: Piece, g: Grid, fr: int, fc: int, tr: int, tc: int)
    requires OnBoard(fr, fc) && OnBoard(tr, tc) && (fr != tr || fc != tc)
    requires At(g, fr, fc) == Some(q) && q.kind == Queen
    ensures QueenMove(q.color, g, fr, fc, tr, tc) <==>
      EmptyOrEnemy(g, tr, tc, q.color) &&
      ((fr == tr && RowClear(g, fr, fc, tc)) ||
       (fc == tc && ColumnClear(g, fc, fr, tr)) ||
       (Abs(tr - fr) == Abs(tc - fc) && DiagonalClear(g, fr, fc, tr, tc)))
  {
  }

  /** A friendly piece on the destination makes a queen's move invalid. */
  lemma QueenNotOntoFriend(q: Piece, g: Grid, fr: int, fc: int, tr: int, tc: int)
    requires OnBoard(fr, fc) && OnBoard(tr, tc) && (fr != tr || fc != tc)
    requires At(g, fr, fc) == Some(q) && q.kind == Queen
    requires IsPieceOf(At(g, tr, tc), q.color)
    ensures !QueenMove(q.color, g, fr, fc, tr, tc)
  {
  }

  /**
   * The king's two-column clause inspects neither the square it passes over nor the
   * colour of the corner rook: changing either leaves the answer unchanged.
   */
  lemma KingCastlingShapeIgnoresPathAndRookColor(king: Piece, g: Grid, fr: int, fc: int, tc: int, x: Option<Piece>)
    requires OnBoard(fr, fc) && OnBoard(fr, tc) && (tc == fc + 2 || tc == fc - 2)
    requires KingMove(king, g, fr, fc, fr, tc)
    ensures KingMove(king, Put(g, fr, Toward(fc, tc, 1), x), fr, fc, fr, tc)
    ensures var corner := if tc > fc then 7 else 0;
            KingMove(king, Put(g, fr, corner, Some(Piece(Rook, Opponent(At(g, fr, corner).value.color), false))), fr, fc, fr, tc)
  {
  }

  /** An en-passant capture is never a plain pawn move: its destination is empty. */
  lemma EnPassantIsNotPawnMove(color: Color, g: Grid, fr: int, fc: int, tr: int, tc: int, last: Move)
    requires OnBoard(fr, fc) && OnBoard(tr, tc)
    requires CanEnPassant(color, g, fr, fc, tr, tc, last)
    ensures !PawnMove(color, g, fr, fc, tr, tc)
  {
  }

  /**
   * `canEnPassant` reads only the recorded last move: whatever stands on the victim's
   * square (the pawn, another piece or nothing) the answer is the same.
   */
  lemma EnPassantIgnoresVictimSquare(color: Color, g: Grid, fr: int, fc: int, tr: int, tc: int, last: Move, x: Option<Piece>)
    requires OnBoard(fr, fc) && OnBoard(tr, tc) && tc != fc
    ensures CanEnPassant(color, Put(g, fr, tc, x), fr, fc, tr, tc, last) == CanEnPassant(color, g, fr, fc, tr, tc, last)
  {
  }
}
