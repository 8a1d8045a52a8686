// The static evaluation of src/ai/evaluate.cpp: material, piece-square tables, knight-rim
// and early-king penalties, centre and development bonuses, isolated pawns and the
// queen-gated king-safety term. The score is positive when White stands better.

module Evaluation {
  import opened Pieces
  import opened BoardModel
  import opened Boards

  // ------------------------------------------------------------ tables

  /** An 8x8 table of integers, indexed by row then column, from White's side. */
  type Table = t: seq<seq<int>> | |t| == 8 && forall r | 0 <= r < 8 :: |t[r]| == 8
    witness seq(8, _ => seq(8, _ => 0))

  function PawnTable(): Table
  {
    [
      [ 0,  0,  0,  0,  0,  0,  0,  0],
      [50, 50, 50, 50, 50, 50, 50, 50],
      [10, 10, 20, 30, 30, 20, 10, 10],
      [ 5,  5, 10, 25, 25, 10,  5,  5],
      [ 0,  0,  0, 20, 20,  0,  0,  0],
      [ 5, -5,-10,  0,  0,-10, -5,  5],
      [ 5, 10, 10,-20,-20, 10, 10,  5],
      [ 0,  0,  0,  0,  0,  0,  0,  0]]
  }

  function KnightTable(): Table
  {
    [
      [-50,-40,-30,-30,-30,-30,-40,-50],
      [-40,-20,  0,  5,  5,  0,-20,-40],
      [-30,  5, 10, 15, 15, 10,  5,-30],
      [-30,  0, 15, 20, 20, 15,  0,-30],
      [-30,  5, 15, 20, 20, 15,  5,-30],
      [-30,  0, 10, 15, 15, 10,  0,-30],
      [-40,-20,  0,  0,  0,  0,-20,-40],
      [-50,-40,-30,-30,-30,-30,-40,-50]]
  }

  function BishopTable(): Table
  {
    [
      [-20,-10,-10,-10,-10,-10,-10,-20],
      [-10,  5,  0,  0,  0,  0,  5,-10],
      [-10, 10, 10, 10, 10, 10, 10,-10],
      [-10,  0, 10, 10, 10, 10,  0,-10],
      [-10,  5,  5, 10, 10,  5,  5,-10],
      [-10,  0,  5, 10, 10,  5,  0,-10],
      [-10,  0,  0,  0,  0,  0,  0,-10],
      [-20,-10,-10,-10,-10,-10,-10,-20]]
  }

  function RookTable(): Table
  {
    [
      [ 0,  0,  0,  0,  0,  0,  0,  0],
      [ 5, 10, 10, 10, 10, 10, 10,  5],
      [-5,  0,  0,  0,  0,  0,  0, -5],
      [-5,  0,  0,  0,  0,  0,  0, -5],
      [-5,  0,  0,  0,  0,  0,  0, -5],
      [-5,  0,  0,  0,  0,  0,  0, -5],
      [-5,  0,  0,  0,  0,  0,  0, -5],
      [ 0,  0,  0,  5,  5,  0,  0,  0]]
  }

  function QueenTable(): Table
  {
    [
      [-20,-10,-10, -5, -5,-10,-10,-20],
      [-10,  0,  0,  0,  0,  0,  0,-10],
      [-10,  0,  5,  5,  5,  5,  0,-10],
      [ -5,  0,  5,  5,  5,  5,  0, -5],
      [  0,  0,  5,  5,  5,  5,  0, -5],
      [-10,  5,  5,  5,  5,  5,  0,-10],
      [-10,  0,  5,  0,  0,  0,  0,-10],
      [-20,-10,-10, -5, -5,-10,-10,-20]]
  }

  function KingTable(): Table
  {
    [
      [-30,-40,-40,-50,-50,-40,-40,-30],
      [-30,-40,-40,-50,-50,-40,-40,-30],
      [-30,-40,-40,-50,-50,-40,-40,-30],
      [-30,-40,-40,-50,-50,-40,-40,-30],
      [-20,-30,-30,-40,-40,-30,-30,-20],
      [-10,-20,-20,-20,-20,-20,-20,-10],
      [ 20, 20,  0,  0,  0,  0, 20, 20],
      [ 20, 30, 10,  0,  0, 10, 30, 20]]
  }

  /** `pieceValue`: the material value of a piece type, 0 for NONE. */
  function PieceValue(k: PieceType): (v: int)
    ensures v == 0 <==> k == NoType
    ensures k != NoType ==> 100 <= v
    ensures k != King ==> v <= 900
  {
    match k
    case Pawn => 100
    case Knight => 320
    case Bishop => 330
    case Rook => 500
    case Queen => 900
    case King => 20000
    case NoType => 0
  }

  /** `getPieceSquareValue`: the table entry, read from row 7 - r for a Black piece. */
  function PieceSquareValue(k: PieceType, r: int, c: int, color: Color): int
    requires OnBoard(r, c)
  {
    var row := if color == Black then 7 - r else r;
    match k
    case Pawn => PawnTable()[row][c]
    case Knight => KnightTable()[row][c]
    case Bishop => BishopTable()[row][c]
    case Rook => RookTable()[row][c]
    case Queen => QueenTable()[row][c]
    case King => KingTable()[row][c]
    case NoType => 0
  }

  /** A Black piece on the mirrored square reads the same entry as a White piece. */
  lemma PieceSquareMirror(k: PieceType, r: int, c: int, color: Color)
    requires OnBoard(r, c)
    ensures PieceSquareValue(k, r, c, color) == PieceSquareValue(k, 7 - r, c, Opponent(color))
  {
  }

  // ------------------------------------------------------------ sums over the squares

  /** A value per square; only squares on the board are summed. */
  type SquareFn = (int, int) -> int

  /** The sum of `f` over the squares whose row-major index is below k. */
  function SumTo(f: SquareFn, k: nat): int
    requires k <= 64
  {
    if k == 0 then 0 else SumTo(f, k - 1) + f((k - 1) / 8, (k - 1) % 8)
  }

  /** The sum of `f` over the first c squares of row r. */
  function ColSum(f: SquareFn, r: int, c: nat): int
    requires c <= 8
  {
    if c == 0 then 0 else ColSum(f, r, c - 1) + f(r, c - 1)
  }

  /** The sum of the first n whole rows. */
  function RowsTo(f: SquareFn, n: nat): int
    requires n <= 8
  {
    if n == 0 then 0 else RowsTo(f, n - 1) + ColSum(f, n - 1, 8)
  }

  lemma {:induction false} SumWithinRow(f: SquareFn, r: int, c: nat)
    requires 0 <= r < 8 && c <= 8
    ensures SumTo(f, 8 * r + c) == SumTo(f, 8 * r) + ColSum(f, r, c)
  {
    if c > 0 {
      SumWithinRow(f, r, c - 1);
      assert (8 * r + c - 1) / 8 == r && (8 * r + c - 1) % 8 == c - 1;
    }
  }

  lemma {:induction false} SumByRows(f: SquareFn, n: nat)
    requires n <= 8
    ensures SumTo(f, 8 * n) == RowsTo(f, n)
  {
    if n > 0 {
      SumByRows(f, n - 1);
      SumWithinRow(f, n - 1, 8);
    }
  }

  /** The value of f on row r is that of h on row 7 - r, negated when `neg`. */
  ghost predicate Reflects(f: SquareFn, h: SquareFn, neg: bool)
  {
    forall r, c | OnBoard(r, c) :: f(r, c) == if neg then -h(7 - r, c) else h(7 - r, c)
  }

  lemma {:induction false} ColSumReflected(f: SquareFn, h: SquareFn, neg: bool, r: int, c: nat)
    requires Reflects(f, h, neg) && 0 <= r < 8 && c <= 8
    ensures ColSum(f, r, c) == if neg then -ColSum(h, 7 - r, c) else ColSum(h, 7 - r, c)
  {
    if c > 0 {
      ColSumReflected(f, h, neg, r, c - 1);
      assert f(r, c - 1) == if neg then -h(7 - r, c - 1) else h(7 - r, c - 1);
    }
  }

  lemma {:induction false} RowsReflected(f: SquareFn, h: SquareFn, neg: bool, n: nat)
    requires Reflects(f, h, neg) && n <= 8
    ensures RowsTo(f, n) == if neg then RowsTo(h, 8 - n) - RowsTo(h, 8) else RowsTo(h, 8) - RowsTo(h, 8 - n)
  {
    if n > 0 {
      var m := 8 - n;
      RowsReflected(f, h, neg, n - 1);
      ColSumReflected(f, h, neg, n - 1, 8);
      assert 7 - (n - 1) == m && 8 - (n - 1) == m + 1;
      assert RowsTo(h, m + 1) == RowsTo(h, m) + ColSum(h, m, 8);
      assert RowsTo(f, n) == RowsTo(f, n - 1) + ColSum(f, n - 1, 8);
    }
  }

  /** Summing a row-reflected function gives the same total, or its negation. */
  lemma SumReflected(f: SquareFn, h: SquareFn, neg: bool)
    requires Reflects(f, h, neg)
    ensures SumTo(f, 64) == if neg then -SumTo(h, 64) else SumTo(h, 64)
  {
    SumByRows(f, 8);
    SumByRows(h, 8);
    RowsReflected(f, h, neg, 8);
  }

  lemma {:induction false} SumOfZeros(f: SquareFn, k: nat)
    requires k <= 64 && forall r, c | OnBoard(r, c) :: f(r, c) == 0
    ensures SumTo(f, k) == 0
  {
    if k > 0 {
      SumOfZeros(f, k - 1);
      assert OnBoard((k - 1) / 8, (k - 1) % 8);
    }
  }

  /** One more square of the row-major scan. */
  lemma SumStep(f: SquareFn, r: int, c: int)
    requires OnBoard(r, c)
    ensures SumTo(f, Index(r, c) + 1) == SumTo(f, Index(r, c)) + f(r, c)
  {
    IndexStep(r, c);
  }

  // ------------------------------------------------------------ the per-square terms

  function Occupancy(g: Grid): SquareFn
  {
    (r, c) => if OnBoard(r, c) && At(g, r, c).Some? then 1 else 0
  }

  /** The `totalPieces` count of `evaluate`. */
  function PieceCount(g: Grid): int
  {
    SumTo(Occupancy(g), 64)
  }

  /** A score from White's point of view: added for White, subtracted for Black. */
  function Signed(color: Color, x: int): int
  {
    if color == White then x else -x
  }

  predicate OnStartSquare(p: Piece, r: int, c: int)
  {
    (p.color == White && r == 7 && c == 4) || (p.color == Black && r == 0 && c == 4)
  }

  predicate OnRim(r: int, c: int)
  {
    r == 0 || r == 7 || c == 0 || c == 7
  }

  /** The four centre squares d4, e4, d5, e5. */
  const CenterSquares: seq<(int, int)> := [(3, 3), (3, 4), (4, 3), (4, 4)]

  predicate IsCenter(r: int, c: int)
  {
    (r, c) in CenterSquares
  }

  /** A knight or bishop off its own back rank. */
  predicate Developed(p: Piece, r: int)
  {
    (p.kind == Knight || p.kind == Bishop) && (if p.color == White then r < 7 else r > 0)
  }

  /** `positionalValue`: the table entry, less 100 for a knight on the rim and 200 for a displaced king before the endgame. */
  function Positional(p: Piece, total: int, r: int, c: int): int
    requires OnBoard(r, c)
  {
    PieceSquareValue(p.kind, r, c, p.color)
    - (if p.kind == Knight && OnRim(r, c) then 100 else 0)
    - (if p.kind == King && total > 20 && !OnStartSquare(p, r, c) then 200 else 0)
  }

  /**
   * What the square contributes to the score once the loop's counters are weighed in:
   * material plus positional value, 15 for a centre square and 10 for a developed minor
   * piece, all signed by the occupant's colour.
   */
  function SquareTerm(x: Option<Piece>, total: int, r: int, c: int): int
    requires OnBoard(r, c)
  {
    match x
    case None => 0
    case Some(p) =>
      Signed(p.color, PieceValue(p.kind) + Positional(p, total, r, c))
      + Signed(p.color, if IsCenter(r, c) then 15 else 0)
      + Signed(p.color, if Developed(p, r) then 10 else 0)
  }

  function SquareTerms(g: Grid, total: int): SquareFn
  {
    (r, c) => if OnBoard(r, c) then SquareTerm(At(g, r, c), total, r, c) else 0
  }

  // ------------------------------------------------------------ kings and queens

  /** `whiteKingRow/Col` (or Black's) after the scan of the squares below k: the last king seen, else (-1, -1). */
  function LastKingTo(g: Grid, color: Color, k: nat): (sq: (int, int))
    requires k <= 64
    ensures sq == (-1, -1) ==> forall r, c | OnBoard(r, c) && Index(r, c) < k :: !IsKingOf(At(g, r, c), color)
    ensures sq != (-1, -1) ==> OnBoard(sq.0, sq.1) && Index(sq.0, sq.1) < k && IsKingOf(At(g, sq.0, sq.1), color)
  {
    if k == 0 then (-1, -1)
    else if IsKingOf(At(g, (k - 1) / 8, (k - 1) % 8), color) then ((k - 1) / 8, (k - 1) % 8)
    else LastKingTo(g, color, k - 1)
  }

  /** `whiteCastled` (or Black's) after the scan of the squares below k. */
  function CastledTo(g: Grid, color: Color, k: nat): bool
    requires k <= 64
  {
    if k == 0 then false
    else
      var r, c := (k - 1) / 8, (k - 1) % 8;
      CastledTo(g, color, k - 1) || (IsKingOf(At(g, r, c), color) && (c == 6 || c == 2))
  }

  /** Some king of the colour stands on column 6 or 2. */
  predicate KingOnCastledFile(g: Grid, color: Color)
  {
    exists r, c | 0 <= r < 8 && 0 <= c < 8 :: IsKingOf(At(g, r, c), color) && (c == 6 || c == 2)
  }

  lemma {:induction false} CastledToMeaning(g: Grid, color: Color, k: nat)
    requires k <= 64
    ensures CastledTo(g, color, k) <==>
      exists r, c | OnBoard(r, c) && Index(r, c) < k :: IsKingOf(At(g, r, c), color) && (c == 6 || c == 2)
  {
    if k > 0 {
      CastledToMeaning(g, color, k - 1);
      var r, c := (k - 1) / 8, (k - 1) % 8;
      assert Index(r, c) == k - 1;
      if exists r', c' | OnBoard(r', c') && Index(r', c') < k :: IsKingOf(At(g, r', c'), color) && (c' == 6 || c' == 2) {
        var r', c' :| OnBoard(r', c') && Index(r', c') < k && IsKingOf(At(g, r', c'), color) && (c' == 6 || c' == 2);
        if Index(r', c') == k - 1 {
          IndexInjective(r, c, r', c');
        }
      }
    }
  }

  /** The castled flag after the whole scan: some king of the colour on column 6 or 2. */
  lemma CastledMeaning(g: Grid, color: Color)
    ensures CastledTo(g, color, 64) <==> KingOnCastledFile(g, color)
  {
    CastledToMeaning(g, color, 64);
    if KingOnCastledFile(g, color) {
      var r, c :| OnBoard(r, c) && IsKingOf(At(g, r, c), color) && (c == 6 || c == 2);
      assert Index(r, c) < 64;
    }
  }

  /** `queensPresent`: a queen of either colour anywhere. */
  predicate QueensOnBoard(g: Grid)
  {
    exists r, c | 0 <= r < 8 && 0 <= c < 8 :: IsKindOf(At(g, r, c), Queen)
  }

  /** The king-safety adjustment, applied only while a queen is on the board. */
  function KingSafety(g: Grid): int
  {
    if !QueensOnBoard(g) then 0
    else
      var wk, bk := LastKingTo(g, White, 64), LastKingTo(g, Black, 64);
      var wCastled, bCastled := CastledTo(g, White, 64), CastledTo(g, Black, 64);
      (if !wCastled && (wk.0 != 7 || wk.1 != 4) then -40 else 0)
      + (if wCastled then 30 else 0)
      + (if !bCastled && (bk.0 != 0 || bk.1 != 4) then 40 else 0)
      + (if bCastled then -30 else 0)
  }

  // ------------------------------------------------------------ isolated pawns

  predicate IsPawnOf(x: Option<Piece>, color: Color)
  {
    x.Some? && x.value.kind == Pawn && x.value.color == color
  }

  /** `pawnsOnFile` after the scan of the squares below k. */
  function PawnFilesTo(g: Grid, color: Color, k: nat): (files: seq<bool>)
    requires k <= 64
    ensures |files| == 8
  {
    if k == 0 then seq(8, _ => false)
    else
      var r, c := (k - 1) / 8, (k - 1) % 8;
      var files := PawnFilesTo(g, color, k - 1);
      if IsPawnOf(At(g, r, c), color) then files[c := true] else files
  }

  function PawnFiles(g: Grid, color: Color): (files: seq<bool>)
    ensures |files| == 8
  {
    PawnFilesTo(g, color, 64)
  }

  lemma {:induction false} PawnFilesToMeaning(g: Grid, color: Color, k: nat, f: int)
    requires k <= 64 && 0 <= f < 8
    ensures PawnFilesTo(g, color, k)[f] <==> exists r | 0 <= r < 8 && Index(r, f) < k :: IsPawnOf(At(g, r, f), color)
  {
    if k > 0 {
      PawnFilesToMeaning(g, color, k - 1, f);
      var r, c := (k - 1) / 8, (k - 1) % 8;
      assert Index(r, c) == k - 1;
      if exists r' | 0 <= r' < 8 && Index(r', f) < k :: IsPawnOf(At(g, r', f), color) {
        var r' :| 0 <= r' < 8 && Index(r', f) < k && IsPawnOf(At(g, r', f), color);
        if Index(r', f) == k - 1 {
          IndexInjective(r, c, r', f);
        }
      }
    }
  }

  /** A file is marked exactly when some pawn of the colour stands on it. */
  lemma PawnFilesMeaning(g: Grid, color: Color, f: int)
    requires 0 <= f < 8
    ensures PawnFiles(g, color)[f] <==> exists r | 0 <= r < 8 :: IsPawnOf(At(g, r, f), color)
  {
    PawnFilesToMeaning(g, color, 64, f);
  }

  /** A marked file with no marked neighbour. */
  predicate IsolatedOn(files: seq<bool>, f: int)
    requires |files| == 8 && 0 <= f < 8
  {
    files[f] && !(f > 0 && files[f - 1]) && !(f < 7 && files[f + 1])
  }

  /** The penalty for the first n files: 15 per isolated file. */
  function PenaltyTo(files: seq<bool>, n: nat): int
    requires |files| == 8 && n <= 8
  {
    if n == 0 then 0 else PenaltyTo(files, n - 1) + (if IsolatedOn(files, n - 1) then 15 else 0)
  }

  /** `evaluateIsolatedPawns`. */
  function IsolatedPenalty(g: Grid, color: Color): int
  {
    PenaltyTo(PawnFiles(g, color), 8)
  }

  lemma {:induction false} PenaltyPairs(files: seq<bool>, i: nat)
    requires |files| == 8 && i <= 4
    ensures 0 <= PenaltyTo(files, 2 * i) <= 15 * i
    ensures PenaltyTo(files, 2 * i) % 15 == 0
  {
    if i > 0 {
      PenaltyPairs(files, i - 1);
      // Two neighbouring files cannot both be isolated.
      assert !(IsolatedOn(files, 2 * i - 2) && IsolatedOn(files, 2 * i - 1));
    }
  }

  /** The isolated-pawn penalty is a multiple of 15 between 0 and 60. */
  lemma IsolatedPenaltyRange(g: Grid, color: Color)
    ensures 0 <= IsolatedPenalty(g, color) <= 60
    ensures IsolatedPenalty(g, color) % 15 == 0
  {
    PenaltyPairs(PawnFiles(g, color), 4);
  }

  // ------------------------------------------------------------ the score

  /** `evaluate(board)`. */
  function Score(g: Grid): int
  {
    SumTo(SquareTerms(g, PieceCount(g)), 64)
    - IsolatedPenalty(g, White) + IsolatedPenalty(g, Black)
    + KingSafety(g)
  }

  /** Every entry of a table lies in [-50, 50]. */
  predicate Within50(t: Table)
  {
    forall r, c | 0 <= r < 8 && 0 <= c < 8 :: -50 <= t[r][c] <= 50
  }

  lemma PawnTableBounded() ensures Within50(PawnTable()) {}
  lemma KnightTableBounded() ensures Within50(KnightTable()) {}
  lemma BishopTableBounded() ensures Within50(BishopTable()) {}
  lemma RookTableBounded() ensures Within50(RookTable()) {}
  lemma QueenTableBounded() ensures Within50(QueenTable()) {}
  lemma KingTableBounded() ensures Within50(KingTable()) {}

  lemma PieceSquareBounded(k: PieceType, r: int, c: int, color: Color)
    requires OnBoard(r, c)
    ensures -50 <= PieceSquareValue(k, r, c, color) <= 50
  {
    match k
    case Pawn => PawnTableBounded();
    case Knight => KnightTableBounded();
    case Bishop => BishopTableBounded();
    case Rook => RookTableBounded();
    case Queen => QueenTableBounded();
    case King => KingTableBounded();
    case NoType =>
  }

  /** No square contributes more than this in absolute value. */
  const SquareBound := 21000

  /** A square's term is bounded: at most a king's material plus table, penalties and bonuses. */
  lemma SquareTermBounded(x: Option<Piece>, total: int, r: int, c: int)
    requires OnBoard(r, c)
    ensures -SquareBound <= SquareTerm(x, total, r, c) <= SquareBound
  {
    if x.Some? {
      PieceSquareBounded(x.value.kind, r, c, x.value.color);
    }
  }

  lemma {:induction false} SumBounded(f: SquareFn, k: nat)
    requires k <= 64 && forall r, c | OnBoard(r, c) :: -SquareBound <= f(r, c) <= SquareBound
    ensures -(k * SquareBound) <= SumTo(f, k) <= k * SquareBound
  {
    if k > 0 {
      SumBounded(f, k - 1);
      assert OnBoard((k - 1) / 8, (k - 1) % 8);
    }
  }

  /** The score stays far inside the source's 32-bit `int`. */
  lemma ScoreBounded(g: Grid)
    ensures -1400000 <= Score(g) <= 1400000
  {
    var terms := SquareTerms(g, PieceCount(g));
    forall r, c | OnBoard(r, c)
      ensures -SquareBound <= terms(r, c) <= SquareBound
    {
      SquareTermBounded(At(g, r, c), PieceCount(g), r, c);
    }
    SumBounded(terms, 64);
    IsolatedPenaltyRange(g, White);
    IsolatedPenaltyRange(g, Black);
  }

  /** An empty board scores 0. */
  lemma EmptyBoardScoresZero()
    ensures Score(EmptyGrid()) == 0
  {
    var g := EmptyGrid();
    SumOfZeros(SquareTerms(g, PieceCount(g)), 64);
    forall f | 0 <= f < 8
      ensures !PawnFiles(g, White)[f] && !PawnFiles(g, Black)[f]
    {
      PawnFilesMeaning(g, White, f);
      PawnFilesMeaning(g, Black, f);
    }
    assert PenaltyTo(PawnFiles(g, White), 8) == 0;
    assert PenaltyTo(PawnFiles(g, Black), 8) == 0;
    assert !QueensOnBoard(g);
  }

  // ------------------------------------------------------------ colour symmetry

  function Recolor(x: Option<Piece>): (y: Option<Piece>)
    ensures y.Some? <==> x.Some?
    ensures x.Some? ==> y.value.kind == x.value.kind && y.value.color == Opponent(x.value.color)
  {
    match x
    case None => None
    case Some(p) => Some(p.(color := Opponent(p.color)))
  }

  /** The position with the colours swapped and the rows mirrored: row r shows row 7 - r. */
  function Mirror(g: Grid): (h: Grid)
    ensures forall r, c | OnBoard(r, c) :: At(h, r, c) == Recolor(At(g, 7 - r, c))
  {
    var rows := seq(8, r requires 0 <= r < 8 => seq(8, c requires 0 <= c < 8 => Recolor(g[7 - r][c])));
    assert forall r | 0 <= r < 8 :: |rows[r]| == 8;
    rows
  }

  /** No two squares hold a king of this colour. */
  ghost predicate AtMostOneKing(g: Grid, color: Color)
  {
    forall r, c, r', c' | OnBoard(r, c) && OnBoard(r', c') && IsKingOf(At(g, r, c), color) && IsKingOf(At(g, r', c'), color) ::
      r == r' && c == c'
  }

  /** The positional value of a recoloured piece on the mirrored square is unchanged. */
  lemma PositionalMirror(p: Piece, q: Piece, total: int, r: int, c: int)
    requires OnBoard(r, c) && q.kind == p.kind && q.color == Opponent(p.color)
    ensures Positional(q, total, r, c) == Positional(p, total, 7 - r, c)
    ensures Developed(q, r) == Developed(p, 7 - r)
  {
    PieceSquareMirror(p.kind, 7 - r, c, p.color);
    assert OnStartSquare(q, r, c) == OnStartSquare(p, 7 - r, c);
  }

  lemma CenterMirror(r: int, c: int)
    requires OnBoard(r, c)
    ensures IsCenter(r, c) == IsCenter(7 - r, c)
  {
  }

  lemma SquareTermMirror(x: Option<Piece>, total: int, r: int, c: int)
    requires OnBoard(r, c)
    ensures SquareTerm(Recolor(x), total, r, c) == -SquareTerm(x, total, 7 - r, c)
  {
    if x.Some? {
      PositionalMirror(x.value, Recolor(x).value, total, r, c);
      CenterMirror(r, c);
    }
  }

  lemma OccupancyReflects(g: Grid)
    ensures Reflects(Occupancy(Mirror(g)), Occupancy(g), false)
  {
    var h := Mirror(g);
    forall r, c | OnBoard(r, c)
      ensures Occupancy(h)(r, c) == Occupancy(g)(7 - r, c)
    {
      assert At(h, r, c).Some? == At(g, 7 - r, c).Some?;
    }
  }

  lemma MirrorPieceCount(g: Grid)
    ensures PieceCount(Mirror(g)) == PieceCount(g)
  {
    OccupancyReflects(g);
    SumReflected(Occupancy(Mirror(g)), Occupancy(g), false);
  }

  lemma SquareTermsReflect(g: Grid, total: int)
    ensures Reflects(SquareTerms(Mirror(g), total), SquareTerms(g, total), true)
  {
    forall r, c | OnBoard(r, c)
      ensures SquareTerms(Mirror(g), total)(r, c) == -SquareTerms(g, total)(7 - r, c)
    {
      SquareTermMirror(At(g, 7 - r, c), total, r, c);
    }
  }

  lemma MirrorSquareSum(g: Grid, total: int)
    ensures SumTo(SquareTerms(Mirror(g), total), 64) == -SumTo(SquareTerms(g, total), 64)
  {
    SquareTermsReflect(g, total);
    SumReflected(SquareTerms(Mirror(g), total), SquareTerms(g, total), true);
  }

  lemma MirrorPawnFiles(g: Grid, color: Color)
    ensures PawnFiles(Mirror(g), Opponent(color)) == PawnFiles(g, color)
  {
    var h := Mirror(g);
    forall f | 0 <= f < 8
      ensures PawnFiles(h, Opponent(color))[f] == PawnFiles(g, color)[f]
    {
      PawnFilesMeaning(h, Opponent(color), f);
      PawnFilesMeaning(g, color, f);
      if exists r | 0 <= r < 8 :: IsPawnOf(At(g, r, f), color) {
        var r :| 0 <= r < 8 && IsPawnOf(At(g, r, f), color);
        assert IsPawnOf(At(h, 7 - r, f), Opponent(color));
      }
      if exists r | 0 <= r < 8 :: IsPawnOf(At(h, r, f), Opponent(color)) {
        var r :| 0 <= r < 8 && IsPawnOf(At(h, r, f), Opponent(color));
        assert IsPawnOf(At(g, 7 - r, f), color);
      }
    }
  }

  lemma MirrorQueens(g: Grid)
    ensures QueensOnBoard(Mirror(g)) <==> QueensOnBoard(g)
  {
    var h := Mirror(g);
    if QueensOnBoard(g) {
      var r, c :| 0 <= r < 8 && 0 <= c < 8 && IsKindOf(At(g, r, c), Queen);
      assert IsKindOf(At(h, 7 - r, c), Queen);
    }
    if QueensOnBoard(h) {
      var r, c :| 0 <= r < 8 && 0 <= c < 8 && IsKindOf(At(h, r, c), Queen);
      assert IsKindOf(At(g, 7 - r, c), Queen);
    }
  }

  lemma MirrorCastled(g: Grid, color: Color)
    ensures CastledTo(Mirror(g), Opponent(color), 64) == CastledTo(g, color, 64)
  {
    var h := Mirror(g);
    CastledMeaning(g, color);
    CastledMeaning(h, Opponent(color));
    if KingOnCastledFile(g, color) {
      var r, c :| 0 <= r < 8 && 0 <= c < 8 && IsKingOf(At(g, r, c), color) && (c == 6 || c == 2);
      assert IsKingOf(At(h, 7 - r, c), Opponent(color));
    }
    if KingOnCastledFile(h, Opponent(color)) {
      var r, c :| 0 <= r < 8 && 0 <= c < 8 && IsKingOf(At(h, r, c), Opponent(color)) && (c == 6 || c == 2);
      assert IsKingOf(At(g, 7 - r, c), color);
    }
  }

  /** With one king at most, the scan's king square is that king's square, or (-1, -1) without one. */
  lemma LastKingIsTheKing(g: Grid, color: Color, r: int, c: int)
    requires AtMostOneKing(g, color) && OnBoard(r, c) && IsKingOf(At(g, r, c), color)
    ensures LastKingTo(g, color, 64) == (r, c)
  {
    assert Index(r, c) < 64;
  }

  /** Mirroring keeps "at most one king", with the colour swapped. */
  lemma MirrorOneKing(g: Grid, color: Color)
    requires AtMostOneKing(g, color)
    ensures AtMostOneKing(Mirror(g), Opponent(color))
  {
    var h := Mirror(g);
    forall r, c, r', c' | OnBoard(r, c) && OnBoard(r', c') && IsKingOf(At(h, r, c), Opponent(color)) && IsKingOf(At(h, r', c'), Opponent(color))
      ensures r == r' && c == c'
    {
      assert IsKingOf(At(g, 7 - r, c), color) && IsKingOf(At(g, 7 - r', c'), color);
    }
  }

  /** With no king of the colour, the mirror has no king of the other colour. */
  lemma MirrorNoKing(g: Grid, color: Color)
    requires LastKingTo(g, color, 64) == (-1, -1)
    ensures LastKingTo(Mirror(g), Opponent(color), 64) == (-1, -1)
  {
    var m := LastKingTo(Mirror(g), Opponent(color), 64);
    assert m != (-1, -1) ==> IsKingOf(At(g, 7 - m.0, m.1), color) && Index(7 - m.0, m.1) < 64;
  }

  lemma MirrorLastKing(g: Grid, color: Color)
    requires AtMostOneKing(g, color)
    ensures var k, m := LastKingTo(g, color, 64), LastKingTo(Mirror(g), Opponent(color), 64);
      (k == (-1, -1) && m == (-1, -1)) || (k != (-1, -1) && m == (7 - k.0, k.1))
  {
    var k := LastKingTo(g, color, 64);
    if k != (-1, -1) {
      MirrorOneKing(g, color);
      assert IsKingOf(At(Mirror(g), 7 - k.0, k.1), Opponent(color));
      LastKingIsTheKing(Mirror(g), Opponent(color), 7 - k.0, k.1);
    } else {
      MirrorNoKing(g, color);
    }
  }

  lemma MirrorKingSafety(g: Grid)
    requires AtMostOneKing(g, White) && AtMostOneKing(g, Black)
    ensures KingSafety(Mirror(g)) == -KingSafety(g)
  {
    MirrorQueens(g);
    MirrorCastled(g, White);
    MirrorCastled(g, Black);
    MirrorLastKing(g, White);
    MirrorLastKing(g, Black);
  }

  /**
   * Colour symmetry: with at most one king per colour, swapping the colours and mirroring
   * the rows negates the score.
   */
  lemma MirrorNegatesScore(g: Grid)
    requires AtMostOneKing(g, White) && AtMostOneKing(g, Black)
    ensures Score(Mirror(g)) == -Score(g)
  {
    MirrorPieceCount(g);
    MirrorSquareSum(g, PieceCount(g));
    MirrorPawnFiles(g, White);
    MirrorPawnFiles(g, Black);
    MirrorKingSafety(g);
  }

  // ------------------------------------------------------------ the loops of evaluate.cpp

  lemma CountStep(g: Grid, r: int, c: int)
    requires OnBoard(r, c)
    ensures SumTo(Occupancy(g), Index(r, c + 1)) == SumTo(Occupancy(g), Index(r, c)) + if g[r][c].Some? then 1 else 0
  {
    SumStep(Occupancy(g), r, c);
    assert Index(r, c) + 1 == Index(r, c + 1);
  }

  /** The piece count `evaluate` takes for each king it meets. */
  method CountPieces(board: Board) returns (total: int)
    ensures total == PieceCount(board.grid)
  {
    total := 0;
    for r := 0 to 8
      invariant total == SumTo(Occupancy(board.grid), Index(r, 0))
    {
      for c := 0 to 8
        invariant total == SumTo(Occupancy(board.grid), Index(r, c))
      {
        CountStep(board.grid, r, c);
        if board.grid[r][c].Some? {
          total := total + 1;
        }
      }
      assert Index(r, 8) == Index(r + 1, 0);
    }
    assert Index(8, 0) == 64;
  }


  /** `evaluateIsolatedPawns`: mark the files holding a pawn of the colour, then 15 per marked file without a marked neighbour. */
  method EvaluateIsolatedPawns(board: Board, color: Color) returns (penalty: int)
    ensures penalty == IsolatedPenalty(board.grid, color)
  {
    var pawnsOnFile := new bool[8](_ => false);
    for row := 0 to 8
      invariant pawnsOnFile[..] == PawnFilesTo(board.grid, color, Index(row, 0))
    {
      for col := 0 to 8
        invariant pawnsOnFile[..] == PawnFilesTo(board.grid, color, Index(row, col))
      {
        IndexStep(row, col);
        var piece := board.grid[row][col];
        if piece.Some? && piece.value.color == color && piece.value.kind == Pawn {
          pawnsOnFile[col] := true;
        }
      }
    }
    ghost var files := pawnsOnFile[..];
    penalty := 0;
    for file := 0 to 8
      invariant pawnsOnFile[..] == files
      invariant penalty == PenaltyTo(files, file)
    {
      if pawnsOnFile[file] {
        var hasAdjacentPawn := false;
        if file > 0 && pawnsOnFile[file - 1] {
          hasAdjacentPawn := true;
        }
        if file < 7 && pawnsOnFile[file + 1] {
          hasAdjacentPawn := true;
        }
        if !hasAdjacentPawn {
          penalty := penalty + 15;
        }
      }
    }
  }

  /** The `queensPresent` scan, leaving both loops at the first queen. */
  method QueensPresent(board: Board) returns (present: bool)
    ensures present == QueensOnBoard(board.grid)
  {
    present := false;
    for row := 0 to 8
      invariant !present
      invariant forall r, c | OnBoard(r, c) && r < row :: !IsKindOf(At(board.grid, r, c), Queen)
    {
      for col := 0 to 8
        invariant !present
        invariant forall c | 0 <= c < col :: !IsKindOf(At(board.grid, row, c), Queen)
      {
        var piece := board.grid[row][col];
        if piece.Some? && piece.value.kind == Queen {
          present := true;
          assert IsKindOf(At(board.grid, row, col), Queen);
          break;
        }
      }
      if present {
        break;
      }
    }
  }

  /** `baseValue + positionalValue` for the piece on (row, col). */
  method MaterialAndPosition(board: Board, piece: Piece, row: int, col: int) returns (value: int)
    requires OnBoard(row, col)
    ensures value == PieceValue(piece.kind) + Positional(piece, PieceCount(board.grid), row, col)
  {
    var baseValue := PieceValue(piece.kind);
    var positionalValue := PieceSquareValue(piece.kind, row, col, piece.color);
    if piece.kind == Knight {
      if row == 0 || row == 7 || col == 0 || col == 7 {
        positionalValue := positionalValue - 100;
      }
    }
    if piece.kind == King {
      var totalPieces := CountPieces(board);
      if totalPieces > 20 {
        var onStartSquare := (piece.color == White && row == 7 && col == 4) ||
                             (piece.color == Black && row == 0 && col == 4);
        if !onStartSquare {
          positionalValue := positionalValue - 200;
        }
      }
    }
    value := baseValue + positionalValue;
  }

  /**
   * The local variables `evaluate` carries across its square scan: the running score, the
   * centre and development counters, and where each king was last seen.
   */
  datatype Tally = Tally(
    score: int,
    whiteCenter: int, blackCenter: int,
    whiteDevelopedKnights: int, blackDevelopedKnights: int,
    whiteDevelopedBishops: int, blackDevelopedBishops: int,
    whiteKingRow: int, whiteKingCol: int, blackKingRow: int, blackKingCol: int,
    whiteCastled: bool, blackCastled: bool)

  /** The counters weighed as `evaluate` weighs them once the scan is over. */
  function Bonus(t: Tally): int
  {
    15 * t.whiteCenter - 15 * t.blackCenter + 10 * t.whiteDevelopedKnights - 10 * t.blackDevelopedKnights
    + 10 * t.whiteDevelopedBishops - 10 * t.blackDevelopedBishops
  }

  /** The running score plus the weighed counters is the sum of the square terms below k. */
  ghost predicate ScoreAfter(g: Grid, t: Tally, k: nat)
    requires k <= 64
  {
    t.score + Bonus(t) == SumTo(SquareTerms(g, PieceCount(g)), k)
  }

  /** The king bookkeeping after the squares below k. */
  ghost predicate KingsAfter(g: Grid, t: Tally, k: nat)
    requires k <= 64
  {
    (t.whiteKingRow, t.whiteKingCol) == LastKingTo(g, White, k)
    && (t.blackKingRow, t.blackKingCol) == LastKingTo(g, Black, k)
    && t.whiteCastled == CastledTo(g, White, k)
    && t.blackCastled == CastledTo(g, Black, k)
  }

  /** What the scan has gathered after the squares below k. */
  ghost predicate TallyAfter(g: Grid, t: Tally, k: nat)
    requires k <= 64
  {
    ScoreAfter(g, t, k) && KingsAfter(g, t, k)
  }

  /** What an occupied square adds to the row-major sum, split as `evaluate` splits it. */
  lemma SquareTermSplit(g: Grid, piece: Piece, row: int, col: int, value: int)
    requires OnBoard(row, col) && At(g, row, col) == Some(piece)
    requires value == PieceValue(piece.kind) + Positional(piece, PieceCount(g), row, col)
    ensures SquareTerms(g, PieceCount(g))(row, col) ==
      Signed(piece.color, value) + Signed(piece.color, if IsCenter(row, col) then 15 else 0)
      + Signed(piece.color, if Developed(piece, row) then 10 else 0)
  {
  }

  /** One more square of the king scan. */
  lemma KingScanStep(g: Grid, color: Color, r: int, c: int)
    requires OnBoard(r, c)
    ensures LastKingTo(g, color, Index(r, c) + 1) ==
      if IsKingOf(At(g, r, c), color) then (r, c) else LastKingTo(g, color, Index(r, c))
    ensures CastledTo(g, color, Index(r, c) + 1) ==
      (CastledTo(g, color, Index(r, c)) || (IsKingOf(At(g, r, c), color) && (c == 6 || c == 2)))
  {
    IndexStep(r, c);
  }

  /** The centre loop: the piece counts for its colour when it stands on one of the four centre squares. */
  method CountCenter(piece: Piece, row: int, col: int, t: Tally) returns (t': Tally)
    ensures t' == t.(whiteCenter := t'.whiteCenter, blackCenter := t'.blackCenter)
    ensures Bonus(t') == Bonus(t) + Signed(piece.color, if IsCenter(row, col) then 15 else 0)
  {
    t' := t;
    for i := 0 to 4
      invariant t' == t.(whiteCenter := t'.whiteCenter, blackCenter := t'.blackCenter)
      invariant Bonus(t') == Bonus(t) + Signed(piece.color, if (row, col) in CenterSquares[..i] then 15 else 0)
    {
      if row == CenterSquares[i].0 && col == CenterSquares[i].1 {
        if piece.color == White {
          t' := t'.(whiteCenter := t'.whiteCenter + 1);
        } else {
          t' := t'.(blackCenter := t'.blackCenter + 1);
        }
      }
      assert CenterSquares[..i + 1] == CenterSquares[..i] + [CenterSquares[i]];
    }
    assert CenterSquares[..4] == CenterSquares;
  }

  /** The development counters: a knight or bishop off its own back rank counts for its colour. */
  method CountDevelopment(piece: Piece, row: int, t: Tally) returns (t': Tally)
    ensures t' == t.(whiteDevelopedKnights := t'.whiteDevelopedKnights, blackDevelopedKnights := t'.blackDevelopedKnights,
                     whiteDevelopedBishops := t'.whiteDevelopedBishops, blackDevelopedBishops := t'.blackDevelopedBishops)
    ensures Bonus(t') == Bonus(t) + Signed(piece.color, if Developed(piece, row) then 10 else 0)
  {
    t' := t;
    if piece.kind == Knight {
      if piece.color == White && row < 7 {
        t' := t'.(whiteDevelopedKnights := t'.whiteDevelopedKnights + 1);
      }
      if piece.color == Black && row > 0 {
        t' := t'.(blackDevelopedKnights := t'.blackDevelopedKnights + 1);
      }
    }
    if piece.kind == Bishop {
      if piece.color == White && row < 7 {
        t' := t'.(whiteDevelopedBishops := t'.whiteDevelopedBishops + 1);
      }
      if piece.color == Black && row > 0 {
        t' := t'.(blackDevelopedBishops := t'.blackDevelopedBishops + 1);
      }
    }
  }

  /** The king bookkeeping: where each king was last seen, and whether on column 6 or 2. */
  method TrackKing(piece: Piece, row: int, col: int, t: Tally) returns (t': Tally)
    ensures t' == t.(whiteKingRow := t'.whiteKingRow, whiteKingCol := t'.whiteKingCol,
                     blackKingRow := t'.blackKingRow, blackKingCol := t'.blackKingCol,
                     whiteCastled := t'.whiteCastled, blackCastled := t'.blackCastled)
    ensures (t'.whiteKingRow, t'.whiteKingCol) ==
      if IsKingOf(Some(piece), White) then (row, col) else (t.whiteKingRow, t.whiteKingCol)
    ensures (t'.blackKingRow, t'.blackKingCol) ==
      if IsKingOf(Some(piece), Black) then (row, col) else (t.blackKingRow, t.blackKingCol)
    ensures t'.whiteCastled == (t.whiteCastled || (IsKingOf(Some(piece), White) && (col == 6 || col == 2)))
    ensures t'.blackCastled == (t.blackCastled || (IsKingOf(Some(piece), Black) && (col == 6 || col == 2)))
  {
    t' := t;
    if piece.kind == King {
      if piece.color == White {
        t' := t'.(whiteKingRow := row, whiteKingCol := col);
        if col == 6 || col == 2 {
          t' := t'.(whiteCastled := true);
        }
      } else {
        t' := t'.(blackKingRow := row, blackKingCol := col);
        if col == 6 || col == 2 {
          t' := t'.(blackCastled := true);
        }
      }
    }
  }

  /** The score part of the tally advances by the square's term. */
  lemma ScoreStep(g: Grid, t: Tally, t': Tally, row: int, col: int)
    requires OnBoard(row, col) && ScoreAfter(g, t, Index(row, col))
    requires t'.score + Bonus(t') == t.score + Bonus(t) + SquareTerms(g, PieceCount(g))(row, col)
    ensures ScoreAfter(g, t', Index(row, col + 1))
  {
    SumStep(SquareTerms(g, PieceCount(g)), row, col);
    assert Index(row, col) + 1 == Index(row, col + 1);
  }

  /** The king part of the tally advances by the square's occupant. */
  lemma KingsStep(g: Grid, t: Tally, t': Tally, row: int, col: int)
    requires OnBoard(row, col) && KingsAfter(g, t, Index(row, col))
    requires (t'.whiteKingRow, t'.whiteKingCol) ==
      if IsKingOf(At(g, row, col), White) then (row, col) else (t.whiteKingRow, t.whiteKingCol)
    requires (t'.blackKingRow, t'.blackKingCol) ==
      if IsKingOf(At(g, row, col), Black) then (row, col) else (t.blackKingRow, t.blackKingCol)
    requires t'.whiteCastled == (t.whiteCastled || (IsKingOf(At(g, row, col), White) && (col == 6 || col == 2)))
    requires t'.blackCastled == (t.blackCastled || (IsKingOf(At(g, row, col), Black) && (col == 6 || col == 2)))
    ensures KingsAfter(g, t', Index(row, col + 1))
  {
    KingScanStep(g, White, row, col);
    KingScanStep(g, Black, row, col);
    assert Index(row, col) + 1 == Index(row, col + 1);
  }

  /** The body of `evaluate`'s square scan for (row, col). */
  method ScanSquare(board: Board, row: int, col: int, t: Tally) returns (t': Tally)
    requires OnBoard(row, col) && TallyAfter(board.grid, t, Index(row, col))
    ensures TallyAfter(board.grid, t', Index(row, col + 1))
  {
    ghost var g := board.grid;
    t' := t;
    var square := board.grid[row][col];
    if square.None? {
      ScoreStep(g, t, t', row, col);
      KingsStep(g, t, t', row, col);
      return;
    }
    var piece := square.value;
    var value := MaterialAndPosition(board, piece, row, col);
    SquareTermSplit(g, piece, row, col, value);
    t' := CountCenter(piece, row, col, t');
    t' := CountDevelopment(piece, row, t');
    t' := TrackKing(piece, row, col, t');
    if piece.color == White {
      t' := t'.(score := t'.score + value);
    } else {
      t' := t'.(score := t'.score - value);
    }
    ScoreStep(g, t, t', row, col);
    KingsStep(g, t, t', row, col);
  }

  /** The tally before any square: zero counts, no king seen (-1, -1), not castled. */
  method NoneSeen() returns (t: Tally)
    ensures t.score + Bonus(t) == 0
    ensures t.whiteKingRow == t.whiteKingCol == t.blackKingRow == t.blackKingCol == -1
    ensures !t.whiteCastled && !t.blackCastled
  {
    t := Tally(0, 0, 0, 0, 0, 0, 0, -1, -1, -1, -1, false, false);
  }

  /** Before any square the tally holds the empty sum and no king. */
  lemma ScanStart(g: Grid, t: Tally)
    requires t.score + Bonus(t) == 0
    requires t.whiteKingRow == t.whiteKingCol == t.blackKingRow == t.blackKingCol == -1
    requires !t.whiteCastled && !t.blackCastled
    ensures TallyAfter(g, t, Index(0, 0))
  {
  }

  /** After all 64 squares the tally holds the whole square sum and the final king bookkeeping. */
  lemma ScanComplete(g: Grid, t: Tally)
    requires TallyAfter(g, t, Index(8, 0))
    ensures t.score + Bonus(t) == SumTo(SquareTerms(g, PieceCount(g)), 64)
    ensures (t.whiteKingRow, t.whiteKingCol) == LastKingTo(g, White, 64)
    ensures (t.blackKingRow, t.blackKingCol) == LastKingTo(g, Black, 64)
    ensures t.whiteCastled == CastledTo(g, White, 64) && t.blackCastled == CastledTo(g, Black, 64)
  {
  }

  /** The king-safety tail of `evaluate`, given what the square scan found. */
  method KingSafetyAdjustment(board: Board, whiteKingRow: int, whiteKingCol: int,
                              blackKingRow: int, blackKingCol: int,
                              whiteCastled: bool, blackCastled: bool) returns (adjustment: int)
    requires (whiteKingRow, whiteKingCol) == LastKingTo(board.grid, White, 64)
    requires (blackKingRow, blackKingCol) == LastKingTo(board.grid, Black, 64)
    requires whiteCastled == CastledTo(board.grid, White, 64)
    requires blackCastled == CastledTo(board.grid, Black, 64)
    ensures adjustment == KingSafety(board.grid)
  {
    adjustment := 0;
    var queensPresent := QueensPresent(board);
    if queensPresent {
      if !whiteCastled && (whiteKingRow != 7 || whiteKingCol != 4) {
        adjustment := adjustment - 40;
      }
      if whiteCastled {
        adjustment := adjustment + 30;
      }
      if !blackCastled && (blackKingRow != 0 || blackKingCol != 4) {
        adjustment := adjustment + 40;
      }
      if blackCastled {
        adjustment := adjustment - 30;
      }
    }
  }

  /** The square scan of `evaluate`: both loops over the board, gathering the tally. */
  method ScanSquares(board: Board) returns (t: Tally)
    ensures TallyAfter(board.grid, t, Index(8, 0))
  {
    t := NoneSeen();
    ScanStart(board.grid, t);
    for row := 0 to 8
      invariant TallyAfter(board.grid, t, Index(row, 0))
    {
      for col := 0 to 8
        invariant TallyAfter(board.grid, t, Index(row, col))
      {
        t := ScanSquare(board, row, col, t);
      }
      assert Index(row, 8) == Index(row + 1, 0);
    }
  }

  /** `evaluate(board)`: the score, White-positive. */
  method Evaluate(board: Board) returns (score: int)
    ensures score == Score(board.grid)
  {
    var t := ScanSquares(board);
    ScanComplete(board.grid, t);
    score := t.score;
    score := score + 15 * t.whiteCenter;
    score := score - 15 * t.blackCenter;
    score := score + 10 * t.whiteDevelopedKnights;
    score := score - 10 * t.blackDevelopedKnights;
    score := score + 10 * t.whiteDevelopedBishops;
    score := score - 10 * t.blackDevelopedBishops;

    var whiteIsolated := EvaluateIsolatedPawns(board, White);
    score := score - whiteIsolated;
    var blackIsolated := EvaluateIsolatedPawns(board, Black);
    score := score + blackIsolated;

    var safety := KingSafetyAdjustment(board, t.whiteKingRow, t.whiteKingCol, t.blackKingRow, t.blackKingCol,
                                       t.whiteCastled, t.blackCastled);
    score := score + safety;
  }
}
