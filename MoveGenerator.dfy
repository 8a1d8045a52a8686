// The brute-force move generator of src/core/move_generator.cpp: every own piece, every
// destination, filtered by the piece rule, then by `movePiece` and `isInCheck` on a copy.
// The class has no state, so its two members are module-level methods here.

module MoveGenerator {
  import opened Pieces
  import opened PieceRules
  import opened BoardModel
  import opened Boards

  /** Row-major square index k as (row, column). */
  lemma Decode(k: int)
    requires 0 <= k < 64
    ensures OnBoard(k / 8, k % 8) && Index(k / 8, k % 8) == k
  {
  }

  // ------------------------------------------------------------ the scan

  /** A candidate test on (fromRow, fromCol, toRow, toCol). */
  type Filter = (int, int, int, int) -> bool

  /**
   * The moves from (fr, fc) to the destinations whose row-major index is below j that
   * `keep` accepts, in scan order, each recording the piece at (fr, fc).
   */
  function Scan(keep: Filter, g: Grid, fr: int, fc: int, j: nat): seq<Move>
    requires OnBoard(fr, fc) && j <= 64
  {
    if j == 0 then []
    else
      var tr, tc := (j - 1) / 8, (j - 1) % 8;
      Scan(keep, g, fr, fc, j - 1) + (if keep(fr, fc, tr, tc) then [Move(fr, fc, tr, tc, At(g, fr, fc))] else [])
  }

  /** The accepted moves from the sources whose row-major index is below i. */
  function ScanAll(keep: Filter, g: Grid, i: nat): seq<Move>
    requires i <= 64
  {
    if i == 0 then []
    else ScanAll(keep, g, i - 1) + Scan(keep, g, (i - 1) / 8, (i - 1) % 8, 64)
  }

  /** One more destination scanned: the move to (tr, tc) is appended when `keep` accepts it. */
  lemma ScanStep(keep: Filter, g: Grid, fr: int, fc: int, tr: int, tc: int)
    requires OnBoard(fr, fc) && OnBoard(tr, tc)
    ensures Scan(keep, g, fr, fc, Index(tr, tc + 1)) ==
            Scan(keep, g, fr, fc, Index(tr, tc)) + (if keep(fr, fc, tr, tc) then [Move(fr, fc, tr, tc, At(g, fr, fc))] else [])
  {
    IndexStep(tr, tc);
  }

  /** One more source scanned: all of its accepted destinations are appended. */
  lemma ScanAllStep(keep: Filter, g: Grid, fr: int, fc: int)
    requires OnBoard(fr, fc)
    ensures ScanAll(keep, g, Index(fr, fc + 1)) == ScanAll(keep, g, Index(fr, fc)) + Scan(keep, g, fr, fc, 64)
  {
    IndexStep(fr, fc);
  }

  /** Where a move stands in the scan: source index, then destination index. */
  function ScanKey(m: Move): int
  {
    Index(m.fromRow, m.fromCol) * 64 + Index(m.toRow, m.toCol)
  }

  /** Strictly increasing scan keys: scan order, and no move twice. */
  predicate Increasing(ms: seq<Move>)
  {
    forall a, b | 0 <= a < b < |ms| :: ScanKey(ms[a]) < ScanKey(ms[b])
  }

  /** What holds of one scanned move: on the board, accepted, recording the piece at its source. */
  predicate Accepted(keep: Filter, g: Grid, m: Move)
  {
    MoveOnBoard(m) && keep(m.fromRow, m.fromCol, m.toRow, m.toCol) &&
    m.pieceMoved == At(g, m.fromRow, m.fromCol)
  }

  lemma {:induction false} ScanSound(keep: Filter, g: Grid, fr: int, fc: int, j: nat, m: Move)
    requires OnBoard(fr, fc) && j <= 64 && m in Scan(keep, g, fr, fc, j)
    ensures Accepted(keep, g, m)
    ensures m.fromRow == fr && m.fromCol == fc && Index(m.toRow, m.toCol) < j
  {
    Decode(j - 1);
    if m !in Scan(keep, g, fr, fc, j - 1) {
      assert m == Move(fr, fc, (j - 1) / 8, (j - 1) % 8, At(g, fr, fc));
    } else {
      ScanSound(keep, g, fr, fc, j - 1, m);
    }
  }

  lemma {:induction false} ScanComplete(keep: Filter, g: Grid, fr: int, fc: int, j: nat, tr: int, tc: int)
    requires OnBoard(fr, fc) && OnBoard(tr, tc) && j <= 64 && Index(tr, tc) < j
    requires keep(fr, fc, tr, tc)
    ensures Move(fr, fc, tr, tc, At(g, fr, fc)) in Scan(keep, g, fr, fc, j)
  {
    Decode(j - 1);
    if Index(tr, tc) == j - 1 {
      IndexInjective(tr, tc, (j - 1) / 8, (j - 1) % 8);
    } else {
      ScanComplete(keep, g, fr, fc, j - 1, tr, tc);
    }
  }

  lemma {:induction false} ScanAllSound(keep: Filter, g: Grid, i: nat, m: Move)
    requires i <= 64 && m in ScanAll(keep, g, i)
    ensures Accepted(keep, g, m) && Index(m.fromRow, m.fromCol) < i
  {
    Decode(i - 1);
    if m in ScanAll(keep, g, i - 1) {
      ScanAllSound(keep, g, i - 1, m);
    } else {
      ScanSound(keep, g, (i - 1) / 8, (i - 1) % 8, 64, m);
    }
  }

  lemma {:induction false} ScanAllComplete(keep: Filter, g: Grid, i: nat, fr: int, fc: int, tr: int, tc: int)
    requires OnBoard(fr, fc) && OnBoard(tr, tc) && i <= 64 && Index(fr, fc) < i
    requires keep(fr, fc, tr, tc)
    ensures Move(fr, fc, tr, tc, At(g, fr, fc)) in ScanAll(keep, g, i)
  {
    Decode(i - 1);
    if Index(fr, fc) == i - 1 {
      IndexInjective(fr, fc, (i - 1) / 8, (i - 1) % 8);
      ScanComplete(keep, g, fr, fc, 64, tr, tc);
    } else {
      ScanAllComplete(keep, g, i - 1, fr, fc, tr, tc);
    }
  }

  lemma {:induction false} ScanOrdered(keep: Filter, g: Grid, fr: int, fc: int, j: nat)
    requires OnBoard(fr, fc) && j <= 64
    ensures Increasing(Scan(keep, g, fr, fc, j))
  {
    if j > 0 {
      ScanOrdered(keep, g, fr, fc, j - 1);
      var prev := Scan(keep, g, fr, fc, j - 1);
      var ms := Scan(keep, g, fr, fc, j);
      Decode(j - 1);
      forall a, b | 0 <= a < b < |ms|
        ensures ScanKey(ms[a]) < ScanKey(ms[b])
      {
        if b >= |prev| {
          assert ms[a] == prev[a];
          assert ms[b] == Move(fr, fc, (j - 1) / 8, (j - 1) % 8, At(g, fr, fc));
          ScanSound(keep, g, fr, fc, j - 1, prev[a]);
        } else {
          assert ms[a] == prev[a] && ms[b] == prev[b];
          assert ScanKey(prev[a]) < ScanKey(prev[b]);
        }
      }
    }
  }

  lemma {:induction false} ScanAllOrdered(keep: Filter, g: Grid, i: nat)
    requires i <= 64
    ensures Increasing(ScanAll(keep, g, i))
  {
    if i > 0 {
      ScanAllOrdered(keep, g, i - 1);
      Decode(i - 1);
      var prev := ScanAll(keep, g, i - 1);
      var last := Scan(keep, g, (i - 1) / 8, (i - 1) % 8, 64);
      ScanOrdered(keep, g, (i - 1) / 8, (i - 1) % 8, 64);
      var ms := ScanAll(keep, g, i);
      assert ms == prev + last;
      forall a, b | 0 <= a < b < |ms|
        ensures ScanKey(ms[a]) < ScanKey(ms[b])
      {
        if a >= |prev| {
          assert ms[a] == last[a - |prev|] && ms[b] == last[b - |prev|];
          assert ScanKey(last[a - |prev|]) < ScanKey(last[b - |prev|]);
        } else if b >= |prev| {
          assert ms[a] == prev[a] && ms[b] == last[b - |prev|];
          ScanAllSound(keep, g, i - 1, prev[a]);
          ScanSound(keep, g, (i - 1) / 8, (i - 1) % 8, 64, last[b - |prev|]);
        } else {
          assert ms[a] == prev[a] && ms[b] == prev[b];
          assert ScanKey(prev[a]) < ScanKey(prev[b]);
        }
      }
    }
  }

  /** A source square the filter refuses outright contributes nothing. */
  lemma {:induction false} ScanOfRefusedSource(keep: Filter, g: Grid, fr: int, fc: int, j: nat)
    requires OnBoard(fr, fc) && j <= 64
    requires forall tr, tc :: !keep(fr, fc, tr, tc)
    ensures Scan(keep, g, fr, fc, j) == []
  {
    if j > 0 {
      ScanOfRefusedSource(keep, g, fr, fc, j - 1);
    }
  }

  // ------------------------------------------------------------ generateLegalMoves

  /**
   * The filter `generateLegalMoves` applies to one candidate: the source holds a piece of
   * `color`, the destination differs from it, the piece's rule allows the move on the input
   * grid, `movePiece` succeeds on a copy of the board, and the copy is then not in check.
   */
  predicate Generated(s: BoardState, color: Color, promotion: char, fr: int, fc: int, tr: int, tc: int)
    requires OnBoard(fr, fc) && OnBoard(tr, tc)
  {
    (fr != tr || fc != tc) && IsPieceOf(At(s.grid, fr, fc), color) &&
    IsValidMove(At(s.grid, fr, fc).value, s.grid, fr, fc, tr, tc) &&
    var out := MovePieceOutcome(CopyOf(s), fr, fc, tr, tc, promotion);
    out.ok && !InCheck(out.after.grid, color)
  }

  function GenerateFilter(s: BoardState, color: Color, promotion: char): Filter
  {
    (fr, fc, tr, tc) => OnBoard(fr, fc) && OnBoard(tr, tc) && Generated(s, color, promotion, fr, fc, tr, tc)
  }

  /** The list `generateLegalMoves(board, color)` returns. */
  function LegalMoves(s: BoardState, color: Color, promotion: char): seq<Move>
  {
    ScanAll(GenerateFilter(s, color, promotion), s.grid, 64)
  }

  /** Every listed move passes the filter and records the piece standing on its source. */
  lemma LegalMovesSound(s: BoardState, color: Color, promotion: char, m: Move)
    requires m in LegalMoves(s, color, promotion)
    ensures MoveOnBoard(m) && (m.fromRow != m.toRow || m.fromCol != m.toCol)
    ensures IsPieceOf(At(s.grid, m.fromRow, m.fromCol), color)
    ensures m.pieceMoved == At(s.grid, m.fromRow, m.fromCol)
    ensures IsValidMove(m.pieceMoved.value, s.grid, m.fromRow, m.fromCol, m.toRow, m.toCol)
    ensures MovePieceOutcome(CopyOf(s), m.fromRow, m.fromCol, m.toRow, m.toCol, promotion).ok
    ensures !InCheck(MovePieceOutcome(CopyOf(s), m.fromRow, m.fromCol, m.toRow, m.toCol, promotion).after.grid, color)
  {
    ScanAllSound(GenerateFilter(s, color, promotion), s.grid, 64, m);
    assert Generated(s, color, promotion, m.fromRow, m.fromCol, m.toRow, m.toCol);
  }

  /** Every candidate that passes the filter is listed. */
  lemma LegalMovesComplete(s: BoardState, color: Color, promotion: char, fr: int, fc: int, tr: int, tc: int)
    requires OnBoard(fr, fc) && OnBoard(tr, tc)
    requires Generated(s, color, promotion, fr, fc, tr, tc)
    ensures Move(fr, fc, tr, tc, At(s.grid, fr, fc)) in LegalMoves(s, color, promotion)
  {
    ScanAllComplete(GenerateFilter(s, color, promotion), s.grid, 64, fr, fc, tr, tc);
  }

  /**
   * The list is in row-major source order, then row-major destination order; in particular
   * no move is listed twice.
   */
  lemma LegalMovesOrdered(s: BoardState, color: Color, promotion: char)
    ensures var ms := LegalMoves(s, color, promotion);
      forall a, b | 0 <= a < b < |ms| :: ScanKey(ms[a]) < ScanKey(ms[b])
  {
    ScanAllOrdered(GenerateFilter(s, color, promotion), s.grid, 64);
  }

  /** Asked for the side not to move, the generator finds nothing: `movePiece` refuses each candidate. */
  lemma LegalMovesOnlyForSideToMove(s: BoardState, color: Color, promotion: char)
    requires color != s.turn
    ensures LegalMoves(s, color, promotion) == []
  {
    var ms := LegalMoves(s, color, promotion);
    if ms != [] {
      LegalMovesSound(s, color, promotion, ms[0]);
    }
  }

  /** No listed move is an en-passant capture: the pawn rule refuses a diagonal step onto an empty square. */
  lemma LegalMovesHaveNoEnPassant(s: BoardState, color: Color, promotion: char, m: Move)
    requires m in LegalMoves(s, color, promotion)
    ensures MoveOnBoard(m) && m.pieceMoved.Some?
    ensures !IsEnPassant(s, m.pieceMoved.value, m.fromRow, m.fromCol, m.toRow, m.toCol)
  {
    LegalMovesSound(s, color, promotion, m);
    var p := m.pieceMoved.value;
    if p.kind == Pawn && s.lastMove.pieceMoved.Some? && CanEnPassant(p.color, s.grid, m.fromRow, m.fromCol, m.toRow, m.toCol, s.lastMove) {
      EnPassantIsNotPawnMove(p.color, s.grid, m.fromRow, m.fromCol, m.toRow, m.toCol, s.lastMove);
    }
  }

  /** The destination scan for one source square, each candidate played on a fresh copy. */
  method ScanDestinations(board: Board, color: Color, promotion: char, fr: int, fc: int, piece: Piece) returns (found: seq<Move>)
    requires OnBoard(fr, fc) && At(board.grid, fr, fc) == Some(piece) && piece.color == color
    ensures found == Scan(GenerateFilter(board.State(), color, promotion), board.grid, fr, fc, 64)
  {
    found := [];
    for toRow := 0 to 8
      invariant found == Scan(GenerateFilter(board.State(), color, promotion), board.grid, fr, fc, Index(toRow, 0))
    {
      found := ScanDestinationRow(board, color, promotion, fr, fc, piece, toRow, found);
    }
  }

  /** The inner loop of the destination scan: the eight squares of one row. */
  method ScanDestinationRow(board: Board, color: Color, promotion: char, fr: int, fc: int, piece: Piece,
                            toRow: int, found: seq<Move>) returns (found': seq<Move>)
    requires OnBoard(fr, fc) && 0 <= toRow < 8 && At(board.grid, fr, fc) == Some(piece) && piece.color == color
    requires found == Scan(GenerateFilter(board.State(), color, promotion), board.grid, fr, fc, Index(toRow, 0))
    ensures found' == Scan(GenerateFilter(board.State(), color, promotion), board.grid, fr, fc, Index(toRow + 1, 0))
  {
    found' := found;
    for toCol := 0 to 8
      invariant found' == Scan(GenerateFilter(board.State(), color, promotion), board.grid, fr, fc, Index(toRow, toCol))
    {
      found' := VisitDestination(board, color, promotion, fr, fc, piece, toRow, toCol, found');
    }
  }

  /** One destination of the scan: skipped when it is the source, else tried and, when legal, appended. */
  method VisitDestination(board: Board, color: Color, promotion: char, fr: int, fc: int, piece: Piece,
                          tr: int, tc: int, found: seq<Move>) returns (found': seq<Move>)
    requires OnBoard(fr, fc) && OnBoard(tr, tc) && At(board.grid, fr, fc) == Some(piece) && piece.color == color
    requires found == Scan(GenerateFilter(board.State(), color, promotion), board.grid, fr, fc, Index(tr, tc))
    ensures found' == Scan(GenerateFilter(board.State(), color, promotion), board.grid, fr, fc, Index(tr, tc + 1))
  {
    ScanStep(GenerateFilter(board.State(), color, promotion), board.grid, fr, fc, tr, tc);
    found' := found;
    if fr == tr && fc == tc {
      return;
    }
    var legal := TryCandidate(board, color, promotion, piece, fr, fc, tr, tc);
    if legal {
      found' := found + [Move(fr, fc, tr, tc, Some(piece))];
    }
  }

  /** One candidate of `generateLegalMoves`: the piece rule, then `movePiece` and `isInCheck` on a copy. */
  method TryCandidate(board: Board, color: Color, promotion: char, piece: Piece, fr: int, fc: int, tr: int, tc: int)
    returns (legal: bool)
    requires OnBoard(fr, fc) && OnBoard(tr, tc) && (fr != tr || fc != tc)
    requires At(board.grid, fr, fc) == Some(piece) && piece.color == color
    ensures legal == Generated(board.State(), color, promotion, fr, fc, tr, tc)
  {
    var valid := PieceIsValidMove(piece, board.grid, fr, fc, tr, tc);
    if !valid {
      return false;
    }
    var temp := new Board.Copy(board);
    var ok := temp.MovePiece(fr, fc, tr, tc, promotion);
    if !ok {
      return false;
    }
    var check := temp.IsInCheck(color);
    return !check;
  }

  /** `generateLegalMoves`: the input board is only read (every simulation runs on a copy). */
  method GenerateLegalMoves(board: Board, color: Color, promotion: char) returns (moves: seq<Move>)
    ensures moves == LegalMoves(board.State(), color, promotion)
  {
    moves := [];
    for fromRow := 0 to 8
      invariant moves == ScanAll(GenerateFilter(board.State(), color, promotion), board.grid, Index(fromRow, 0))
    {
      moves := ScanSourceRow(board, color, promotion, fromRow, moves);
    }
  }

  /** The second loop of `generateLegalMoves`: the eight source squares of one row. */
  method ScanSourceRow(board: Board, color: Color, promotion: char, fromRow: int, moves: seq<Move>)
    returns (moves': seq<Move>)
    requires 0 <= fromRow < 8
    requires moves == ScanAll(GenerateFilter(board.State(), color, promotion), board.grid, Index(fromRow, 0))
    ensures moves' == ScanAll(GenerateFilter(board.State(), color, promotion), board.grid, Index(fromRow + 1, 0))
  {
    moves' := moves;
    for fromCol := 0 to 8
      invariant moves' == ScanAll(GenerateFilter(board.State(), color, promotion), board.grid, Index(fromRow, fromCol))
    {
      moves' := VisitSource(board, color, promotion, fromRow, fromCol, moves');
    }
  }

  /** One source square: skipped unless it holds a piece of `color`, else its destinations appended. */
  method VisitSource(board: Board, color: Color, promotion: char, fr: int, fc: int, moves: seq<Move>)
    returns (moves': seq<Move>)
    requires OnBoard(fr, fc)
    requires moves == ScanAll(GenerateFilter(board.State(), color, promotion), board.grid, Index(fr, fc))
    ensures moves' == ScanAll(GenerateFilter(board.State(), color, promotion), board.grid, Index(fr, fc + 1))
  {
    ScanAllStep(GenerateFilter(board.State(), color, promotion), board.grid, fr, fc);
    var square := board.grid[fr][fc];
    if square.None? || square.value.color != color {
      ScanOfRefusedSource(GenerateFilter(board.State(), color, promotion), board.grid, fr, fc, 64);
      return moves;
    }
    var found := ScanDestinations(board, color, promotion, fr, fc, square.value);
    moves' := moves + found;
  }

  // ------------------------------------------------------------ countAllLegalMoves

  /** The candidate test of `countAllLegalMoves`: the one `hasLegalMoves` uses. */
  function RelocationFilter(g: Grid, color: Color): Filter
  {
    (fr, fc, tr, tc) => OnBoard(fr, fc) && OnBoard(tr, tc) && LegalRelocation(g, color, fr, fc, tr, tc)
  }

  /** The number `countAllLegalMoves` returns: how many relocations the side to move has. */
  function RelocationCount(s: BoardState): nat
  {
    |ScanAll(RelocationFilter(s.grid, s.turn), s.grid, 64)|
  }

  /** `countAllLegalMoves` is positive exactly when `hasLegalMoves` holds for the side to move. */
  lemma RelocationCountPositive(s: BoardState)
    ensures RelocationCount(s) > 0 <==> HasLegalMoves(s.grid, s.turn)
  {
    var keep := RelocationFilter(s.grid, s.turn);
    var ms := ScanAll(keep, s.grid, 64);
    if |ms| > 0 {
      ScanAllSound(keep, s.grid, 64, ms[0]);
      var m := ms[0];
      assert LegalRelocation(s.grid, s.turn, m.fromRow, m.fromCol, m.toRow, m.toCol);
      assert SquareHasLegalRelocation(s.grid, s.turn, m.fromRow, m.fromCol);
    }
    if HasLegalMoves(s.grid, s.turn) {
      var fr, fc :| 0 <= fr < 8 && 0 <= fc < 8 && SquareHasLegalRelocation(s.grid, s.turn, fr, fc);
      var tr, tc :| 0 <= tr < 8 && 0 <= tc < 8 && LegalRelocation(s.grid, s.turn, fr, fc, tr, tc);
      ScanAllComplete(keep, s.grid, 64, fr, fc, tr, tc);
    }
  }

  /** The destination count for one source square, each candidate relocated on a fresh copy. */
  method CountDestinations(board: Board, fr: int, fc: int, piece: Piece) returns (count: nat)
    requires OnBoard(fr, fc) && At(board.grid, fr, fc) == Some(piece) && piece.color == board.currentTurn
    ensures count == |Scan(RelocationFilter(board.grid, board.currentTurn), board.grid, fr, fc, 64)|
  {
    count := 0;
    for toRow := 0 to 8
      invariant count == |Scan(RelocationFilter(board.grid, board.currentTurn), board.grid, fr, fc, Index(toRow, 0))|
    {
      count := CountDestinationRow(board, fr, fc, piece, toRow, count);
    }
  }

  /** The inner loop of the destination count: the eight squares of one row. */
  method CountDestinationRow(board: Board, fr: int, fc: int, piece: Piece, toRow: int, count: nat) returns (count': nat)
    requires OnBoard(fr, fc) && 0 <= toRow < 8 && At(board.grid, fr, fc) == Some(piece) && piece.color == board.currentTurn
    requires count == |Scan(RelocationFilter(board.grid, board.currentTurn), board.grid, fr, fc, Index(toRow, 0))|
    ensures count' == |Scan(RelocationFilter(board.grid, board.currentTurn), board.grid, fr, fc, Index(toRow + 1, 0))|
  {
    count' := count;
    for toCol := 0 to 8
      invariant count' == |Scan(RelocationFilter(board.grid, board.currentTurn), board.grid, fr, fc, Index(toRow, toCol))|
    {
      count' := CountDestination(board, fr, fc, piece, toRow, toCol, count');
    }
  }

  /** One destination of the count: one more when the piece's rule allows it and the relocated copy is not in check. */
  method CountDestination(board: Board, fr: int, fc: int, piece: Piece, tr: int, tc: int, count: nat) returns (count': nat)
    requires OnBoard(fr, fc) && OnBoard(tr, tc) && At(board.grid, fr, fc) == Some(piece) && piece.color == board.currentTurn
    requires count == |Scan(RelocationFilter(board.grid, board.currentTurn), board.grid, fr, fc, Index(tr, tc))|
    ensures count' == |Scan(RelocationFilter(board.grid, board.currentTurn), board.grid, fr, fc, Index(tr, tc + 1))|
  {
    ScanStep(RelocationFilter(board.grid, board.currentTurn), board.grid, fr, fc, tr, tc);
    count' := count;
    if fr == tr && fc == tc {
      return;
    }
    var valid := PieceIsValidMove(piece, board.grid, fr, fc, tr, tc);
    if valid {
      var check := RelocatedCopyInCheck(board, fr, fc, tr, tc);
      if !check {
        count' := count + 1;
      }
    }
  }

  /** The copy, the two writes through the writable grid, and the check test of one candidate. */
  method RelocatedCopyInCheck(board: Board, fr: int, fc: int, tr: int, tc: int) returns (check: bool)
    requires OnBoard(fr, fc) && OnBoard(tr, tc)
    ensures check == InCheck(Relocate(board.grid, fr, fc, tr, tc), board.currentTurn)
  {
    var temp := new Board.Copy(board);
    temp.WriteSquare(tr, tc, temp.grid[fr][fc]);
    temp.WriteSquare(fr, fc, None);
    check := temp.IsInCheck(board.currentTurn);
  }

  /** `countAllLegalMoves` (the diagnostic printing is not modelled). */
  method CountAllLegalMoves(board: Board) returns (count: nat)
    ensures count == RelocationCount(board.State())
  {
    count := 0;
    for fromRow := 0 to 8
      invariant count == |ScanAll(RelocationFilter(board.grid, board.currentTurn), board.grid, Index(fromRow, 0))|
    {
      count := CountSourceRow(board, fromRow, count);
    }
  }

  /** The second loop of `countAllLegalMoves`: the eight source squares of one row. */
  method CountSourceRow(board: Board, fromRow: int, count: nat) returns (count': nat)
    requires 0 <= fromRow < 8
    requires count == |ScanAll(RelocationFilter(board.grid, board.currentTurn), board.grid, Index(fromRow, 0))|
    ensures count' == |ScanAll(RelocationFilter(board.grid, board.currentTurn), board.grid, Index(fromRow + 1, 0))|
  {
    count' := count;
    for fromCol := 0 to 8
      invariant count' == |ScanAll(RelocationFilter(board.grid, board.currentTurn), board.grid, Index(fromRow, fromCol))|
    {
      count' := CountSource(board, fromRow, fromCol, count');
    }
  }

  /** One source square of the count: skipped unless it holds a piece of the side to move. */
  method CountSource(board: Board, fr: int, fc: int, count: nat) returns (count': nat)
    requires OnBoard(fr, fc)
    requires count == |ScanAll(RelocationFilter(board.grid, board.currentTurn), board.grid, Index(fr, fc))|
    ensures count' == |ScanAll(RelocationFilter(board.grid, board.currentTurn), board.grid, Index(fr, fc + 1))|
  {
    ScanAllStep(RelocationFilter(board.grid, board.currentTurn), board.grid, fr, fc);
    var piece := board.grid[fr][fc];
    if piece.None? || piece.value.color != board.currentTurn {
      ScanOfRefusedSource(RelocationFilter(board.grid, board.currentTurn), board.grid, fr, fc, 64);
      return count;
    }
    var found := CountDestinations(board, fr, fc, piece.value);
    count' := count + found;
  }
}
