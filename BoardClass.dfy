// The Board object of src/core/board.h and src/core/board.cpp: its fields are updated
// in place, and every method is proved against the specification in BoardModel.

module Boards {
  import opened Pieces
  import opened PieceRules
  import opened BoardModel
  import BoardLemmas

  function CloneSquare(x: Option<Piece>): (y: Option<Piece>)
    ensures y == x
  {
    match x
    case None => None
    case Some(p) => Some(Clone(p))
  }

  lemma IndexStep(r: int, c: int)
    requires OnBoard(r, c)
    ensures Index(r, c) / 8 == r && Index(r, c) % 8 == c
  {
  }

  lemma IndexInjective(r: int, c: int, r': int, c': int)
    requires OnBoard(r, c) && OnBoard(r', c') && Index(r, c) == Index(r', c')
    ensures r == r' && c == c'
  {
  }

  /** The first king in row-major order is the one `FindKing` returns. */
  lemma FindKingFirst(g: Grid, color: Color, r: int, c: int)
    requires OnBoard(r, c) && IsKingOf(At(g, r, c), color)
    requires forall r', c' | OnBoard(r', c') && Index(r', c') < Index(r, c) :: !IsKingOf(At(g, r', c'), color)
    ensures FindKing(g, color) == Some((r, c))
  {
    var found := FindKingFrom(g, color, 0);
    assert found.Some?;
    var (r', c') := found.value;
    assert !(Index(r', c') < Index(r, c));
    assert !(Index(r, c) < Index(r', c'));
    IndexInjective(r, c, r', c');
  }

  /** No king of this colour anywhere means `FindKing` finds none. */
  lemma FindKingNone(g: Grid, color: Color)
    requires forall r, c | OnBoard(r, c) && Index(r, c) < Index(8, 0) :: !IsKingOf(At(g, r, c), color)
    ensures FindKing(g, color).None?
  {
    var found := FindKingFrom(g, color, 0);
    assert found.Some? ==> Index(found.value.0, found.value.1) < Index(8, 0);
  }

  lemma AppendAssoc(a: string, b: string, c: string)
    ensures (a + b) + c == a + (b + c)
  {
  }

  lemma AppendEp(a: string, file: char, rank: char)
    ensures ((a + " ep") + [file]) + [rank] == a + (" ep" + [file, rank])
  {
  }

  /** The eight back-rank writes of `setupBoard` on one row, in the source's order. */
  lemma BackRankWrites(g: Grid, row: int, color: Color, uninit: bool)
    requires row == 0 || row == 7
    ensures var rook, knight, bishop := Piece(Rook, color, uninit), Piece(Knight, color, uninit), Piece(Bishop, color, uninit);
      var h := Put(Put(Put(Put(Put(Put(Put(Put(g, row, 7, Some(rook)), row, 0, Some(rook)),
                 row, 6, Some(knight)), row, 1, Some(knight)), row, 5, Some(bishop)), row, 2, Some(bishop)),
                 row, 3, Some(Piece(Queen, color, uninit))), row, 4, Some(Piece(King, color, uninit)));
      && (forall c | 0 <= c < 8 :: At(h, row, c) == Some(Piece(BackRankKind(c), color, uninit)))
      && (forall r, c | OnBoard(r, c) && r != row :: At(h, r, c) == At(g, r, c))
  {
  }

  class Board {
    var grid: Grid
    var currentTurn: Color
    var lastMove: Move
    var hasWhiteKingMoved: bool
    var hasBlackKingMoved: bool
    var hasWhiteKingsideRookMoved: bool
    var hasWhiteQueensideRookMoved: bool
    var hasBlackKingsideRookMoved: bool
    var hasBlackQueensideRookMoved: bool
    var halfmoveClock: int
    var positionHistory: map<string, int>

    function Flags(): CastlingFlags
      reads this
    {
      CastlingFlags(hasWhiteKingMoved, hasBlackKingMoved,
                    hasWhiteKingsideRookMoved, hasWhiteQueensideRookMoved,
                    hasBlackKingsideRookMoved, hasBlackQueensideRookMoved)
    }

    /** The value this board stands for. */
    function State(): BoardState
      reads this
    {
      BoardState(grid, currentTurn, lastMove, Flags(), halfmoveClock, positionHistory)
    }

    /** `Board()`: an empty grid with White to move. */
    constructor ()
      ensures State() == InitialState()
    {
      lastMove := DefaultMove();
      currentTurn := White;
      hasWhiteKingMoved, hasBlackKingMoved := false, false;
      hasWhiteKingsideRookMoved, hasWhiteQueensideRookMoved := false, false;
      hasBlackKingsideRookMoved, hasBlackQueensideRookMoved := false, false;
      halfmoveClock := 0;
      positionHistory := map[];
      new;
      ClearGrid();
    }

    /** The copy constructor: grid (piece by piece), last move and turn. */
    constructor Copy(other: Board)
      ensures State() == CopyOf(other.State())
    {
      lastMove := other.lastMove;
      currentTurn := other.currentTurn;
      hasWhiteKingMoved, hasBlackKingMoved := false, false;
      hasWhiteKingsideRookMoved, hasWhiteQueensideRookMoved := false, false;
      hasBlackKingsideRookMoved, hasBlackQueensideRookMoved := false, false;
      halfmoveClock := 0;
      positionHistory := map[];
      grid := EmptyGrid();
      new;
      CopyGridFrom(other);
    }

    /** Sets every square to empty. */
    method ClearGrid()
      modifies this
      ensures State() == old(State()).(grid := EmptyGrid())
    {
      for r := 0 to 8
        invariant State() == old(State()).(grid := grid)
        invariant forall r', c' | OnBoard(r', c') && r' < r :: At(grid, r', c').None?
      {
        for c := 0 to 8
          invariant State() == old(State()).(grid := grid)
          invariant forall r', c' | OnBoard(r', c') && Index(r', c') < Index(r, c) :: At(grid, r', c').None?
        {
          grid := Put(grid, r, c, None);
        }
      }
      BoardLemmas.GridExt(grid, EmptyGrid());
    }

    /** Copies the other board's grid square by square, cloning each piece. */
    method CopyGridFrom(other: Board)
      requires other != this
      modifies this
      ensures State() == old(State()).(grid := other.grid)
    {
      for r := 0 to 8
        invariant State() == old(State()).(grid := grid)
        invariant forall r', c' | OnBoard(r', c') && r' < r :: At(grid, r', c') == At(other.grid, r', c')
      {
        for c := 0 to 8
          invariant State() == old(State()).(grid := grid)
          invariant forall r', c' | OnBoard(r', c') && Index(r', c') < Index(r, c) :: At(grid, r', c') == At(other.grid, r', c')
        {
          grid := Put(grid, r, c, CloneSquare(other.grid[r][c]));
        }
      }
      BoardLemmas.GridExt(grid, other.grid);
    }

    /** `operator=`: grid and turn from the other board; nothing when assigning to itself. */
    method Assign(other: Board)
      modifies this
      ensures State() == AssignFrom(old(State()), old(other.State()))
    {
      if other == this {
        return;
      }
      ClearGrid();
      CopyGridFrom(other);
      currentTurn := other.currentTurn;
    }

    /** One back rank: R N B Q K B N R of one colour on one row; the other squares are kept. */
    method PlaceBackRank(row: int, color: Color, uninit: bool)
      requires row == 0 || row == 7
      modifies this
      ensures State() == old(State()).(grid := grid)
      ensures forall c | 0 <= c < 8 :: At(grid, row, c) == Some(Piece(BackRankKind(c), color, uninit))
      ensures forall r, c | OnBoard(r, c) && r != row :: At(grid, r, c) == At(old(grid), r, c)
    {
      BackRankWrites(grid, row, color, uninit);
      var rook, knight, bishop := Piece(Rook, color, uninit), Piece(Knight, color, uninit), Piece(Bishop, color, uninit);
      grid := Put(Put(grid, row, 7, Some(rook)), row, 0, Some(rook));
      grid := Put(Put(grid, row, 6, Some(knight)), row, 1, Some(knight));
      grid := Put(Put(grid, row, 5, Some(bishop)), row, 2, Some(bishop));
      grid := Put(grid, row, 3, Some(Piece(Queen, color, uninit)));
      grid := Put(grid, row, 4, Some(Piece(King, color, uninit)));
    }

    /** `setupBoard`: clears the grid and places the opening array; nothing else changes. */
    method SetupBoard(uninit: bool)
      modifies this
      ensures State() == old(State()).(grid := StartGrid(uninit))
    {
      ClearGrid();
      for i := 0 to 8
        invariant State() == old(State()).(grid := grid)
        invariant forall r, c | OnBoard(r, c) :: At(grid, r, c) == (if (r == 1 || r == 6) && c < i then StartSquare(r, c, uninit) else None)
      {
        grid := Put(grid, 1, i, Some(Piece(Pawn, Black, uninit)));
        grid := Put(grid, 6, i, Some(Piece(Pawn, White, uninit)));
      }
      PlaceBackRank(0, Black, uninit);
      PlaceBackRank(7, White, uninit);
      BoardLemmas.GridExt(grid, StartGrid(uninit));
    }

    /** A write through `getWritableBoard()`: one square, nothing else. */
    method WriteSquare(r: int, c: int, x: Option<Piece>)
      requires OnBoard(r, c)
      modifies this
      ensures State() == old(State()).(grid := Put(old(grid), r, c, x))
    {
      grid := Put(grid, r, c, x);
    }

    /** `setCurrentTurn`: the turn and nothing else. */
    method SetCurrentTurn(color: Color)
      modifies this
      ensures State() == old(State()).(turn := color)
    {
      currentTurn := color;
    }

    /** The king search of `isInCheck`: the first king of the colour in row-major order. */
    method FindKingSquare(color: Color) returns (found: Option<(int, int)>)
      ensures found == FindKing(grid, color)
    {
      for row := 0 to 8
        invariant forall r, c | OnBoard(r, c) && Index(r, c) < Index(row, 0) :: !IsKingOf(At(grid, r, c), color)
      {
        for col := 0 to 8
          invariant forall r, c | OnBoard(r, c) && Index(r, c) < Index(row, col) :: !IsKingOf(At(grid, r, c), color)
        {
          if grid[row][col].Some? && grid[row][col].value.kind == King && grid[row][col].value.color == color {
            FindKingFirst(grid, color, row, col);
            return Some((row, col));
          }
        }
      }
      FindKingNone(grid, color);
      return None;
    }

    /** The attacker scan of `isInCheck`: some piece of the other colour may move onto (kr, kc). */
    method ScanAttackers(kr: int, kc: int, color: Color) returns (attacked: bool)
      requires OnBoard(kr, kc) && IsKingOf(At(grid, kr, kc), color)
      ensures attacked == Attacked(grid, kr, kc, color)
    {
      for row := 0 to 8
        invariant forall r, c | 0 <= r < row && 0 <= c < 8 :: !AttacksFrom(grid, kr, kc, color, r, c)
      {
        var found := ScanAttackerRow(kr, kc, color, row);
        if found {
          return true;
        }
      }
      return false;
    }

    /** The inner loop of the attacker scan: the eight squares of one row. */
    method ScanAttackerRow(kr: int, kc: int, color: Color, row: int) returns (found: bool)
      requires OnBoard(kr, kc) && IsKingOf(At(grid, kr, kc), color) && 0 <= row < 8
      ensures found <==> exists c | 0 <= c < 8 :: AttacksFrom(grid, kr, kc, color, row, c)
    {
      for col := 0 to 8
        invariant forall c | 0 <= c < col :: !AttacksFrom(grid, kr, kc, color, row, c)
      {
        var attacks := AttackerAt(kr, kc, color, row, col);
        if attacks {
          return true;
        }
      }
      return false;
    }

    /** One square of the attacker scan: a piece of the other colour that may move onto (kr, kc). */
    method AttackerAt(kr: int, kc: int, color: Color, row: int, col: int) returns (attacks: bool)
      requires OnBoard(kr, kc) && IsKingOf(At(grid, kr, kc), color) && OnBoard(row, col)
      ensures attacks == AttacksFrom(grid, kr, kc, color, row, col)
    {
      var p := grid[row][col];
      if p.Some? && p.value.color != color {
        attacks := PieceIsValidMove(p.value, grid, row, col, kr, kc);
      } else {
        attacks := false;
      }
    }

    /** `isInCheck`. */
    method IsInCheck(color: Color) returns (check: bool)
      ensures check == InCheck(grid, color)
    {
      var king := FindKingSquare(color);
      if king.None? {
        return false;
      }
      var (kingRow, kingCol) := king.value;
      check := ScanAttackers(kingRow, kingCol, color);
    }

    /** `isInCheckAfterMove`: relocates on a fresh copy and asks the copy. */
    method IsInCheckAfterMove(fr: int, fc: int, tr: int, tc: int, color: Color) returns (check: bool)
      requires OnBoard(fr, fc) && OnBoard(tr, tc)
      ensures check == InCheckAfterMove(grid, fr, fc, tr, tc, color)
    {
      var temp := new Board.Copy(this);
      var moving := temp.grid[fr][fc];
      if moving.None? {
        return false;
      }
      temp.grid := Put(temp.grid, tr, tc, moving);
      temp.grid := Put(temp.grid, fr, fc, None);
      check := temp.IsInCheck(color);
    }

    /** `hasLegalMoves`: some own piece has a relocation its rule allows that leaves no check. */
    method HasLegalMoves(color: Color) returns (has: bool)
      ensures has == BoardModel.HasLegalMoves(grid, color)
    {
      for r := 0 to 8
        invariant forall r', c' | OnBoard(r', c') && r' < r :: !SquareHasLegalRelocation(grid, color, r', c')
      {
        for c := 0 to 8
          invariant forall r', c' | OnBoard(r', c') && Index(r', c') < Index(r, c) :: !SquareHasLegalRelocation(grid, color, r', c')
        {
          var piece := grid[r][c];
          if piece.Some? && piece.value.color == color {
            for destR := 0 to 8
              invariant forall tr, tc | OnBoard(tr, tc) && tr < destR :: !LegalRelocation(grid, color, r, c, tr, tc)
            {
              for destC := 0 to 8
                invariant forall tr, tc | OnBoard(tr, tc) && Index(tr, tc) < Index(destR, destC) :: !LegalRelocation(grid, color, r, c, tr, tc)
              {
                if (r != destR || c != destC) {
                  var valid := PieceIsValidMove(piece.value, grid, r, c, destR, destC);
                  if valid {
                    var check := IsInCheckAfterMove(r, c, destR, destC, color);
                    if !check {
                      assert LegalRelocation(grid, color, r, c, destR, destC);
                      assert SquareHasLegalRelocation(grid, color, r, c);
                      return true;
                    }
                  }
                }
              }
            }
          }
          assert !SquareHasLegalRelocation(grid, color, r, c);
        }
      }
      return false;
    }

    /** `isCheckmate`: in check and without a legal relocation. */
    method IsCheckmate(color: Color) returns (mate: bool)
      ensures mate == (InCheck(grid, color) && !BoardModel.HasLegalMoves(grid, color))
    {
      var check := IsInCheck(color);
      if !check {
        return false;
      }
      var has := HasLegalMoves(color);
      return !has;
    }

    /** `isStalemate`: not in check and without a legal relocation. */
    method IsStalemate(color: Color) returns (stale: bool)
      ensures stale == (!InCheck(grid, color) && !BoardModel.HasLegalMoves(grid, color))
    {
      var check := IsInCheck(color);
      if check {
        return false;
      }
      var has := HasLegalMoves(color);
      return !has;
    }

    /** The placement part of `generatePositionKey`: one character per square, row-major. */
    method PlacementKeyScan() returns (key: string)
      ensures key == PlacementKey(grid, 64)
    {
      key := "";
      for r := 0 to 8
        invariant key == PlacementKey(grid, Index(r, 0))
      {
        for c := 0 to 8
          invariant key == PlacementKey(grid, Index(r, c))
        {
          IndexStep(r, c);
          var p := grid[r][c];
          if p.None? {
            key := key + ".";
          } else {
            var symbol := match p.value.kind
              case Pawn => 'P'
              case Rook => 'R'
              case Knight => 'N'
              case Bishop => 'B'
              case Queen => 'Q'
              case King => 'K';
            key := key + [if p.value.color == White then symbol else ToLower(symbol)];
          }
        }
      }
    }

    /** The castling part of `generatePositionKey`, appended to `prefix`. */
    method AppendCastlingMarks(prefix: string) returns (key: string)
      ensures key == prefix + CastlingMarks(Flags())
    {
      key := prefix;
      if !hasWhiteKingMoved && !hasWhiteKingsideRookMoved {
        key := key + " K";
      }
      ghost var marks := Mark(!hasWhiteKingMoved && !hasWhiteKingsideRookMoved, " K");
      assert key == prefix + marks;
      if !hasWhiteKingMoved && !hasWhiteQueensideRookMoved {
        key := key + " Q";
      }
      AppendAssoc(prefix, marks, Mark(!hasWhiteKingMoved && !hasWhiteQueensideRookMoved, " Q"));
      marks := marks + Mark(!hasWhiteKingMoved && !hasWhiteQueensideRookMoved, " Q");
      assert key == prefix + marks;
      if !hasBlackKingMoved && !hasBlackKingsideRookMoved {
        key := key + " k";
      }
      AppendAssoc(prefix, marks, Mark(!hasBlackKingMoved && !hasBlackKingsideRookMoved, " k"));
      marks := marks + Mark(!hasBlackKingMoved && !hasBlackKingsideRookMoved, " k");
      assert key == prefix + marks;
      if !hasBlackKingMoved && !hasBlackQueensideRookMoved {
        key := key + " q";
      }
      AppendAssoc(prefix, marks, Mark(!hasBlackKingMoved && !hasBlackQueensideRookMoved, " q"));
    }

    /** The en-passant part of `generatePositionKey`, appended to `prefix`. */
    method AppendEnPassant(prefix: string) returns (key: string)
      ensures key == prefix + EnPassantSuffix(lastMove)
    {
      key := prefix;
      if lastMove.pieceMoved.Some? && lastMove.pieceMoved.value.kind == Pawn &&
         Abs(lastMove.toRow - lastMove.fromRow) == 2 {
        // The two rows differ by two, so their sum is even and the division is exact.
        var epRow := (lastMove.fromRow + lastMove.toRow) / 2;
        var epCol := lastMove.fromCol;
        var file := ByteChar('a' as int + epCol);
        var rank := ByteChar('8' as int - epRow);
        key := key + " ep";
        key := key + [file];
        key := key + [rank];
        AppendEp(prefix, file, rank);
      }
    }

    /** `generatePositionKey`. */
    method GeneratePositionKey() returns (key: string)
      ensures key == PositionKey(State())
    {
      key := PlacementKeyScan();
      key := key + (if currentTurn == White then " w" else " b");
      ghost var header := key;
      key := AppendCastlingMarks(key);
      key := AppendEnPassant(key);
      AppendAssoc(header, CastlingMarks(Flags()), EnPassantSuffix(lastMove));
    }

    /** `recordPosition`: one more occurrence of the current key. */
    method RecordPosition()
      modifies this
      ensures State() == old(State()).(history := Record(old(positionHistory), PositionKey(old(State()))))
    {
      var key := GeneratePositionKey();
      var n := if key in positionHistory then positionHistory[key] else 0;
      positionHistory := positionHistory[key := n + 1];
    }

    /** `isThreefoldRepetition`. */
    method IsThreefoldRepetition() returns (rep: bool)
      ensures rep == BoardModel.IsThreefoldRepetition(State())
    {
      var key := GeneratePositionKey();
      rep := key in positionHistory && positionHistory[key] >= 3;
    }

    /** `resetPositionHistory`: the current key, counted once, and nothing else. */
    method ResetPositionHistory()
      modifies this
      ensures State() == old(State()).(history := map[PositionKey(old(State())) := 1])
    {
      positionHistory := map[];
      var key := GeneratePositionKey();
      positionHistory := positionHistory[key := 1];
    }

    /** `getGameResult`. */
    method GetGameResult() returns (result: GameResult)
      ensures result == GameResultOf(State())
    {
      var mate := IsCheckmate(currentTurn);
      if mate {
        return Checkmate;
      }
      var stale := IsStalemate(currentTurn);
      if stale {
        return Stalemate;
      }
      if halfmoveClock >= 100 {
        return FiftyMoveRule;
      }
      var rep := IsThreefoldRepetition();
      if rep {
        return ThreefoldRepetition;
      }
      return Ongoing;
    }

    /** `hasKingMoved`. */
    method HasKingMoved(color: Color) returns (moved: bool)
      ensures moved == if color == White then State().flags.whiteKingMoved else State().flags.blackKingMoved
    {
      moved := if color == White then hasWhiteKingMoved else hasBlackKingMoved;
    }

    /** `hasRookMoved`. */
    method HasRookMoved(color: Color, kingside: bool) returns (moved: bool)
      ensures moved == match (color, kingside)
        case (White, true) => State().flags.whiteKingsideRookMoved
        case (White, false) => State().flags.whiteQueensideRookMoved
        case (Black, true) => State().flags.blackKingsideRookMoved
        case (Black, false) => State().flags.blackQueensideRookMoved
    {
      if color == White {
        moved := if kingside then hasWhiteKingsideRookMoved else hasWhiteQueensideRookMoved;
      } else {
        moved := if kingside then hasBlackKingsideRookMoved else hasBlackQueensideRookMoved;
      }
    }

    /** `setKingMoved`: that colour's king flag becomes true and nothing else changes. */
    method SetKingMoved(color: Color)
      modifies this
      ensures color == White ==> State() == old(State()).(flags := old(Flags()).(whiteKingMoved := true))
      ensures color == Black ==> State() == old(State()).(flags := old(Flags()).(blackKingMoved := true))
    {
      if color == White {
        hasWhiteKingMoved := true;
      } else {
        hasBlackKingMoved := true;
      }
    }

    /** `setRookMoved`: that rook's flag becomes true and nothing else changes. */
    method SetRookMoved(color: Color, kingside: bool)
      modifies this
      ensures State() == old(State()).(flags := match (color, kingside)
        case (White, true) => old(Flags()).(whiteKingsideRookMoved := true)
        case (White, false) => old(Flags()).(whiteQueensideRookMoved := true)
        case (Black, true) => old(Flags()).(blackKingsideRookMoved := true)
        case (Black, false) => old(Flags()).(blackQueensideRookMoved := true))
    {
      if color == White {
        if kingside { hasWhiteKingsideRookMoved := true; } else { hasWhiteQueensideRookMoved := true; }
      } else {
        if kingside { hasBlackKingsideRookMoved := true; } else { hasBlackQueensideRookMoved := true; }
      }
    }

    /** `isValidCastlingMove`. */
    method IsValidCastlingMove(fr: int, fc: int, tr: int, tc: int, color: Color) returns (valid: bool)
      ensures valid == BoardModel.IsValidCastlingMove(Flags(), fr, fc, tr, tc, color)
    {
      if color == White {
        if fr == 7 && fc == 4 && tr == 7 && tc == 6 {
          return !hasWhiteKingMoved && !hasWhiteKingsideRookMoved;
        } else if fr == 7 && fc == 4 && tr == 7 && tc == 2 {
          return !hasWhiteKingMoved && !hasWhiteQueensideRookMoved;
        }
      } else {
        if fr == 0 && fc == 4 && tr == 0 && tc == 6 {
          return !hasBlackKingMoved && !hasBlackKingsideRookMoved;
        } else if fr == 0 && fc == 4 && tr == 0 && tc == 2 {
          return !hasBlackKingMoved && !hasBlackQueensideRookMoved;
        }
      }
      return false;
    }

    /** The placement loop of `loadFEN`, from the top-left corner. */
    method PlacePieces(part: string, uninit: bool)
      requires PlacementFits(part, 0, 0)
      modifies this
      ensures State() == old(State()).(grid := Placement(old(grid), part, 0, 0, uninit))
    {
      var row, col := 0, 0;
      for i := 0 to |part|
        invariant State() == old(State()).(grid := grid)
        invariant PlacementFits(part[i..], row, col)
        invariant Placement(grid, part[i..], row, col, uninit) == Placement(old(grid), part, 0, 0, uninit)
      {
        var ch := part[i];
        assert part[i..][1..] == part[i + 1..];
        if ch == '/' {
          row := row + 1;
          col := 0;
        } else if IsDigit(ch) {
          col := col + (ch as int - '0' as int);
        } else {
          grid := Put(grid, row, col, PieceOfLetter(ch, uninit));
          col := col + 1;
        }
      }
      assert part[|part|..] == [];
    }

    /** `loadFEN`: `false` (board unchanged) when the clock field is not a number. */
    method LoadFEN(fen: string, uninit: bool) returns (ok: bool)
      requires FenFits(fen)
      modifies this
      ensures ok == LoadFenOutcome(old(State()), fen, uninit).Some?
      ensures ok ==> State() == LoadFenOutcome(old(State()), fen, uninit).value
      ensures !ok ==> State() == old(State())
    {
      var boardPart, activeColor, castling := Field(fen, 0), Field(fen, 1), Field(fen, 2);
      var clock := Stoi(Field(fen, 4));
      if clock.None? {
        return false;
      }
      halfmoveClock := clock.value;
      ClearGrid();
      PlacePieces(boardPart, uninit);
      currentTurn := if activeColor == "w" then White else Black;
      SetFlagsFromCastling(castling);
      return true;
    }

    /** The flag assignments of `loadFEN`. */
    method SetFlagsFromCastling(castling: string)
      modifies this
      ensures State() == old(State()).(flags := FlagsFromCastling(castling))
    {
      hasWhiteKingMoved := !Contains(castling, 'K') || !Contains(castling, 'Q');
      hasWhiteKingsideRookMoved := !Contains(castling, 'K');
      hasWhiteQueensideRookMoved := !Contains(castling, 'Q');
      hasBlackKingMoved := !Contains(castling, 'k') || !Contains(castling, 'q');
      hasBlackKingsideRookMoved := !Contains(castling, 'k');
      hasBlackQueensideRookMoved := !Contains(castling, 'q');
    }

    /** The path scan of the castling branch: every square strictly between the king and the corner is empty. */
    method CastlePathClear(row: int, fc: int, rookCol: int) returns (clear: bool)
      requires OnBoard(row, fc) && (rookCol == 7 || rookCol == 0) && Abs(rookCol - fc) >= 2
      ensures clear == RowClear(grid, row, fc, rookCol)
    {
      var step := if rookCol > fc then 1 else -1;
      var c := fc + step;
      while c != rookCol
        invariant 0 <= c < 8 && (if step == 1 then fc < c <= rookCol else rookCol <= c < fc)
        invariant forall c' | 0 <= c' < 8 && (if step == 1 then fc < c' < c else c < c' < fc) :: At(grid, row, c').None?
        decreases Abs(rookCol - c)
      {
        if grid[row][c].Some? {
          assert At(grid, row, c).Some? && (fc < c < rookCol || rookCol < c < fc);
          return false;
        }
        c := c + step;
      }
      return true;
    }

    /** One trial of the castling branch: the king put on (row, c), the check test, the two squares restored. */
    method TrialInCheck(king: Piece, row: int, fc: int, c: int) returns (check: bool)
      requires OnBoard(row, fc) && OnBoard(row, c) && c != fc
      requires At(grid, row, fc) == Some(king)
      modifies this
      ensures State() == old(State())
      ensures check == InCheck(KingTrial(grid, row, fc, c, king), king.color)
    {
      var origKing := grid[row][fc];
      var origDest := grid[row][c];
      grid := Put(grid, row, fc, None);
      grid := Put(grid, row, c, origKing);
      check := IsInCheck(king.color);
      grid := Put(grid, row, c, origDest);
      grid := Put(grid, row, fc, origKing);
      BoardLemmas.GridExt(grid, old(grid));
    }

    /** The castling branch of `movePiece`. */
    method Castle(king: Piece, row: int, fc: int, tc: int) returns (ok: bool)
      requires OnBoard(row, fc) && OnBoard(row, tc) && Abs(tc - fc) == 2
      requires At(grid, row, fc) == Some(king)
      modifies this
      ensures MoveOutcome(ok, State()) == CastleOutcome(old(State()), king, row, fc, tc)
    {
      var kingside := tc > fc;
      var rookCol := if kingside then 7 else 0;
      var rookDestCol := if kingside then 5 else 3;
      var step := if kingside then 1 else -1;
      var clear := CastlePathClear(row, fc, rookCol);
      if !clear {
        return false;
      }
      var check := IsInCheck(king.color);
      if check {
        return false;
      }
      for i := 1 to 3
        invariant State() == old(State())
        invariant i > 1 ==> !InCheck(KingTrial(grid, row, fc, fc + step, king), king.color)
        invariant i > 2 ==> !InCheck(KingTrial(grid, row, fc, fc + 2 * step, king), king.color)
      {
        var trial := TrialInCheck(king, row, fc, if kingside then fc + i else fc - i);
        if trial {
          return false;
        }
      }
      FinishCastle(king, row, fc, tc, rookCol, rookDestCol);
      return true;
    }

    /** The successful end of the castling branch: king to the destination, then the corner's occupant to its new column. */
    method FinishCastle(king: Piece, row: int, fc: int, tc: int, rookCol: int, rookDestCol: int)
      requires OnBoard(row, fc) && OnBoard(row, tc) && OnBoard(row, rookCol) && OnBoard(row, rookDestCol)
      modifies this
      ensures
        var g1 := Put(Put(old(grid), row, tc, Some(king)), row, fc, None);
        var g2 := Put(Put(g1, row, rookDestCol, At(g1, row, rookCol)), row, rookCol, None);
        State() == old(State()).(grid := g2, lastMove := Move(row, fc, row, tc, Some(king)))
    {
      grid := Put(grid, row, tc, Some(king));
      grid := Put(grid, row, fc, None);
      var rook := grid[row][rookCol];
      grid := Put(grid, row, rookDestCol, rook);
      grid := Put(grid, row, rookCol, None);
      lastMove := Move(row, fc, row, tc, Some(king));
    }

    /** The flag updates after an ordinary move. */
    method UpdateFlags(moved: Piece, fr: int, fc: int)
      modifies this
      ensures State() == old(State()).(flags := UpdatedFlags(old(Flags()), moved, fr, fc))
    {
      if moved.kind == King {
        if moved.color == White { hasWhiteKingMoved := true; } else { hasBlackKingMoved := true; }
      }
      if moved.kind == Rook {
        if moved.color == White {
          if fr == 7 && fc == 0 { hasWhiteQueensideRookMoved := true; }
          else if fr == 7 && fc == 7 { hasWhiteKingsideRookMoved := true; }
        } else {
          if fr == 0 && fc == 0 { hasBlackQueensideRookMoved := true; }
          else if fr == 0 && fc == 7 { hasBlackKingsideRookMoved := true; }
        }
      }
    }

    /** The commit of an ordinary move: promotion, last move, history, flags, clock, turn. */
    method Commit(piece: Piece, captured: Option<Piece>, fr: int, fc: int, tr: int, tc: int, promotion: char)
      requires OnBoard(fr, fc) && OnBoard(tr, tc)
      modifies this
      ensures MoveOutcome(true, State()) == CommitOutcome(old(State()), piece, captured, old(grid), fr, fc, tr, tc, promotion)
    {
      var moved := piece;
      if piece.kind == Pawn {
        if (piece.color == White && tr == 0) || (piece.color == Black && tr == 7) {
          moved := PromotedPiece(piece.color, promotion);
          grid := Put(grid, tr, tc, Some(moved));
        }
      }
      lastMove := Move(fr, fc, tr, tc, Some(moved));
      HandOver(moved, captured, fr, fc);
    }

    /** The end of the commit: history, flags, clock, turn. */
    method HandOver(moved: Piece, captured: Option<Piece>, fr: int, fc: int)
      modifies this
      ensures State() == BoardModel.HandOver(old(State()), moved, captured, fr, fc)
    {
      RecordPosition();
      UpdateFlags(moved, fr, fc);
      if moved.kind == Pawn || captured.Some? {
        halfmoveClock := 0;
      } else {
        halfmoveClock := halfmoveClock + 1;
      }
      currentTurn := if currentTurn == White then Black else White;
    }

    /** Everything of `movePiece` after the piece rule has accepted the move (or it is en passant). */
    method PlayOrdinary(piece: Piece, fr: int, fc: int, tr: int, tc: int, isEnPassant: bool, promotion: char) returns (ok: bool)
      requires OnBoard(fr, fc) && OnBoard(tr, tc) && (fr != tr || fc != tc)
      modifies this
      ensures MoveOutcome(ok, State()) == OrdinaryOutcome(old(State()), piece, fr, fc, tr, tc, isEnPassant, promotion)
    {
      var captured := grid[tr][tc];
      if isEnPassant {
        captured := grid[fr][tc];
      }
      Tentative(piece, fr, fc, tr, tc, isEnPassant);
      var check := IsInCheck(piece.color);
      if check {
        Rollback(piece, captured, fr, fc, tr, tc, isEnPassant);
        return false;
      }
      Commit(piece, captured, fr, fc, tr, tc, promotion);
      return true;
    }

    /** The tentative move: the en-passant victim removed, then the piece relocated. */
    method Tentative(piece: Piece, fr: int, fc: int, tr: int, tc: int, isEnPassant: bool)
      requires OnBoard(fr, fc) && OnBoard(tr, tc)
      modifies this
      ensures State() == old(State()).(grid := TentativeGrid(old(grid), piece, fr, fc, tr, tc, isEnPassant))
    {
      if isEnPassant {
        grid := Put(grid, fr, tc, None);
      }
      grid := Put(grid, tr, tc, Some(piece));
      grid := Put(grid, fr, fc, None);
    }

    /** The undo after a self-check: piece back, captured piece onto the destination (and, for en passant, its own square). */
    method Rollback(piece: Piece, captured: Option<Piece>, fr: int, fc: int, tr: int, tc: int, isEnPassant: bool)
      requires OnBoard(fr, fc) && OnBoard(tr, tc)
      modifies this
      ensures State() == old(State()).(grid := RolledBackGrid(old(grid), piece, captured, fr, fc, tr, tc, isEnPassant))
    {
      grid := Put(grid, fr, fc, Some(piece));
      grid := Put(grid, tr, tc, captured);
      if isEnPassant {
        grid := Put(grid, fr, tc, captured);
      }
    }

    /** `movePiece`, with the promotion choice as an input. */
    method MovePiece(fr: int, fc: int, tr: int, tc: int, promotion: char) returns (ok: bool)
      requires OnBoard(fr, fc) && OnBoard(tr, tc) && (fr != tr || fc != tc)
      modifies this
      ensures MoveOutcome(ok, State()) == MovePieceOutcome(old(State()), fr, fc, tr, tc, promotion)
    {
      var square := grid[fr][fc];
      if square.None? {
        return false;
      }
      var piece := square.value;
      if piece.color != currentTurn {
        return false;
      }
      var isEnPassant := false;
      if piece.kind == Pawn {
        if lastMove.pieceMoved.Some? && CanEnPassant(piece.color, grid, fr, fc, tr, tc, lastMove) {
          isEnPassant := true;
        }
      }
      if piece.kind == King && Abs(tc - fc) == 2 && fr == tr {
        ok := Castle(piece, fr, fc, tc);
        return;
      }
      var valid := PieceIsValidMove(piece, grid, fr, fc, tr, tc);
      if !isEnPassant && !valid {
        return false;
      }
      ok := PlayOrdinary(piece, fr, fc, tr, tc, isEnPassant, promotion);
    }
  }
}
