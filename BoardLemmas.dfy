// Properties of the board specification: what movePiece changes and what it keeps,
// what the position key determines, and how the game result is classified.

module BoardLemmas {
  import opened Pieces
  import opened PieceRules
  import opened BoardModel

  /** Two grids that agree on every square are equal. */
  lemma GridExt(g: Grid, h: Grid)
    requires forall r, c | OnBoard(r, c) :: At(g, r, c) == At(h, r, c)
    ensures g == h
  {
    forall r | 0 <= r < 8
      ensures g[r] == h[r]
    {
      assert |g[r]| == 8 == |h[r]|;
      assert forall c | 0 <= c < 8 :: g[r][c] == At(g, r, c) == At(h, r, c) == h[r][c];
    }
  }

  /** Undoing a non-en-passant tentative move gives back the grid it started from. */
  lemma RollbackRestores(g: Grid, piece: Piece, fr: int, fc: int, tr: int, tc: int)
    requires OnBoard(fr, fc) && OnBoard(tr, tc) && (fr != tr || fc != tc)
    requires At(g, fr, fc) == Some(piece)
    ensures RolledBackGrid(TentativeGrid(g, piece, fr, fc, tr, tc, false), piece, At(g, tr, tc), fr, fc, tr, tc, false) == g
  {
    var h := RolledBackGrid(TentativeGrid(g, piece, fr, fc, tr, tc, false), piece, At(g, tr, tc), fr, fc, tr, tc, false);
    GridExt(h, g);
  }

  /** An empty source square, or a piece of the side not to move, is refused with no change. */
  lemma MoveWithoutOwnPieceChangesNothing(s: BoardState, fr: int, fc: int, tr: int, tc: int, promotion: char)
    requires OnBoard(fr, fc) && OnBoard(tr, tc) && (fr != tr || fc != tc)
    requires !IsPieceOf(At(s.grid, fr, fc), s.turn)
    ensures MovePieceOutcome(s, fr, fc, tr, tc, promotion) == MoveOutcome(false, s)
  {
  }

  /**
   * Every refused move leaves the whole state as it was, except an en-passant capture
   * refused for self-check.
   */
  lemma RefusedMoveRestoresUnlessEnPassant(s: BoardState, fr: int, fc: int, tr: int, tc: int, promotion: char)
    requires OnBoard(fr, fc) && OnBoard(tr, tc) && (fr != tr || fc != tc)
    requires At(s.grid, fr, fc).Some? ==> !IsEnPassant(s, At(s.grid, fr, fc).value, fr, fc, tr, tc)
    ensures !MovePieceOutcome(s, fr, fc, tr, tc, promotion).ok ==> MovePieceOutcome(s, fr, fc, tr, tc, promotion).after == s
  {
    if At(s.grid, fr, fc).Some? {
      var piece := At(s.grid, fr, fc).value;
      if piece.color == s.turn && !IsCastlingAttempt(piece, fr, fc, tr, tc) && IsValidMove(piece, s.grid, fr, fc, tr, tc) {
        RollbackRestores(s.grid, piece, fr, fc, tr, tc);
      }
    }
  }

  /**
   * An en-passant capture refused for self-check puts the captured pawn back on its own
   * square and also onto the destination, which was empty before.
   */
  lemma EnPassantRollbackDuplicatesVictim(s: BoardState, fr: int, fc: int, tr: int, tc: int, promotion: char)
    requires OnBoard(fr, fc) && OnBoard(tr, tc) && (fr != tr || fc != tc)
    requires At(s.grid, fr, fc).Some? && At(s.grid, fr, fc).value.color == s.turn
    requires IsEnPassant(s, At(s.grid, fr, fc).value, fr, fc, tr, tc)
    requires InCheck(TentativeGrid(s.grid, At(s.grid, fr, fc).value, fr, fc, tr, tc, true), s.turn)
    ensures var o := MovePieceOutcome(s, fr, fc, tr, tc, promotion);
      && !o.ok
      && At(s.grid, tr, tc).None?
      && At(o.after.grid, tr, tc) == At(s.grid, fr, tc)
      && At(o.after.grid, fr, tc) == At(s.grid, fr, tc)
      && At(o.after.grid, fr, fc) == At(s.grid, fr, fc)
  {
  }

  /**
   * A completed en-passant capture empties the victim's square (fromRow, toCol) and the
   * source, puts the pawn (or what it promoted to) on the destination and keeps every other
   * square; the last move is recorded, the position is recorded with the mover still to
   * move, the clock is reset unless a promoted piece captured nothing, the castling flags
   * are updated for the piece that moved, and the turn passes.
   */
  lemma EnPassantRemovesVictim(s: BoardState, fr: int, fc: int, tr: int, tc: int, promotion: char)
    requires OnBoard(fr, fc) && OnBoard(tr, tc) && (fr != tr || fc != tc)
    requires At(s.grid, fr, fc).Some? && IsEnPassant(s, At(s.grid, fr, fc).value, fr, fc, tr, tc)
    ensures var o := MovePieceOutcome(s, fr, fc, tr, tc, promotion);
      var piece := At(s.grid, fr, fc).value;
      var moved := if Promotes(piece, tr) then PromotedPiece(piece.color, promotion) else piece;
      o.ok ==>
        && At(o.after.grid, fr, tc).None?
        && At(o.after.grid, fr, fc).None?
        && At(o.after.grid, tr, tc) == Some(moved)
        && (forall r, c | OnBoard(r, c) && (r != fr || c != fc) && (r != tr || c != tc) && (r != fr || c != tc) ::
              At(o.after.grid, r, c) == At(s.grid, r, c))
        && o.after.lastMove == Move(fr, fc, tr, tc, Some(moved))
        && o.after.history == Record(s.history, PositionKey(o.after.(turn := s.turn, flags := s.flags)))
        && o.after.halfmoveClock == (if moved.kind == Pawn || At(s.grid, fr, tc).Some? then 0 else s.halfmoveClock + 1)
        && o.after.flags == UpdatedFlags(s.flags, moved, fr, fc)
        && o.after.turn == Opponent(s.turn)
  {
    var o := MovePieceOutcome(s, fr, fc, tr, tc, promotion);
    var piece := At(s.grid, fr, fc).value;
    if o.ok {
      var g2 := TentativeGrid(s.grid, piece, fr, fc, tr, tc, true);
      EnPassantGridMovesOnePiece(s.grid, piece, fr, fc, tr, tc);
      assert !InCheck(g2, piece.color);
      assert o == CommitOutcome(s, piece, At(s.grid, fr, tc), g2, fr, fc, tr, tc, promotion);
    }
  }

  /** The tentative grid of an en-passant capture: victim and source emptied, pawn on the destination. */
  lemma EnPassantGridMovesOnePiece(g: Grid, piece: Piece, fr: int, fc: int, tr: int, tc: int)
    requires OnBoard(fr, fc) && OnBoard(tr, tc) && fr != tr && fc != tc
    ensures var h := TentativeGrid(g, piece, fr, fc, tr, tc, true);
      && At(h, tr, tc) == Some(piece)
      && At(h, fr, fc).None?
      && At(h, fr, tc).None?
      && forall r, c | OnBoard(r, c) && (r != fr || c != fc) && (r != tr || c != tc) && (r != fr || c != tc) :: At(h, r, c) == At(g, r, c)
  {
  }

  /** The castling branch never touches the flags, the turn, the clock or the history. */
  lemma CastlingKeepsBookkeeping(s: BoardState, fr: int, fc: int, tr: int, tc: int, promotion: char)
    requires OnBoard(fr, fc) && OnBoard(tr, tc) && (fr != tr || fc != tc)
    requires At(s.grid, fr, fc).Some? && IsCastlingAttempt(At(s.grid, fr, fc).value, fr, fc, tr, tc)
    ensures var o := MovePieceOutcome(s, fr, fc, tr, tc, promotion);
      && o.after.turn == s.turn
      && o.after.flags == s.flags
      && o.after.halfmoveClock == s.halfmoveClock
      && o.after.history == s.history
  {
  }

  /**
   * The castling branch, from whatever column the king stands on: it succeeds exactly when
   * the king belongs to the side to move, the squares between it and the corner are empty,
   * and the king is in check neither where it stands nor on either square it crosses. On
   * success only the king's square, the destination, the corner and the corner's target
   * column can change.
   */
  lemma CastlingAccepted(s: BoardState, row: int, fc: int, tc: int, promotion: char)
    requires OnBoard(row, fc) && OnBoard(row, tc) && Abs(tc - fc) == 2
    requires At(s.grid, row, fc).Some? && At(s.grid, row, fc).value.kind == King
    ensures var king := At(s.grid, row, fc).value;
      var rookCol := if tc > fc then 7 else 0;
      var step := if tc > fc then 1 else -1;
      MovePieceOutcome(s, row, fc, row, tc, promotion).ok <==>
        && king.color == s.turn
        && RowClear(s.grid, row, fc, rookCol)
        && !InCheck(s.grid, s.turn)
        && !InCheck(KingTrial(s.grid, row, fc, fc + step, king), s.turn)
        && !InCheck(KingTrial(s.grid, row, fc, fc + 2 * step, king), s.turn)
    ensures var o := MovePieceOutcome(s, row, fc, row, tc, promotion);
      var rookCol := if tc > fc then 7 else 0;
      var rookDestCol := if tc > fc then 5 else 3;
      o.ok ==>
        && (forall c | 0 <= c < 8 && c != fc && c != tc && c != rookCol && c != rookDestCol ::
              At(o.after.grid, row, c) == At(s.grid, row, c))
        && (forall r, c | OnBoard(r, c) && r != row :: At(o.after.grid, r, c) == At(s.grid, r, c))
        && o.after.lastMove == Move(row, fc, row, tc, At(s.grid, row, fc))
  {
  }

  /**
   * The castling branch does not check the king's column: a king on column 3 sent two
   * columns right is placed on column 5, and then the corner's occupant is written over it,
   * so no king is left on those squares.
   */
  lemma CastlingFromColumnThreeLosesKing(s: BoardState, row: int, promotion: char)
    requires OnBoard(row, 3) && At(s.grid, row, 3).Some? && At(s.grid, row, 3).value.kind == King
    ensures var o := MovePieceOutcome(s, row, 3, row, 5, promotion);
      o.ok ==>
        && At(o.after.grid, row, 5) == At(s.grid, row, 7)
        && At(o.after.grid, row, 3).None?
        && At(o.after.grid, row, 7).None?
  {
  }

  /**
   * Castling from column 4 succeeds exactly when the king belongs to the side to move, the
   * squares between it and the corner are empty, and the king is in check neither where it
   * stands nor on either square it crosses. On success the king stands on the destination, the former
   * occupant of the corner stands on column 5 (kingside) or 3 (queenside), and both the
   * corner and the king's square are empty; the last move is the king's.
   */
  lemma CastlingFromColumnFour(s: BoardState, row: int, tc: int, promotion: char)
    requires OnBoard(row, 4) && (tc == 6 || tc == 2)
    requires At(s.grid, row, 4).Some? && At(s.grid, row, 4).value.kind == King
    ensures var king := At(s.grid, row, 4).value;
      var rookCol := if tc == 6 then 7 else 0;
      var step := if tc == 6 then 1 else -1;
      MovePieceOutcome(s, row, 4, row, tc, promotion).ok <==>
        && king.color == s.turn
        && RowClear(s.grid, row, 4, rookCol)
        && !InCheck(s.grid, s.turn)
        && !InCheck(KingTrial(s.grid, row, 4, 4 + step, king), s.turn)
        && !InCheck(KingTrial(s.grid, row, 4, 4 + 2 * step, king), s.turn)
    ensures var o := MovePieceOutcome(s, row, 4, row, tc, promotion);
      var rookCol := if tc == 6 then 7 else 0;
      var rookDestCol := if tc == 6 then 5 else 3;
      o.ok ==>
        && At(s.grid, row, 4).value.color == s.turn
        && RowClear(s.grid, row, 4, rookCol)
        && !InCheck(s.grid, s.turn)
        && At(o.after.grid, row, tc) == At(s.grid, row, 4)
        && At(o.after.grid, row, rookDestCol) == At(s.grid, row, rookCol)
        && At(o.after.grid, row, rookCol).None?
        && At(o.after.grid, row, 4).None?
        && o.after.lastMove == Move(row, 4, row, tc, At(s.grid, row, 4))
        && (forall c | 0 <= c < 8 && c != 4 && c != tc && c != rookCol && c != rookDestCol ::
              At(o.after.grid, row, c) == At(s.grid, row, c))
        && (forall r, c | OnBoard(r, c) && r != row :: At(o.after.grid, r, c) == At(s.grid, r, c))
  {
    CastlingAccepted(s, row, 4, tc, promotion);
  }

  /** Character i of the placement key is the symbol of square (i / 8, i % 8). */
  lemma {:induction false} PlacementKeyAt(g: Grid, k: nat, i: nat)
    requires i < k <= 64
    ensures PlacementKey(g, k)[i] == SquareSymbol(At(g, i / 8, i % 8))
  {
    if i < k - 1 {
      PlacementKeyAt(g, k - 1, i);
    }
  }

  /** The key's 66th character is the side to move. */
  lemma PositionKeyTurn(s: BoardState)
    ensures |PositionKey(s)| >= 66
    ensures PositionKey(s)[64] == ' '
    ensures PositionKey(s)[65] == (if s.turn == White then 'w' else 'b')
  {
    var h := KeyHeader(s);
    assert h == PlacementKey(s.grid, 64) + TurnSuffix(s.turn);
    assert h[64] == TurnSuffix(s.turn)[0];
    assert h[65] == TurnSuffix(s.turn)[1];
  }

  /**
   * A completed ordinary move records the key of the new placement with the mover still
   * to move, so the recorded key differs from the key of the position reached.
   */
  lemma OrdinaryMoveRecordsMoverKey(s: BoardState, fr: int, fc: int, tr: int, tc: int, promotion: char)
    requires OnBoard(fr, fc) && OnBoard(tr, tc) && (fr != tr || fc != tc)
    requires At(s.grid, fr, fc).Some? && !IsCastlingAttempt(At(s.grid, fr, fc).value, fr, fc, tr, tc)
    ensures var o := MovePieceOutcome(s, fr, fc, tr, tc, promotion);
      var recorded := o.after.(turn := s.turn, flags := s.flags);
      o.ok ==>
        && o.after.turn == Opponent(s.turn)
        && o.after.history == Record(s.history, PositionKey(recorded))
        && PositionKey(recorded) != PositionKey(o.after)
  {
    var o := MovePieceOutcome(s, fr, fc, tr, tc, promotion);
    var recorded := o.after.(turn := s.turn, flags := s.flags);
    if o.ok {
      PositionKeyTurn(recorded);
      PositionKeyTurn(o.after);
    }
  }

  /** The grid of a committed ordinary move, before any promotion. */
  lemma TentativeGridMovesOnePiece(g: Grid, piece: Piece, fr: int, fc: int, tr: int, tc: int)
    requires OnBoard(fr, fc) && OnBoard(tr, tc) && (fr != tr || fc != tc)
    ensures var h := TentativeGrid(g, piece, fr, fc, tr, tc, false);
      && At(h, tr, tc) == Some(piece)
      && At(h, fr, fc).None?
      && forall r, c | OnBoard(r, c) && (r != fr || c != fc) && (r != tr || c != tc) :: At(h, r, c) == At(g, r, c)
  {
  }

  /**
   * A completed ordinary move: the piece (or what it promoted to) stands on the
   * destination, the source is empty, every other square is unchanged, the last move is
   * recorded, the clock is reset exactly when the piece that moved is a pawn after
   * promotion or something was captured, the castling flags are updated for the piece that
   * moved, and the turn passes to the opponent.
   */
  lemma OrdinaryMoveCommits(s: BoardState, fr: int, fc: int, tr: int, tc: int, promotion: char)
    requires OnBoard(fr, fc) && OnBoard(tr, tc) && (fr != tr || fc != tc)
    requires At(s.grid, fr, fc).Some? && !IsCastlingAttempt(At(s.grid, fr, fc).value, fr, fc, tr, tc)
    requires !IsEnPassant(s, At(s.grid, fr, fc).value, fr, fc, tr, tc)
    ensures var o := MovePieceOutcome(s, fr, fc, tr, tc, promotion);
      var piece := At(s.grid, fr, fc).value;
      var moved := if Promotes(piece, tr) then PromotedPiece(piece.color, promotion) else piece;
      o.ok ==>
        && piece.color == s.turn
        && IsValidMove(piece, s.grid, fr, fc, tr, tc)
        && At(o.after.grid, tr, tc) == Some(moved)
        && At(o.after.grid, fr, fc).None?
        && (forall r, c | OnBoard(r, c) && (r != fr || c != fc) && (r != tr || c != tc) :: At(o.after.grid, r, c) == At(s.grid, r, c))
        && o.after.lastMove == Move(fr, fc, tr, tc, Some(moved))
        && o.after.halfmoveClock == (if moved.kind == Pawn || At(s.grid, tr, tc).Some? then 0 else s.halfmoveClock + 1)
        && o.after.flags == UpdatedFlags(s.flags, moved, fr, fc)
        && o.after.turn == Opponent(s.turn)
  {
    var o := MovePieceOutcome(s, fr, fc, tr, tc, promotion);
    var piece := At(s.grid, fr, fc).value;
    if o.ok {
      var g2 := TentativeGrid(s.grid, piece, fr, fc, tr, tc, false);
      TentativeGridMovesOnePiece(s.grid, piece, fr, fc, tr, tc);
      assert !InCheck(g2, piece.color);
      assert o == CommitOutcome(s, piece, At(s.grid, tr, tc), g2, fr, fc, tr, tc, promotion);
    }
  }

  /**
   * An ordinary move (neither castling nor en passant) is accepted exactly when the piece
   * belongs to the side to move, its rule allows the move, and the grid with the piece
   * relocated does not leave the mover's king in check.
   */
  lemma OrdinaryMoveAccepted(s: BoardState, fr: int, fc: int, tr: int, tc: int, promotion: char)
    requires OnBoard(fr, fc) && OnBoard(tr, tc) && (fr != tr || fc != tc)
    requires At(s.grid, fr, fc).Some? && !IsCastlingAttempt(At(s.grid, fr, fc).value, fr, fc, tr, tc)
    requires !IsEnPassant(s, At(s.grid, fr, fc).value, fr, fc, tr, tc)
    ensures var piece := At(s.grid, fr, fc).value;
      MovePieceOutcome(s, fr, fc, tr, tc, promotion).ok <==>
        && piece.color == s.turn
        && IsValidMove(piece, s.grid, fr, fc, tr, tc)
        && !InCheck(TentativeGrid(s.grid, piece, fr, fc, tr, tc, false), s.turn)
  {
  }

  /**
   * An en-passant capture is accepted exactly when the pawn belongs to the side to move and
   * the grid with the victim removed and the pawn relocated does not leave its king in
   * check; the pawn's own rule is not consulted.
   */
  lemma EnPassantAccepted(s: BoardState, fr: int, fc: int, tr: int, tc: int, promotion: char)
    requires OnBoard(fr, fc) && OnBoard(tr, tc) && (fr != tr || fc != tc)
    requires At(s.grid, fr, fc).Some? && IsEnPassant(s, At(s.grid, fr, fc).value, fr, fc, tr, tc)
    ensures var piece := At(s.grid, fr, fc).value;
      MovePieceOutcome(s, fr, fc, tr, tc, promotion).ok <==>
        && piece.color == s.turn
        && !InCheck(TentativeGrid(s.grid, piece, fr, fc, tr, tc, true), s.turn)
  {
  }

  /** A promotion that captures nothing counts toward the fifty-move rule. */
  lemma QuietPromotionAdvancesClock(s: BoardState, fr: int, fc: int, tr: int, tc: int, promotion: char)
    requires OnBoard(fr, fc) && OnBoard(tr, tc) && (fr != tr || fc != tc)
    requires At(s.grid, fr, fc).Some? && Promotes(At(s.grid, fr, fc).value, tr)
    requires At(s.grid, tr, tc).None? && !IsEnPassant(s, At(s.grid, fr, fc).value, fr, fc, tr, tc)
    ensures var o := MovePieceOutcome(s, fr, fc, tr, tc, promotion);
      o.ok ==>
        && o.after.halfmoveClock == s.halfmoveClock + 1
        && At(o.after.grid, tr, tc) == Some(PromotedPiece(s.turn, promotion))
  {
  }

  predicate SameOccupant(x: Option<Piece>, y: Option<Piece>)
  {
    x.None? == y.None? && (x.Some? ==> x.value.kind == y.value.kind && x.value.color == y.value.color)
  }

  lemma SquareSymbolInjective(x: Option<Piece>, y: Option<Piece>)
    requires SquareSymbol(x) == SquareSymbol(y)
    ensures SameOccupant(x, y)
  {
  }

  /**
   * Equal position keys mean the same side to move and the same type and colour of piece
   * on every square.
   */
  lemma PositionKeyDeterminesPosition(s: BoardState, t: BoardState)
    requires PositionKey(s) == PositionKey(t)
    ensures s.turn == t.turn
    ensures forall r, c | OnBoard(r, c) :: SameOccupant(At(s.grid, r, c), At(t.grid, r, c))
  {
    PositionKeyTurn(s);
    PositionKeyTurn(t);
    var ks, kt := PositionKey(s), PositionKey(t);
    assert ks[..64] == KeyHeader(s)[..64] == PlacementKey(s.grid, 64);
    assert kt[..64] == KeyHeader(t)[..64] == PlacementKey(t.grid, 64);
    forall r, c | OnBoard(r, c)
      ensures SameOccupant(At(s.grid, r, c), At(t.grid, r, c))
    {
      var i := r * 8 + c;
      assert i / 8 == r && i % 8 == c;
      PlacementKeyAt(s.grid, 64, i);
      PlacementKeyAt(t.grid, 64, i);
      assert PlacementKey(s.grid, 64)[i] == PlacementKey(t.grid, 64)[i];
      SquareSymbolInjective(At(s.grid, r, c), At(t.grid, r, c));
    }
  }

  /**
   * The game result in its order of precedence: checkmate and stalemate need no legal
   * relocation, the fifty-move and repetition results need one.
   */
  lemma GameResultPrecedence(s: BoardState)
    ensures GameResultOf(s) == Checkmate <==> InCheck(s.grid, s.turn) && !HasLegalMoves(s.grid, s.turn)
    ensures GameResultOf(s) == Stalemate <==> !InCheck(s.grid, s.turn) && !HasLegalMoves(s.grid, s.turn)
    ensures GameResultOf(s) == FiftyMoveRule <==> HasLegalMoves(s.grid, s.turn) && s.halfmoveClock >= 100
    ensures GameResultOf(s) == ThreefoldRepetition <==>
      HasLegalMoves(s.grid, s.turn) && s.halfmoveClock < 100 && Count(s.history, PositionKey(s)) >= 3
    ensures GameResultOf(s) == Ongoing <==>
      HasLegalMoves(s.grid, s.turn) && s.halfmoveClock < 100 && Count(s.history, PositionKey(s)) < 3
  {
  }

  predicate Adjacent(r: int, c: int, r': int, c': int)
  {
    Abs(r - r') <= 1 && Abs(c - c') <= 1
  }

  /** Only kings on the grid, and no two kings of different colours side by side. */
  ghost predicate SeparatedKingsOnly(g: Grid)
  {
    && (forall r, c | OnBoard(r, c) && At(g, r, c).Some? :: At(g, r, c).value.kind == King)
    && (forall r, c, r', c' | OnBoard(r, c) && OnBoard(r', c') && At(g, r, c).Some? && At(g, r', c').Some? &&
          At(g, r, c).value.color != At(g, r', c').value.color :: !Adjacent(r, c, r', c'))
  }

  /** A king never attacks a square that is neither next to it nor empty. */
  lemma KingCannotReachOccupiedFarSquare(king: Piece, g: Grid, r: int, c: int, kr: int, kc: int)
    requires OnBoard(r, c) && OnBoard(kr, kc) && (r != kr || c != kc)
    requires king.kind == King && At(g, kr, kc).Some? && !Adjacent(r, c, kr, kc)
    ensures !IsValidMove(king, g, r, c, kr, kc)
  {
  }

  /** A grid of lone, separated kings is never check, hence never checkmate. */
  lemma SeparatedKingsAreNeverCheck(s: BoardState)
    requires SeparatedKingsOnly(s.grid)
    ensures !InCheck(s.grid, White) && !InCheck(s.grid, Black)
    ensures GameResultOf(s) != Checkmate
  {
    forall color: Color
      ensures !InCheck(s.grid, color)
    {
      match FindKing(s.grid, color)
      case None =>
      case Some((kr, kc)) =>
        assert IsKingOf(At(s.grid, kr, kc), color);
        forall r, c | 0 <= r < 8 && 0 <= c < 8
          ensures !AttacksFrom(s.grid, kr, kc, color, r, c)
        {
          if (r != kr || c != kc) && At(s.grid, r, c).Some? && At(s.grid, r, c).value.color != color {
            var p := At(s.grid, r, c).value;
            assert p.kind == King;
            assert !Adjacent(r, c, kr, kc);
            KingCannotReachOccupiedFarSquare(p, s.grid, r, c, kr, kc);
          }
        }
    }
  }

  /** A letter's case gives its colour; only the six type letters make a piece. */
  lemma PieceOfLetterColour(ch: char, uninit: bool)
    ensures PieceOfLetter(ch, uninit).Some? ==>
      (PieceOfLetter(ch, uninit).value.color == White <==> 'A' <= ch <= 'Z')
    ensures PieceOfLetter(ch, uninit).Some? <==>
      ch in {'p', 'r', 'n', 'b', 'q', 'k', 'P', 'R', 'N', 'B', 'Q', 'K'}
  {
  }

  /** The placement loop never writes behind its cursor. */
  lemma {:induction false} PlacementKeepsSquaresBehind(g: Grid, part: string, row: int, col: int, uninit: bool, r: int, c: int)
    requires PlacementFits(part, row, col) && OnBoard(r, c)
    requires r < row || (r == row && c < col)
    ensures At(Placement(g, part, row, col, uninit), r, c) == At(g, r, c)
    decreases |part|
  {
    if part == [] {
    } else if part[0] == '/' {
      PlacementKeepsSquaresBehind(g, part[1..], row + 1, 0, uninit, r, c);
    } else if IsDigit(part[0]) {
      PlacementKeepsSquaresBehind(g, part[1..], row, col + (part[0] as int - '0' as int), uninit, r, c);
    } else {
      var g' := Put(g, row, col, PieceOfLetter(part[0], uninit));
      PlacementKeepsSquaresBehind(g', part[1..], row, col + 1, uninit, r, c);
    }
  }

  /** A letter at the cursor ends up on the cursor's square: later characters never overwrite it. */
  lemma PlacementPutsLetterAtCursor(g: Grid, part: string, row: int, col: int, uninit: bool)
    requires PlacementFits(part, row, col) && part != []
    requires part[0] != '/' && !IsDigit(part[0])
    ensures OnBoard(row, col)
    ensures At(Placement(g, part, row, col, uninit), row, col) == PieceOfLetter(part[0], uninit)
  {
    var g' := Put(g, row, col, PieceOfLetter(part[0], uninit));
    PlacementKeepsSquaresBehind(g', part[1..], row, col + 1, uninit, row, col);
  }

  /** `isValidCastlingMove` only ever accepts the king's two standard castling moves. */
  lemma CastlingMoveNeedsUnmovedKing(f: CastlingFlags, fr: int, fc: int, tr: int, tc: int, color: Color)
    requires IsValidCastlingMove(f, fr, fc, tr, tc, color)
    ensures fr == tr == (if color == White then 7 else 0) && fc == 4 && (tc == 6 || tc == 2)
    ensures if color == White then !f.whiteKingMoved else !f.blackKingMoved
  {
  }
}
