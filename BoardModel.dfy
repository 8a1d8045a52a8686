// The board's abstract state and the specification of every board operation
// (src/core/board.h, src/core/board.cpp), as functions on values.

module BoardModel {
  import opened Pieces
  import opened PieceRules

  datatype GameResult = Ongoing | Checkmate | Stalemate | FiftyMoveRule | ThreefoldRepetition

  /** The six castling flags of the board; all start false. */
  datatype CastlingFlags = CastlingFlags(
    whiteKingMoved: bool,
    blackKingMoved: bool,
    whiteKingsideRookMoved: bool,
    whiteQueensideRookMoved: bool,
    blackKingsideRookMoved: bool,
    blackQueensideRookMoved: bool)

  function NoFlags(): (f: CastlingFlags)
    ensures !f.whiteKingMoved && !f.blackKingMoved
    ensures !f.whiteKingsideRookMoved && !f.whiteQueensideRookMoved
    ensures !f.blackKingsideRookMoved && !f.blackQueensideRookMoved
  {
    CastlingFlags(false, false, false, false, false, false)
  }

  /**
   * Everything a Board holds: the grid, the side to move, the last move, the castling
   * flags, the half-move clock and the count of each recorded position key.
   */
  datatype BoardState = BoardState(
    grid: Grid,
    turn: Color,
    lastMove: Move,
    flags: CastlingFlags,
    halfmoveClock: int,
    history: map<string, int>)

  /** `Board()`: empty grid, White to move, the default last move. */
  function InitialState(): (s: BoardState)
    ensures forall r, c | OnBoard(r, c) :: At(s.grid, r, c).None?
    ensures s.turn == White && s.lastMove == DefaultMove() && s.flags == NoFlags()
    ensures s.halfmoveClock == 0 && s.history == map[]
  {
    BoardState(EmptyGrid(), White, DefaultMove(), NoFlags(), 0, map[])
  }

  /**
   * The copy constructor copies the grid (cloning every piece), the last move and the
   * turn; the flags, the clock and the history of the copy are those of a new board.
   */
  function CopyOf(s: BoardState): (t: BoardState)
    ensures t.grid == s.grid && t.lastMove == s.lastMove && t.turn == s.turn
    ensures t.flags == NoFlags() && t.halfmoveClock == 0 && t.history == map[]
  {
    InitialState().(grid := s.grid, lastMove := s.lastMove, turn := s.turn)
  }

  /** `operator=` copies the grid and the turn and keeps everything else of the target. */
  function AssignFrom(target: BoardState, source: BoardState): (t: BoardState)
    ensures t.grid == source.grid && t.turn == source.turn
    ensures t.lastMove == target.lastMove && t.flags == target.flags
    ensures t.halfmoveClock == target.halfmoveClock && t.history == target.history
  {
    target.(grid := source.grid, turn := source.turn)
  }

  // ------------------------------------------------------------ setupBoard

  function BackRankKind(c: int): (k: Kind)
    requires 0 <= c < 8
  {
    if c == 0 || c == 7 then Rook
    else if c == 1 || c == 6 then Knight
    else if c == 2 || c == 5 then Bishop
    else if c == 3 then Queen
    else King
  }

  /**
   * The opening array placed by `setupBoard`: pawns on rows 1 and 6, back ranks on rows 0
   * (Black) and 7 (White). `uninit` is the indeterminate base flag of the new pieces.
   */
  function StartSquare(r: int, c: int, uninit: bool): Option<Piece>
    requires OnBoard(r, c)
  {
    if r == 0 then Some(Piece(BackRankKind(c), Black, uninit))
    else if r == 1 then Some(Piece(Pawn, Black, uninit))
    else if r == 6 then Some(Piece(Pawn, White, uninit))
    else if r == 7 then Some(Piece(BackRankKind(c), White, uninit))
    else None
  }

  /**
   * The opening array placed by `setupBoard`: pawns on rows 1 and 6, back ranks on rows 0
   * (Black) and 7 (White). `uninit` is the indeterminate base flag of the new pieces.
   */
  function StartGrid(uninit: bool): (g: Grid)
    ensures forall r, c | OnBoard(r, c) :: At(g, r, c) == StartSquare(r, c, uninit)
  {
    var rows := seq(8, r requires 0 <= r < 8 => seq(8, c requires 0 <= c < 8 => StartSquare(r, c, uninit)));
    assert forall r | 0 <= r < 8 :: |rows[r]| == 8;
    rows
  }

  // ------------------------------------------------------------ check detection

  function Index(r: int, c: int): int
  {
    r * 8 + c
  }

  predicate IsKingOf(x: Option<Piece>, color: Color)
  {
    x.Some? && x.value.kind == King && x.value.color == color
  }

  /** The first square at row-major index k or later holding a king of this colour. */
  function FindKingFrom(g: Grid, color: Color, k: nat): (found: Option<(int, int)>)
    requires k <= 64
    ensures found.Some? ==>
      var (r, c) := found.value;
      OnBoard(r, c) && k <= Index(r, c) && IsKingOf(At(g, r, c), color) &&
      forall r', c' | OnBoard(r', c') && k <= Index(r', c') < Index(r, c) :: !IsKingOf(At(g, r', c'), color)
    ensures found.None? ==>
      forall r, c | OnBoard(r, c) && k <= Index(r, c) :: !IsKingOf(At(g, r, c), color)
    decreases 64 - k
  {
    if k == 64 then None
    else if IsKingOf(At(g, k / 8, k % 8), color) then Some((k / 8, k % 8))
    else FindKingFrom(g, color, k + 1)
  }

  /** The king `isInCheck` looks at: the first one of that colour in row-major order. */
  function FindKing(g: Grid, color: Color): Option<(int, int)>
  {
    FindKingFrom(g, color, 0)
  }

  /** A piece of the other colour at (r, c) whose own rule allows a move onto (kr, kc). */
  predicate AttacksFrom(g: Grid, kr: int, kc: int, color: Color, r: int, c: int)
    requires OnBoard(kr, kc) && OnBoard(r, c)
  {
    (r != kr || c != kc) && At(g, r, c).Some? && At(g, r, c).value.color != color &&
    IsValidMove(At(g, r, c).value, g, r, c, kr, kc)
  }

  predicate Attacked(g: Grid, kr: int, kc: int, color: Color)
    requires OnBoard(kr, kc)
  {
    exists r, c | 0 <= r < 8 && 0 <= c < 8 :: AttacksFrom(g, kr, kc, color, r, c)
  }

  /**
   * `isInCheck`: false when there is no king of that colour; otherwise whether some
   * opposing piece may move onto the first such king's square.
   */
  predicate InCheck(g: Grid, color: Color)
  {
    match FindKing(g, color)
    case None => false
    case Some((kr, kc)) => Attacked(g, kr, kc, color)
  }

  /** A plain relocation, as `isInCheckAfterMove` and `countAllLegalMoves` do it. */
  function Relocate(g: Grid, fr: int, fc: int, tr: int, tc: int): (h: Grid)
    requires OnBoard(fr, fc) && OnBoard(tr, tc)
    ensures At(h, fr, fc) == None
    ensures (fr != tr || fc != tc) ==> At(h, tr, tc) == At(g, fr, fc)
    ensures forall r, c | OnBoard(r, c) && (r != fr || c != fc) && (r != tr || c != tc) :: At(h, r, c) == At(g, r, c)
  {
    Put(Put(g, tr, tc, At(g, fr, fc)), fr, fc, None)
  }

  /** `isInCheckAfterMove`: false for an empty source, else the check test after relocating. */
  predicate InCheckAfterMove(g: Grid, fr: int, fc: int, tr: int, tc: int, color: Color)
    requires OnBoard(fr, fc) && OnBoard(tr, tc)
  {
    At(g, fr, fc).Some? && InCheck(Relocate(g, fr, fc, tr, tc), color)
  }

  /** One candidate `hasLegalMoves` accepts: own piece, its rule allows it, no self-check. */
  predicate LegalRelocation(g: Grid, color: Color, fr: int, fc: int, tr: int, tc: int)
    requires OnBoard(fr, fc) && OnBoard(tr, tc)
  {
    (fr != tr || fc != tc) && IsPieceOf(At(g, fr, fc), color) &&
    IsValidMove(At(g, fr, fc).value, g, fr, fc, tr, tc) &&
    !InCheckAfterMove(g, fr, fc, tr, tc, color)
  }

  predicate SquareHasLegalRelocation(g: Grid, color: Color, fr: int, fc: int)
    requires OnBoard(fr, fc)
  {
    exists tr, tc | 0 <= tr < 8 && 0 <= tc < 8 :: LegalRelocation(g, color, fr, fc, tr, tc)
  }

  /** `hasLegalMoves`: plain relocations only, no en passant and no castling simulation. */
  predicate HasLegalMoves(g: Grid, color: Color)
  {
    exists fr, fc | 0 <= fr < 8 && 0 <= fc < 8 :: SquareHasLegalRelocation(g, color, fr, fc)
  }

  // ------------------------------------------------------------ position key

  function KindSymbol(k: PieceType): char
  {
    match k
    case Pawn => 'P'
    case Rook => 'R'
    case Knight => 'N'
    case Bishop => 'B'
    case Queen => 'Q'
    case King => 'K'
    case NoType => '.'
  }

  /** `tolower` and `toupper` of the C library in the "C" locale: only ASCII letters change. */
  function ToLower(ch: char): (l: char)
    ensures !('A' <= ch <= 'Z') ==> l == ch
    ensures 'A' <= ch <= 'Z' ==> 'a' <= l <= 'z'
  {
    if 'A' <= ch <= 'Z' then (ch as int + 32) as char else ch
  }

  function ToUpper(ch: char): (u: char)
    ensures !('a' <= ch <= 'z') ==> u == ch
    ensures 'a' <= ch <= 'z' ==> 'A' <= u <= 'Z'
  {
    if 'a' <= ch <= 'z' then (ch as int - 32) as char else ch
  }

  /** The key character of one square: '.', or the type letter, lower-case for Black. */
  function SquareSymbol(x: Option<Piece>): char
  {
    match x
    case None => '.'
    case Some(p) => if p.color == White then KindSymbol(p.kind) else ToLower(KindSymbol(p.kind))
  }

  /** The first k squares of the grid in row-major order, one character each. */
  function PlacementKey(g: Grid, k: nat): (key: string)
    requires k <= 64
    ensures |key| == k
  {
    if k == 0 then [] else PlacementKey(g, k - 1) + [SquareSymbol(At(g, (k - 1) / 8, (k - 1) % 8))]
  }

  /** An int converted to a C++ char: the low eight bits. */
  function ByteChar(x: int): char
  {
    (x % 256) as char
  }

  function TurnSuffix(turn: Color): string
  {
    if turn == White then " w" else " b"
  }

  /** `text` when `cond` holds, else nothing: one optional part of the key. */
  function Mark(cond: bool, text: string): string
  {
    if cond then text else ""
  }

  predicate LastMoveWasDoubleStep(m: Move)
  {
    m.pieceMoved.Some? && m.pieceMoved.value.kind == Pawn && Abs(m.toRow - m.fromRow) == 2
  }

  /** " ep" and the skipped square, after a two-row pawn move. */
  function EnPassantSuffix(m: Move): string
  {
    if LastMoveWasDoubleStep(m) then
      " ep" + [ByteChar('a' as int + m.fromCol), ByteChar('8' as int - (m.fromRow + m.toRow) / 2)]
    else ""
  }

  /** The first 66 characters of the key: the placement and the side to move. */
  function KeyHeader(s: BoardState): (h: string)
    ensures |h| == 66
  {
    PlacementKey(s.grid, 64) + TurnSuffix(s.turn)
  }

  /** " K", " Q", " k", " q" for each castling whose king and rook flags are both clear. */
  function CastlingMarks(f: CastlingFlags): string
  {
    Mark(!f.whiteKingMoved && !f.whiteKingsideRookMoved, " K")
    + Mark(!f.whiteKingMoved && !f.whiteQueensideRookMoved, " Q")
    + Mark(!f.blackKingMoved && !f.blackKingsideRookMoved, " k")
    + Mark(!f.blackKingMoved && !f.blackQueensideRookMoved, " q")
  }

  /** The rest of the key: the castling marks, then the en-passant part. */
  function KeyTail(f: CastlingFlags, lastMove: Move): string
  {
    CastlingMarks(f) + EnPassantSuffix(lastMove)
  }

  /** `generatePositionKey`. */
  function PositionKey(s: BoardState): string
  {
    KeyHeader(s) + KeyTail(s.flags, s.lastMove)
  }

  function Count(h: map<string, int>, key: string): int
  {
    if key in h then h[key] else 0
  }

  /** `positionHistory[key]++`. */
  function Record(h: map<string, int>, key: string): (h': map<string, int>)
    ensures key in h' && h'[key] == Count(h, key) + 1
    ensures forall k | k != key :: Count(h', k) == Count(h, k)
  {
    h[key := Count(h, key) + 1]
  }

  /** `isThreefoldRepetition`: the current key was recorded at least three times. */
  predicate IsThreefoldRepetition(s: BoardState)
  {
    Count(s.history, PositionKey(s)) >= 3
  }

  /** `getGameResult`, in the source's order of tests. */
  function GameResultOf(s: BoardState): GameResult
  {
    if InCheck(s.grid, s.turn) && !HasLegalMoves(s.grid, s.turn) then Checkmate
    else if !InCheck(s.grid, s.turn) && !HasLegalMoves(s.grid, s.turn) then Stalemate
    else if s.halfmoveClock >= 100 then FiftyMoveRule
    else if IsThreefoldRepetition(s) then ThreefoldRepetition
    else Ongoing
  }

  /** `isValidCastlingMove`: the flag test for the four standard king moves, else false. */
  predicate IsValidCastlingMove(f: CastlingFlags, fr: int, fc: int, tr: int, tc: int, color: Color)
  {
    if color == White then
      if fr == 7 && fc == 4 && tr == 7 && tc == 6 then !f.whiteKingMoved && !f.whiteKingsideRookMoved
      else if fr == 7 && fc == 4 && tr == 7 && tc == 2 then !f.whiteKingMoved && !f.whiteQueensideRookMoved
      else false
    else
      if fr == 0 && fc == 4 && tr == 0 && tc == 6 then !f.blackKingMoved && !f.blackKingsideRookMoved
      else if fr == 0 && fc == 4 && tr == 0 && tc == 2 then !f.blackKingMoved && !f.blackQueensideRookMoved
      else false
  }

  // ------------------------------------------------------------ movePiece

  datatype MoveOutcome = MoveOutcome(ok: bool, after: BoardState)

  /** The piece a promoting pawn becomes: Q, R, B or N by the upper-cased choice, else a queen. */
  function PromotedPiece(color: Color, choice: char): (p: Piece)
    ensures p.color == color
    ensures p.kind == Queen || p.kind == Rook || p.kind == Bishop || p.kind == Knight
    ensures ToUpper(choice) == 'R' <==> p.kind == Rook
    ensures ToUpper(choice) == 'B' <==> p.kind == Bishop
    ensures ToUpper(choice) == 'N' <==> p.kind == Knight
  {
    var c := ToUpper(choice);
    var kind: Kind := if c == 'R' then Rook else if c == 'B' then Bishop else if c == 'N' then Knight else Queen;
    Piece(kind, color, false)
  }

  predicate Promotes(p: Piece, tr: int)
  {
    p.kind == Pawn && ((p.color == White && tr == 0) || (p.color == Black && tr == 7))
  }

  /** The flag updates after an ordinary move: the mover's king flag, or a corner rook's flag. */
  function UpdatedFlags(f: CastlingFlags, moved: Piece, fr: int, fc: int): CastlingFlags
  {
    if moved.kind == King then
      if moved.color == White then f.(whiteKingMoved := true) else f.(blackKingMoved := true)
    else if moved.kind == Rook then
      if moved.color == White then
        if fr == 7 && fc == 0 then f.(whiteQueensideRookMoved := true)
        else if fr == 7 && fc == 7 then f.(whiteKingsideRookMoved := true)
        else f
      else
        if fr == 0 && fc == 0 then f.(blackQueensideRookMoved := true)
        else if fr == 0 && fc == 7 then f.(blackKingsideRookMoved := true)
        else f
    else f
  }

  /** The king placed on (row, c) with its own square emptied: one castling trial. */
  function KingTrial(g: Grid, row: int, fc: int, c: int, king: Piece): Grid
    requires OnBoard(row, fc) && OnBoard(row, c)
  {
    Put(Put(g, row, fc, None), row, c, Some(king))
  }

  predicate IsCastlingAttempt(p: Piece, fr: int, fc: int, tr: int, tc: int)
  {
    p.kind == King && Abs(tc - fc) == 2 && fr == tr
  }

  /**
   * The castling branch of `movePiece`: fails if a square between the king and the corner
   * is occupied, if the king is in check, or if either crossed square would put it in
   * check; otherwise moves the king, then moves the corner's occupant to column 5 or 3
   * and sets the last move. Flags, turn, clock and history are not touched.
   */
  function CastleOutcome(s: BoardState, king: Piece, row: int, fc: int, tc: int): MoveOutcome
    requires OnBoard(row, fc) && OnBoard(row, tc) && Abs(tc - fc) == 2
  {
    var kingside := tc > fc;
    var rookCol := if kingside then 7 else 0;
    var rookDestCol := if kingside then 5 else 3;
    var step := if kingside then 1 else -1;
    if !RowClear(s.grid, row, fc, rookCol) then MoveOutcome(false, s)
    else if InCheck(s.grid, king.color) then MoveOutcome(false, s)
    else if InCheck(KingTrial(s.grid, row, fc, fc + step, king), king.color) then MoveOutcome(false, s)
    else if InCheck(KingTrial(s.grid, row, fc, fc + 2 * step, king), king.color) then MoveOutcome(false, s)
    else
      var g1 := Put(Put(s.grid, row, tc, Some(king)), row, fc, None);
      var rook := At(g1, row, rookCol);
      var g2 := Put(Put(g1, row, rookDestCol, rook), row, rookCol, None);
      MoveOutcome(true, s.(grid := g2, lastMove := Move(row, fc, row, tc, Some(king))))
  }

  /** The grid after the tentative move: en-passant victim removed, piece relocated. */
  function TentativeGrid(g: Grid, piece: Piece, fr: int, fc: int, tr: int, tc: int, ep: bool): Grid
    requires OnBoard(fr, fc) && OnBoard(tr, tc)
  {
    var g1 := if ep then Put(g, fr, tc, None) else g;
    Put(Put(g1, tr, tc, Some(piece)), fr, fc, None)
  }

  function CapturedBy(g: Grid, fr: int, fc: int, tr: int, tc: int, ep: bool): Option<Piece>
    requires OnBoard(fr, fc) && OnBoard(tr, tc)
  {
    if ep then At(g, fr, tc) else At(g, tr, tc)
  }

  /** The rollback after self-check: piece back, captured piece onto the destination, and for en passant onto its own square too. */
  function RolledBackGrid(g2: Grid, piece: Piece, captured: Option<Piece>, fr: int, fc: int, tr: int, tc: int, ep: bool): Grid
    requires OnBoard(fr, fc) && OnBoard(tr, tc)
  {
    var g3 := Put(Put(g2, fr, fc, Some(piece)), tr, tc, captured);
    if ep then Put(g3, fr, tc, captured) else g3
  }

  /** The commit of an ordinary move, in the source's order. */
  function CommitOutcome(s: BoardState, piece: Piece, captured: Option<Piece>, g2: Grid,
                         fr: int, fc: int, tr: int, tc: int, promotion: char): MoveOutcome
    requires OnBoard(fr, fc) && OnBoard(tr, tc)
  {
    var moved := if Promotes(piece, tr) then PromotedPiece(piece.color, promotion) else piece;
    var g3 := if Promotes(piece, tr) then Put(g2, tr, tc, Some(moved)) else g2;
    MoveOutcome(true, HandOver(s.(grid := g3, lastMove := Move(fr, fc, tr, tc, Some(moved))), moved, captured, fr, fc))
  }

  /**
   * The end of a committed move, once grid and last move are final: the new position is
   * recorded, the castling flags updated, the clock reset or advanced, the turn passed.
   */
  function HandOver(s1: BoardState, moved: Piece, captured: Option<Piece>, fr: int, fc: int): BoardState
  {
    var s2 := s1.(history := Record(s1.history, PositionKey(s1)));
    var clock := if moved.kind == Pawn || captured.Some? then 0 else s1.halfmoveClock + 1;
    s2.(flags := UpdatedFlags(s1.flags, moved, fr, fc), halfmoveClock := clock, turn := Opponent(s1.turn))
  }

  function OrdinaryOutcome(s: BoardState, piece: Piece, fr: int, fc: int, tr: int, tc: int, ep: bool, promotion: char): MoveOutcome
    requires OnBoard(fr, fc) && OnBoard(tr, tc)
  {
    var captured := CapturedBy(s.grid, fr, fc, tr, tc, ep);
    var g2 := TentativeGrid(s.grid, piece, fr, fc, tr, tc, ep);
    if InCheck(g2, piece.color) then
      MoveOutcome(false, s.(grid := RolledBackGrid(g2, piece, captured, fr, fc, tr, tc, ep)))
    else
      CommitOutcome(s, piece, captured, g2, fr, fc, tr, tc, promotion)
  }

  predicate IsEnPassant(s: BoardState, piece: Piece, fr: int, fc: int, tr: int, tc: int)
    requires OnBoard(fr, fc) && OnBoard(tr, tc)
  {
    piece.kind == Pawn && s.lastMove.pieceMoved.Some? &&
    CanEnPassant(piece.color, s.grid, fr, fc, tr, tc, s.lastMove)
  }

  /** `movePiece(fromRow, fromCol, toRow, toCol)` with the promotion choice as an input. */
  function MovePieceOutcome(s: BoardState, fr: int, fc: int, tr: int, tc: int, promotion: char): MoveOutcome
    requires OnBoard(fr, fc) && OnBoard(tr, tc) && (fr != tr || fc != tc)
  {
    match At(s.grid, fr, fc)
    case None => MoveOutcome(false, s)
    case Some(piece) =>
      if piece.color != s.turn then MoveOutcome(false, s)
      else if IsCastlingAttempt(piece, fr, fc, tr, tc) then CastleOutcome(s, piece, fr, fc, tc)
      else
        var ep := IsEnPassant(s, piece, fr, fc, tr, tc);
        if !ep && !IsValidMove(piece, s.grid, fr, fc, tr, tc) then MoveOutcome(false, s)
        else OrdinaryOutcome(s, piece, fr, fc, tr, tc, ep, promotion)
  }

  // ------------------------------------------------------------ loadFEN

  predicate IsSpace(ch: char)
  {
    ch == ' ' || ch == '\t' || ch == '\n' || ch == '\r' || ch == 11 as char || ch == 12 as char
  }

  predicate IsDigit(ch: char)
  {
    '0' <= ch <= '9'
  }

  /** The longest prefix of s without white space. */
  function TokenPrefix(s: string): (t: string)
    ensures |t| <= |s| && t == s[..|t|]
    ensures forall i | 0 <= i < |t| :: !IsSpace(t[i])
    ensures |t| < |s| ==> IsSpace(s[|t|])
  {
    if s == [] || IsSpace(s[0]) then [] else [s[0]] + TokenPrefix(s[1..])
  }

  /** The white-space separated words `>>` extracts from a string stream. */
  function Tokens(s: string): seq<string>
    decreases |s|
  {
    if s == [] then []
    else if IsSpace(s[0]) then Tokens(s[1..])
    else var t := TokenPrefix(s); [t] + Tokens(s[|t|..])
  }

  /** The i-th word, or the empty string when the stream ran out. */
  function Field(s: string, i: nat): string
  {
    var ts := Tokens(s);
    if i < |ts| then ts[i] else ""
  }

  function DigitPrefix(s: string): (d: string)
    ensures |d| <= |s| && d == s[..|d|]
    ensures forall i | 0 <= i < |d| :: IsDigit(d[i])
  {
    if s != [] && IsDigit(s[0]) then [s[0]] + DigitPrefix(s[1..]) else []
  }

  function DigitsValue(d: string): (v: int)
    requires forall i | 0 <= i < |d| :: IsDigit(d[i])
    ensures v >= 0
  {
    if d == [] then 0
    else
      assert IsDigit(d[|d| - 1]);
      DigitsValue(d[..|d| - 1]) * 10 + (d[|d| - 1] as int - '0' as int)
  }

  const IntMin: int := -0x8000_0000
  const IntMax: int := 0x7FFF_FFFF

  /**
   * `std::stoi` on a word: an optional sign, then at least one digit (the digits that
   * follow are read up to the first non-digit); no digit, or a value outside the 32-bit
   * range, is an exception, here `None`.
   */
  function Stoi(t: string): (r: Option<int>)
    ensures r.Some? ==> IntMin <= r.value <= IntMax
  {
    var negative := |t| > 0 && t[0] == '-';
    var rest := if |t| > 0 && (t[0] == '-' || t[0] == '+') then t[1..] else t;
    var d := DigitPrefix(rest);
    if d == [] then None
    else
      var v: int := if negative then -DigitsValue(d) else DigitsValue(d);
      if v < IntMin || v > IntMax then None else Some(v)
  }

  /** The piece a FEN letter stands for, `None` for a letter that names no piece. */
  function PieceOfLetter(ch: char, uninit: bool): Option<Piece>
  {
    var color := if 'A' <= ch <= 'Z' then White else Black;
    var t := ToLower(ch);
    if t == 'p' then Some(Piece(Pawn, color, uninit))
    else if t == 'r' then Some(Piece(Rook, color, uninit))
    else if t == 'n' then Some(Piece(Knight, color, uninit))
    else if t == 'b' then Some(Piece(Bishop, color, uninit))
    else if t == 'q' then Some(Piece(Queen, color, uninit))
    else if t == 'k' then Some(Piece(King, color, uninit))
    else None
  }

  /** Every write of the placement loop, started at (row, col), lands on the board. */
  predicate PlacementFits(part: string, row: int, col: int)
    decreases |part|
  {
    if part == [] then true
    else if part[0] == '/' then PlacementFits(part[1..], row + 1, 0)
    else if IsDigit(part[0]) then PlacementFits(part[1..], row, col + (part[0] as int - '0' as int))
    else OnBoard(row, col) && PlacementFits(part[1..], row, col + 1)
  }

  /** The placement loop of `loadFEN`: '/' starts the next row, a digit skips columns, any other character is written and advances one column. */
  function Placement(g: Grid, part: string, row: int, col: int, uninit: bool): Grid
    requires PlacementFits(part, row, col)
    decreases |part|
  {
    if part == [] then g
    else if part[0] == '/' then Placement(g, part[1..], row + 1, 0, uninit)
    else if IsDigit(part[0]) then Placement(g, part[1..], row, col + (part[0] as int - '0' as int), uninit)
    else Placement(Put(g, row, col, PieceOfLetter(part[0], uninit)), part[1..], row, col + 1, uninit)
  }

  predicate Contains(s: string, ch: char)
  {
    exists i | 0 <= i < |s| :: s[i] == ch
  }

  /** The flags `loadFEN` derives from the castling field. */
  function FlagsFromCastling(c: string): CastlingFlags
  {
    CastlingFlags(
      whiteKingMoved := !Contains(c, 'K') || !Contains(c, 'Q'),
      blackKingMoved := !Contains(c, 'k') || !Contains(c, 'q'),
      whiteKingsideRookMoved := !Contains(c, 'K'),
      whiteQueensideRookMoved := !Contains(c, 'Q'),
      blackKingsideRookMoved := !Contains(c, 'k'),
      blackQueensideRookMoved := !Contains(c, 'q'))
  }

  predicate FenFits(fen: string)
  {
    Stoi(Field(fen, 4)).Some? ==> PlacementFits(Field(fen, 0), 0, 0)
  }

  /**
   * `loadFEN`: `None` when the clock field is not a number (the board is unchanged);
   * otherwise the new clock, grid, turn and flags. The last move and the history are kept.
   */
  function LoadFenOutcome(s: BoardState, fen: string, uninit: bool): Option<BoardState>
    requires FenFits(fen)
  {
    match Stoi(Field(fen, 4))
    case None => None
    case Some(clock) =>
      Some(s.(halfmoveClock := clock,
              grid := Placement(EmptyGrid(), Field(fen, 0), 0, 0, uninit),
              turn := if Field(fen, 1) == "w" then White else Black,
              flags := FlagsFromCastling(Field(fen, 2))))
  }
}
