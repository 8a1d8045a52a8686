// Piece values, the 8x8 grid of optional pieces, and the Move record
// (src/core/piece.h, src/core/move.h, the grid of src/core/board.h).

module Pieces {

  datatype Option<+T> = None | Some(value: T)

  /** The two colours; there is no third value (piece.h line 3). */
  datatype Color = White | Black

  /** The piece-type enumeration, including NONE, in the order of piece.h line 4. */
  datatype PieceType = Pawn | Rook | Knight | Bishop | Queen | King | NoType

  /** The type of an actual piece: every concrete subclass reports one of the six real types. */
  type Kind = t: PieceType | t != NoType witness Pawn

  /**
   * A piece as a value. `baseMoved` is the base-class `hasMoved` flag: no constructor
   * initialises it and no shown code writes it, so it keeps whatever value it had when the
   * piece was created. Only a king ever reads it (a rook reads its own shadowing flag,
   * which is always false).
   */
  datatype Piece = Piece(kind: Kind, color: Color, baseMoved: bool)

  function Opponent(c: Color): (o: Color)
    ensures o != c
    ensures c == White <==> o == Black
  {
    if c == White then Black else White
  }

  /** `isWhite()` is exactly `getColor() == WHITE`. */
  predicate IsWhite(p: Piece)
  {
    p.color == White
  }

  /** `clone()` is copy construction: same concrete type, same colour, same flags. */
  function Clone(p: Piece): (q: Piece)
    ensures q.kind == p.kind && q.color == p.color && q.baseMoved == p.baseMoved
  {
    Piece(p.kind, p.color, p.baseMoved)
  }

  /** A freshly constructed piece; `uninit` stands for the indeterminate base flag. */
  function NewPiece(kind: Kind, color: Color, uninit: bool): (p: Piece)
    ensures p.kind == kind && p.color == color
  {
    Piece(kind, color, uninit)
  }

  lemma IsWhiteIffWhite(p: Piece)
    ensures IsWhite(p) <==> p.color == White
    ensures !IsWhite(p) <==> p.color == Black
  {
  }

  type Row = seq<Option<Piece>>

  predicate IsGrid(g: seq<Row>)
  {
    |g| == 8 && forall r | 0 <= r < 8 :: |g[r]| == 8
  }

  /** The board's `Piece* board[8][8]`: exactly eight rows of eight optional pieces. */
  type Grid = g: seq<Row> | IsGrid(g) witness seq(8, _ => seq(8, _ => None))

  predicate OnBoard(r: int, c: int)
  {
    0 <= r < 8 && 0 <= c < 8
  }

  function At(g: Grid, r: int, c: int): Option<Piece>
    requires OnBoard(r, c)
  {
    g[r][c]
  }

  /** Writes one slot of the grid, leaving the other 63 as they were. */
  function Put(g: Grid, r: int, c: int, x: Option<Piece>): (h: Grid)
    requires OnBoard(r, c)
    ensures At(h, r, c) == x
    ensures forall r', c' | OnBoard(r', c') && (r' != r || c' != c) :: At(h, r', c') == At(g, r', c')
  {
    g[r := g[r][c := x]]
  }

  function EmptyGrid(): (g: Grid)
    ensures forall r, c | OnBoard(r, c) :: At(g, r, c) == None
  {
    seq(8, _ => seq(8, _ => None))
  }

  predicate IsPieceOf(x: Option<Piece>, color: Color)
  {
    x.Some? && x.value.color == color
  }

  predicate IsKindOf(x: Option<Piece>, kind: PieceType)
  {
    x.Some? && x.value.kind == kind
  }

  /** The destination test every piece shares: empty, or holding the other colour. */
  predicate EmptyOrEnemy(g: Grid, r: int, c: int, color: Color)
    requires OnBoard(r, c)
  {
    At(g, r, c).None? || At(g, r, c).value.color != color
  }

  function Abs(x: int): (a: int)
    ensures a >= 0 && (a == x || a == -x)
  {
    if x < 0 then -x else x
  }

  /**
   * The Move record: four unchecked integer coordinates and the moved piece. The source
   * keeps a raw pointer to the piece; since a piece's type and colour never change, the
   * model keeps a snapshot of the piece, `None` for the null pointer.
   */
  datatype Move = Move(fromRow: int, fromCol: int, toRow: int, toCol: int, pieceMoved: Option<Piece>)

  /** `Move()`: all coordinates 0 and no piece. */
  function DefaultMove(): (m: Move)
    ensures m.fromRow == 0 && m.fromCol == 0 && m.toRow == 0 && m.toCol == 0
    ensures m.pieceMoved.None?
  {
    Move(0, 0, 0, 0, None)
  }

  /** The five-argument constructor accepts any integers and stores each one unchanged. */
  function MakeMove(fr: int, fc: int, tr: int, tc: int, pm: Option<Piece>): (m: Move)
    ensures m.fromRow == fr && m.fromCol == fc && m.toRow == tr && m.toCol == tc
    ensures m.pieceMoved == pm
  {
    Move(fr, fc, tr, tc, pm)
  }

  predicate MoveOnBoard(m: Move)
  {
    OnBoard(m.fromRow, m.fromCol) && OnBoard(m.toRow, m.toCol)
  }
}
