/**
 * The text side of the game loop in src/main_ui.cpp: `parseMove` reads a move typed as
 * "e2 e4", `moveToString` writes the bot's move back in the same notation, and
 * `calculateSearchDepth` picks the bot's depth from the number of pieces left.
 * Files 'a'..'h' are columns 0..7; ranks '8'..'1' are rows 0..7, so row 0 is Black's
 * back rank.
 */
module MoveText {
  import opened Pieces
  import opened BoardModel
  import opened Boards
  import opened Evaluation

  // ------------------------------------------------------------ parseMove

  /** The four integers `parseMove` writes back through its reference parameters. */
  datatype Squares = Squares(fromRow: int, fromCol: int, toRow: int, toCol: int)

  /** Every character passed through `tolower`. */
  function Lowered(s: string): (t: string)
    ensures |t| == |s| && forall i | 0 <= i < |s| :: t[i] == ToLower(s[i])
  {
    seq(|s|, i requires 0 <= i < |s| => ToLower(s[i]))
  }

  predicate IsFile(ch: char) { 'a' <= ch <= 'h' }

  predicate IsRank(ch: char) { '1' <= ch <= '8' }

  /**
   * `parseMove(input, ...)`: exactly five characters with a space in the middle, a file
   * (either case) and a rank on each side; anything else is refused with `None`, the
   * source's `false`.
   */
  function ParseMove(input: string): (r: Option<Squares>)
    ensures r.Some? ==> OnBoard(r.value.fromRow, r.value.fromCol) && OnBoard(r.value.toRow, r.value.toCol)
    ensures r.Some? ==> |input| == 5 && input[2] == ' '
  {
    if |input| != 5 || input[2] != ' ' then None
    else
      var fc := ToLower(input[0]);
      var fr := input[1];
      var tc := ToLower(input[3]);
      var tr := input[4];
      if !IsFile(fc) || !IsRank(fr) || !IsFile(tc) || !IsRank(tr) then None
      else
        Some(Squares(8 - (fr as int - '0' as int), fc as int - 'a' as int,
                     8 - (tr as int - '0' as int), tc as int - 'a' as int))
  }

  // ------------------------------------------------------------ moveToString

  function FileChar(col: int): (ch: char)
    requires 0 <= col < 8
    ensures IsFile(ch)
  {
    ('a' as int + col) as char
  }

  function RankChar(row: int): (ch: char)
    requires 0 <= row < 8
    ensures IsRank(ch)
  {
    ('8' as int - row) as char
  }

  /** `moveToString(move)`: "<file><rank> <file><rank>" for the two squares of the move. */
  function MoveToString(m: Move): (s: string)
    requires MoveOnBoard(m)
    ensures |s| == 5 && s[2] == ' '
    ensures IsFile(s[0]) && IsRank(s[1]) && IsFile(s[3]) && IsRank(s[4])
  {
    [FileChar(m.fromCol), RankChar(m.fromRow), ' ', FileChar(m.toCol), RankChar(m.toRow)]
  }

  /** Reading back what `moveToString` wrote gives the move's four coordinates. */
  lemma ParseMoveToString(m: Move)
    requires MoveOnBoard(m)
    ensures ParseMove(MoveToString(m)) == Some(Squares(m.fromRow, m.fromCol, m.toRow, m.toCol))
  {
    var s := MoveToString(m);
    assert ToLower(s[0]) == s[0] && ToLower(s[3]) == s[3];
  }

  /** Writing out what `parseMove` accepted gives the input back, with its files in lower case. */
  lemma MoveToStringParsed(input: string)
    requires ParseMove(input).Some?
    ensures var q := ParseMove(input).value;
      MoveToString(Move(q.fromRow, q.fromCol, q.toRow, q.toCol, None)) == Lowered(input)
  {
    var q := ParseMove(input).value;
    var s := MoveToString(Move(q.fromRow, q.fromCol, q.toRow, q.toCol, None));
    var t := Lowered(input);
    assert s[0] == t[0] && s[1] == t[1] && s[2] == t[2] && s[3] == t[3] && s[4] == t[4];
  }

  /** Letter case does not matter to `parseMove`. */
  lemma ParseMoveIgnoresCase(input: string)
    ensures ParseMove(Lowered(input)) == ParseMove(input)
  {
    var t := Lowered(input);
    if |input| == 5 {
      assert ToLower(t[0]) == t[0] && ToLower(t[3]) == t[3];
      assert t[2] == ' ' <==> input[2] == ' ';
      assert IsRank(t[1]) <==> IsRank(input[1]);
      assert IsRank(t[4]) <==> IsRank(input[4]);
    }
  }

  /**
   * `parseMove` accepts exactly the strings that spell some move on the board once their
   * letters are lowered: the notation `moveToString` writes, in either case.
   */
  lemma ParseMoveAccepts(input: string)
    ensures ParseMove(input).Some? <==> exists m :: MoveOnBoard(m) && MoveToString(m) == Lowered(input)
  {
    if ParseMove(input).Some? {
      var q := ParseMove(input).value;
      MoveToStringParsed(input);
      assert MoveOnBoard(Move(q.fromRow, q.fromCol, q.toRow, q.toCol, None));
    } else if m :| MoveOnBoard(m) && MoveToString(m) == Lowered(input) {
      ParseMoveIgnoresCase(input);
      ParseMoveToString(m);
      assert false;
    }
  }

  // ------------------------------------------------------------ calculateSearchDepth

  /** The depth for a position with `total` pieces: 3 in the opening, 4 in the middlegame, 5 in the endgame. */
  function DepthForPieces(total: int): (d: int)
    ensures 3 <= d <= 5
  {
    if total > 28 then 3
    else if total > 16 then 4
    else 5
  }

  /** Fewer pieces never make the search shallower. */
  lemma DepthForPiecesAntitone(fewer: int, more: int)
    requires fewer <= more
    ensures DepthForPieces(more) <= DepthForPieces(fewer)
  {
  }

  /** The depth `calculateSearchDepth` picks for a grid. */
  function SearchDepth(g: Grid): (d: int)
    ensures 3 <= d <= 5
  {
    DepthForPieces(PieceCount(g))
  }

  /**
   * `calculateSearchDepth()`: count the occupied squares row by row, then pick the depth
   * for that count.
   */
  method CalculateSearchDepth(board: Board) returns (depth: int)
    ensures depth == SearchDepth(board.grid)
    ensures depth == 3 <==> PieceCount(board.grid) > 28
    ensures depth == 5 <==> PieceCount(board.grid) <= 16
  {
    var totalPieces := CountPieces(board);
    if totalPieces > 28 {
      depth := 3;
    } else if totalPieces > 16 {
      depth := 4;
    } else {
      depth := 5;
    }
  }

  /** The sum of a row on which `f` is v everywhere. */
  lemma {:induction false} ColSumConstant(f: SquareFn, r: int, c: nat, v: int)
    requires c <= 8 && forall c' | 0 <= c' < 8 :: f(r, c') == v
    ensures ColSum(f, r, c) == c * v
  {
    if c > 0 {
      ColSumConstant(f, r, c - 1, v);
    }
  }

  /** The back ranks and the pawn ranks are full at the start; the four middle ranks are empty. */
  lemma StartRow(uninit: bool, r: int)
    requires 0 <= r < 8
    ensures ColSum(Occupancy(StartGrid(uninit)), r, 8) == if r <= 1 || r >= 6 then 8 else 0
  {
    var f := Occupancy(StartGrid(uninit));
    if r <= 1 || r >= 6 {
      ColSumConstant(f, r, 8, 1);
    } else {
      ColSumConstant(f, r, 8, 0);
    }
  }

  /** The pieces on the first n ranks of the starting position. */
  lemma {:induction false} StartRows(uninit: bool, n: nat)
    requires n <= 8
    ensures RowsTo(Occupancy(StartGrid(uninit)), n) == if n <= 2 then 8 * n else if n <= 6 then 16 else 16 + 8 * (n - 6)
  {
    if n > 0 {
      StartRows(uninit, n - 1);
      StartRow(uninit, n - 1);
    }
  }

  /** The starting position holds 32 pieces, so the bot's first search is 3 plies deep. */
  lemma StartSearchDepth(uninit: bool)
    ensures PieceCount(StartGrid(uninit)) == 32
    ensures SearchDepth(StartGrid(uninit)) == 3
  {
    StartRows(uninit, 8);
    SumByRows(Occupancy(StartGrid(uninit)), 8);
  }

  /** Swapping the colours and flipping the board leaves the depth unchanged. */
  lemma SearchDepthMirror(g: Grid)
    ensures SearchDepth(Mirror(g)) == SearchDepth(g)
  {
    MirrorPieceCount(g);
  }
}
