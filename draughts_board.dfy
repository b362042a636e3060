/** The 10x10 draughts board of engine/games/draughts.py as a value: fields, Python
    indexing, the perspective flip, the position code `_encode_state` builds, the
    movability test `_can_piece_move`, and the material count of `evaluate_view`. */
module DraughtsBoard {
  import opened Common

  /** BOARD_SIZE. */
  const Size: int := 10

  /** The player object on a field, or None for an empty field. Views compare owners with
      `==`, so None also equals an unset `pov` or `other`. */
  type Owner = Option<nat>

  /** A `Field`: whether it is dark, its piece's player, and whether the piece is a king. */
  datatype Field = Field(isDark: bool, player: Owner, isKing: bool)

  /** `fields[col][row]`: a list of columns. */
  type Board = seq<seq<Field>>

  type Coord = (int, int)

  ghost predicate Square(b: Board)
  {
    |b| == Size && forall c :: 0 <= c < Size ==> |b[c]| == Size
  }

  predicate InBoard(p: Coord)
  {
    0 <= p.0 < Size && 0 <= p.1 < Size
  }

  /** The loops over the board visit the fields column by column, each column row by row.
      (col, row) is where such a walk has got to: a field, or the end (Size, 0). */
  predicate Cursor(col: int, row: int)
  {
    0 <= col <= Size && 0 <= row <= Size && (col < Size || row == 0)
  }

  /** Field (c, r) comes before (col, row) in column order. */
  predicate Before(c: int, r: int, col: int, row: int)
  {
    c < col || (c == col && r < row)
  }

  /** Python's index into a list of Size elements: negative indices count from the end;
      outside -Size..Size-1 the access raises IndexError. */
  function Wrap(i: int): (k: int)
    requires -Size <= i < Size
    ensures 0 <= k < Size && (k == i || k == i + Size)
  {
    if i < 0 then i + Size else i
  }

  predicate Indexable(p: Coord)
  {
    -Size <= p.0 < Size && -Size <= p.1 < Size
  }

  /** `view[(col, row)]` (`__getitem__`) as Python evaluates it. */
  function Get(b: Board, p: Coord): (r: Result<Field>)
    requires Square(b)
    ensures r.Err? <==> !Indexable(p)
    ensures r.Err? ==> r.error == IndexError
    ensures InBoard(p) ==> r == Ok(b[p.0][p.1])
  {
    if Indexable(p) then Ok(b[Wrap(p.0)][Wrap(p.1)]) else Err(IndexError)
  }

  /** `fields[col][row] = field` as Python evaluates it. */
  function Put(b: Board, p: Coord, f: Field): (r: Result<Board>)
    requires Square(b)
    ensures r.Err? <==> !Indexable(p)
    ensures r.Err? ==> r.error == IndexError
    ensures r.Ok? ==> Square(r.value) && r.value[Wrap(p.0)][Wrap(p.1)] == f
    ensures r.Ok? ==>
              forall c, w :: 0 <= c < Size && 0 <= w < Size && (c, w) != (Wrap(p.0), Wrap(p.1)) ==>
                r.value[c][w] == b[c][w]
  {
    if Indexable(p) then
      var c, w := Wrap(p.0), Wrap(p.1);
      Ok(b[c := b[c][w := f]])
    else Err(IndexError)
  }

  /** The board of a fresh view (lines 21-23): field (i, j) is dark exactly when i + j is
      even, and no field holds a piece. */
  function EmptyBoard(): (b: Board)
    ensures Square(b)
    ensures forall c, w :: 0 <= c < Size && 0 <= w < Size ==> b[c][w] == Field((c + w) % 2 == 0, None, false)
  {
    seq(Size, i => seq(Size, j => Field((i + j) % 2 == 0, None, false)))
  }

  /** Lines 55-57: the list of columns reversed, and every column reversed. */
  function Flip(b: Board): (f: Board)
    requires Square(b)
    ensures Square(f)
    ensures forall c, w :: 0 <= c < Size && 0 <= w < Size ==> f[c][w] == b[Size - 1 - c][Size - 1 - w]
  {
    seq(Size, i requires 0 <= i < Size => seq(Size, j requires 0 <= j < Size => b[Size - 1 - i][Size - 1 - j]))
  }

  /** Turning the board twice gives it back. */
  lemma FlipFlip(b: Board)
    requires Square(b)
    ensures Flip(Flip(b)) == b
  {
    var f := Flip(Flip(b));
    forall c | 0 <= c < Size ensures f[c] == b[c] {
      assert forall w :: 0 <= w < Size ==> f[c][w] == b[c][w];
    }
  }

  /** The code of one field in `_encode_state`: 0 empty, 1 own king, 2 own man,
      3 opponent king, 4 opponent man, where "own" means the view's `pov`. */
  function Code(f: Field, pov: Owner): (k: int)
    ensures 0 <= k <= 4
    ensures k == 0 <==> f.player.None?
    ensures k != 0 ==> (k % 2 == 1 <==> f.isKing) && (k <= 2 <==> f.player == pov)
  {
    if f.player.None? then 0
    else (if f.isKing then 1 else 2) + (if f.player == pov then 0 else 2)
  }

  /** Line 109: the first row read in column `col`, 0 when that column's row 0 is dark. */
  function Offset(b: Board, col: int): (o: int)
    requires Square(b) && 0 <= col < Size
    ensures o == 0 || o == 1
  {
    if b[col][0].isDark then 0 else 1
  }

  /** Lines 106-116: five consecutive rows per column from its offset, column by column;
      value k of the code is that of field (k / 5, offset + k % 5). */
  function Encoding(b: Board, pov: Owner): (s: seq<int>)
    requires Square(b)
    ensures |s| == Size * Size / 2
    ensures forall k :: 0 <= k < |s| ==> 0 <= s[k] <= 4
  {
    seq(Size * Size / 2, k requires 0 <= k < Size * Size / 2 =>
      Code(b[k / 5][Offset(b, k / 5) + k % 5], pov))
  }

  /** The code reads rows offset..offset+4 of each column only, so two boards that agree
      on rows 0-5 get the same code, whatever stands on rows 6-9. */
  lemma EncodingIgnoresUpperRows(b1: Board, b2: Board, pov: Owner)
    requires Square(b1) && Square(b2)
    requires forall c, w :: 0 <= c < Size && 0 <= w <= 5 ==> b1[c][w] == b2[c][w]
    ensures Encoding(b1, pov) == Encoding(b2, pov)
  {
    forall k | 0 <= k < Size * Size / 2 ensures Encoding(b1, pov)[k] == Encoding(b2, pov)[k] {
      assert Offset(b1, k / 5) == Offset(b2, k / 5);
    }
  }

  /** A man on field (0, 8) of the empty board changes the position but not its code, so
      the repetition count of a view cannot tell the two apart. */
  lemma EncodingCollision()
    ensures var b := EmptyBoard();
            var b' := b[0 := b[0][8 := Field(true, Some(0), false)]];
            Square(b') && b != b' && Encoding(b, None) == Encoding(b', None)
  {
    var b := EmptyBoard();
    var b' := b[0 := b[0][8 := Field(true, Some(0), false)]];
    assert b'[0][8] != b[0][8];
    EncodingIgnoresUpperRows(b, b', None);
  }

  /** `_can_piece_move` in one direction (dc, dr), the lines 122-132 body: the neighbour
      is empty and the piece may go that way (dc > 0, or a king), or the neighbour's
      player differs from the piece's and the field beyond it is empty. */
  function CanMoveTowards(b: Board, col: int, row: int, dc: int, dr: int): bool
    requires Square(b) && 0 <= col < Size && 0 <= row < Size
  {
    var piece := b[col][row];
    var c, r := col + dc, row + dr;
    if !(0 <= c < Size && 0 <= r < Size) then false
    else if b[c][r].player.None? && (dc > 0 || piece.isKing) then true
    else if b[c][r].player != piece.player then
      var c2, r2 := c + dc, r + dr;
      0 <= c2 < Size && 0 <= r2 < Size && b[c2][r2].player.None?
    else false
  }

  /** `_can_piece_move`: the four directions in the order the loops try them. */
  function CanPieceMove(b: Board, col: int, row: int): bool
    requires Square(b) && 0 <= col < Size && 0 <= row < Size
  {
    CanMoveTowards(b, col, row, -1, -1) || CanMoveTowards(b, col, row, -1, 1) ||
    CanMoveTowards(b, col, row, 1, -1) || CanMoveTowards(b, col, row, 1, 1)
  }

  /** A piece can move exactly when it can move along one of the four diagonals. */
  lemma CanPieceMoveSomeWay(b: Board, col: int, row: int)
    requires Square(b) && 0 <= col < Size && 0 <= row < Size
    ensures CanPieceMove(b, col, row) <==>
              exists dc, dr :: dc in {-1, 1} && dr in {-1, 1} && CanMoveTowards(b, col, row, dc, dr)
  {
  }

  /** Material of one field in doubled units: a man 2, a king 7 (1 and 3.5 in the source). */
  function Worth(f: Field): int
  {
    if f.isKing then 7 else 2
  }

  /** Lines 349-356 over the fields before (col, row) in column order: the points of the
      fields whose player equals `viewpoint`, and of the other occupied fields. */
  function Material(b: Board, viewpoint: Owner, col: int, row: int): (m: (int, int))
    requires Square(b) && Cursor(col, row)
    ensures m.0 >= 0 && m.1 >= 0
    decreases col, row
  {
    if row > 0 then
      var prev := Material(b, viewpoint, col, row - 1);
      var f := b[col][row - 1];
      if f.player == viewpoint then (prev.0 + Worth(f), prev.1)
      else if f.player.Some? then (prev.0, prev.1 + Worth(f))
      else prev
    else if col > 0 then Material(b, viewpoint, col - 1, Size)
    else (0, 0)
  }

  /** `evaluate_view` in doubled units: the material difference without a winner, own
      material plus 2000 for the viewpoint's win, and minus (opponent material plus 2000)
      otherwise. */
  function Evaluation(b: Board, winner: Owner, viewpoint: Owner): int
    requires Square(b)
  {
    var m := Material(b, viewpoint, Size, 0);
    if winner.None? then m.0 - m.1
    else if winner == viewpoint then m.0 + 2000
    else -(m.1 + 2000)
  }

  /** A won game scores at least the bonus for the winner and at most minus the bonus for
      anybody else. */
  lemma EvaluationOfWin(b: Board, winner: Owner, viewpoint: Owner)
    requires Square(b) && winner.Some?
    ensures winner == viewpoint ==> Evaluation(b, winner, viewpoint) >= 2000
    ensures winner != viewpoint ==> Evaluation(b, winner, viewpoint) <= -2000
  {
  }

  /** When every piece belongs to p or q, the material seen from q is that seen from p
      with the two sides exchanged. */
  lemma {:induction false} MaterialSwap(b: Board, p: Owner, q: Owner, col: int, row: int)
    requires Square(b) && Cursor(col, row) && p.Some? && q.Some? && p != q
    requires forall c, w :: 0 <= c < Size && 0 <= w < Size ==> b[c][w].player in {None, p, q}
    ensures Material(b, q, col, row) == (Material(b, p, col, row).1, Material(b, p, col, row).0)
    decreases col, row
  {
    if row > 0 {
      MaterialSwap(b, p, q, col, row - 1);
      assert b[col][row - 1].player in {None, p, q};
    } else if col > 0 {
      MaterialSwap(b, p, q, col - 1, Size);
    }
  }

  /** Between two players who own every piece, the evaluation is zero-sum: what one
      side gains the other loses, whoever won. */
  lemma EvaluationZeroSum(b: Board, winner: Owner, p: Owner, q: Owner)
    requires Square(b) && p.Some? && q.Some? && p != q && winner in {None, p, q}
    requires forall c, w :: 0 <= c < Size && 0 <= w < Size ==> b[c][w].player in {None, p, q}
    ensures Evaluation(b, winner, p) == -Evaluation(b, winner, q)
  {
    MaterialSwap(b, p, q, Size, 0);
  }
}
