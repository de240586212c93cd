/**
 * The board rules (js/modules/core/BoardModule.js): a ROWS x COLS grid of
 * colour codes (0 = empty), the collision predicate, the in-place merge,
 * full-row detection, row removal and the metrics scan.
 *
 * The board is an array of rows; a row is a value (`seq<int>`), so writing
 * one cell replaces that row.
 */
module Board {
  import Common
  import Pieces

  const Cols: int := 10
  const Rows: int := 20

  type Grid = seq<seq<int>>

  /** ROWS rows of COLS cells each. */
  predicate WellFormed(g: Grid)
  {
    |g| == Rows && forall y :: 0 <= y < |g| ==> |g[y]| == Cols
  }

  function EmptyRow(): (r: seq<int>)
    ensures |r| == Cols && forall x :: 0 <= x < |r| ==> r[x] == 0
  {
    seq(Cols, _ => 0)
  }

  /** The board `createEmpty` builds. */
  function EmptyGrid(): (g: Grid)
    ensures WellFormed(g)
    ensures forall y, x :: 0 <= y < Rows && 0 <= x < Cols ==> g[y][x] == 0
  {
    seq(Rows, _ => EmptyRow())
  }

  /** `createEmpty`: a fresh ROWS x COLS board of zeros. */
  method CreateEmpty() returns (board: array<seq<int>>)
    ensures fresh(board)
    ensures board[..] == EmptyGrid()
  {
    board := new seq<int>[Rows](_ => EmptyRow());
  }

  // ---------------------------------------------------------------------
  // Collision

  /**
   * The cell (dy, dx) of the piece's shape, moved by (ox, oy), is acceptable:
   * either it is empty, or it lands inside the side walls, above the floor and,
   * when it is on the visible board, on an empty cell. A cell above the top
   * (row < 0) is never compared with the board contents.
   */
  predicate CellFits(p: Pieces.Piece, g: Grid, ox: int, oy: int, dy: int, dx: int)
    requires WellFormed(g)
    requires 0 <= dy < |p.shape| && 0 <= dx < |p.shape[dy]|
  {
    var nx := p.x + dx + ox;
    var ny := p.y + dy + oy;
    p.shape[dy][dx] != 0 ==>
      0 <= nx < Cols && ny < Rows && (ny >= 0 ==> g[ny][nx] == 0)
  }

  /** Some cell of row `dy` of the shape, from column `dx` on, does not fit (the inner `row.some`). */
  function RowCollides(p: Pieces.Piece, g: Grid, ox: int, oy: int, dy: int, dx: int): (b: bool)
    requires WellFormed(g)
    requires 0 <= dy < |p.shape| && 0 <= dx <= |p.shape[dy]|
    ensures b <==> exists k :: dx <= k < |p.shape[dy]| && !CellFits(p, g, ox, oy, dy, k)
    decreases |p.shape[dy]| - dx
  {
    if dx == |p.shape[dy]| then false
    else if !CellFits(p, g, ox, oy, dy, dx) then true
    else RowCollides(p, g, ox, oy, dy, dx + 1)
  }

  /** Some row of the shape, from row `dy` on, collides (the outer `shape.some`). */
  function ShapeCollides(p: Pieces.Piece, g: Grid, ox: int, oy: int, dy: int): (b: bool)
    requires WellFormed(g)
    requires 0 <= dy <= |p.shape|
    ensures b <==> exists j, k :: dy <= j < |p.shape| && 0 <= k < |p.shape[j]| && !CellFits(p, g, ox, oy, j, k)
    decreases |p.shape| - dy
  {
    if dy == |p.shape| then false
    else if RowCollides(p, g, ox, oy, dy, 0) then true
    else ShapeCollides(p, g, ox, oy, dy + 1)
  }

  /**
   * `isValidPosition`: the piece moved by (offsetX, offsetY) is valid iff no
   * filled cell lands left of column 0, right of the last column, below the
   * last row, or on a non-zero board cell in a visible row.
   */
  function IsValidPosition(p: Pieces.Piece, g: Grid, offsetX: int, offsetY: int): (ok: bool)
    requires WellFormed(g)
    ensures ok <==> forall j, k :: 0 <= j < |p.shape| && 0 <= k < |p.shape[j]| ==>
                      CellFits(p, g, offsetX, offsetY, j, k)
  {
    !ShapeCollides(p, g, offsetX, offsetY, 0)
  }

  /** An offset is the same as moving the piece first. */
  lemma OffsetIsMove(p: Pieces.Piece, g: Grid, ox: int, oy: int)
    requires WellFormed(g)
    ensures IsValidPosition(p, g, ox, oy) == IsValidPosition(p.(x := p.x + ox, y := p.y + oy), g, 0, 0)
  {
    var q := p.(x := p.x + ox, y := p.y + oy);
    forall j, k | 0 <= j < |p.shape| && 0 <= k < |p.shape[j]|
      ensures CellFits(p, g, ox, oy, j, k) == CellFits(q, g, 0, 0, j, k)
    {
    }
  }

  /**
   * Rows above the top are never read: two boards that agree on the rows the
   * piece reaches give the same answer, and a piece entirely above the top is
   * valid on any board as long as it is inside the walls.
   */
  lemma AboveTopIgnoresContents(p: Pieces.Piece, g: Grid, h: Grid)
    requires WellFormed(g) && WellFormed(h)
    requires forall j, k :: 0 <= j < |p.shape| && 0 <= k < |p.shape[j]| && p.shape[j][k] != 0 ==> p.y + j < 0
    ensures IsValidPosition(p, g, 0, 0) == IsValidPosition(p, h, 0, 0)
  {
    forall j, k | 0 <= j < |p.shape| && 0 <= k < |p.shape[j]|
      ensures CellFits(p, g, 0, 0, j, k) == CellFits(p, h, 0, 0, j, k)
    {
    }
  }

  // ---------------------------------------------------------------------
  // Dropping

  /** A piece with a filled cell that can still move down one row is above the floor. */
  lemma CanFallMeansAboveFloor(p: Pieces.Piece, g: Grid)
    requires WellFormed(g) && Pieces.IsSquare(p.shape) && Pieces.HasFilled(p.shape)
    requires IsValidPosition(p, g, 0, 1)
    ensures p.y < Rows - 1
  {
    var c :| c in Pieces.FilledCells(p.shape);
    assert CellFits(p, g, 0, 1, c.0, c.1);
  }

  /** Where the piece comes to rest: it moves down while one row further is still valid. */
  function Dropped(p: Pieces.Piece, g: Grid): (q: Pieces.Piece)
    requires WellFormed(g) && Pieces.IsSquare(p.shape) && Pieces.HasFilled(p.shape)
    ensures q == p.(y := q.y) && q.y >= p.y
    ensures !IsValidPosition(q, g, 0, 1)
    decreases Rows - p.y
  {
    if IsValidPosition(p, g, 0, 1) then
      CanFallMeansAboveFloor(p, g);
      Dropped(p.(y := p.y + 1), g)
    else p
  }

  // ---------------------------------------------------------------------
  // Merge

  /** The piece has a filled cell over board cell (y, x). */
  predicate Covers(p: Pieces.Piece, y: int, x: int)
  {
    0 <= y - p.y < |p.shape| && 0 <= x - p.x < |p.shape[y - p.y]| && p.shape[y - p.y][x - p.x] != 0
  }

  /** Every filled cell of the piece in a visible row lies on the board (otherwise the write fails). */
  predicate VisibleCellsOnBoard(p: Pieces.Piece)
  {
    forall j, k :: 0 <= j < |p.shape| && 0 <= k < |p.shape[j]| && p.shape[j][k] != 0 && p.y + j >= 0 ==>
      p.y + j < Rows && 0 <= p.x + k < Cols
  }

  /** The board after writing `v` into every visible cell the piece covers. */
  function Merged(g: Grid, p: Pieces.Piece, v: int): (r: Grid)
    requires WellFormed(g)
    ensures WellFormed(r)
    ensures forall y, x :: 0 <= y < Rows && 0 <= x < Cols ==>
              r[y][x] == if Covers(p, y, x) then v else g[y][x]
  {
    seq(Rows, y requires 0 <= y < Rows =>
      seq(Cols, x requires 0 <= x < Cols => if Covers(p, y, x) then v else g[y][x]))
  }

  /** `colors.indexOf(piece.color) + 1`: 0 when the colour is not in the palette. */
  function ColorCode(colors: seq<string>, color: string): (v: int)
    ensures 0 <= v <= |colors|
    ensures v == 0 <==> color !in colors
    ensures v > 0 ==> colors[v - 1] == color
  {
    Common.IndexOf(colors, color) + 1
  }

  /** `mergePieceInto`: writes the piece's colour code into each filled cell in a visible row, in place. */
  method MergePieceInto(board: array<seq<int>>, piece: Pieces.Piece, colors: seq<string>)
    requires WellFormed(board[..])
    requires VisibleCellsOnBoard(piece)
    modifies board
    ensures board[..] == Merged(old(board[..]), piece, ColorCode(colors, piece.color))
  {
    ghost var g := board[..];
    var v := ColorCode(colors, piece.color);
    var y := 0;
    while y < |piece.shape|
      invariant 0 <= y <= |piece.shape|
      invariant WellFormed(board[..])
      invariant forall r, c :: 0 <= r < Rows && 0 <= c < Cols ==>
                  board[r][c] == if Covers(piece, r, c) && r - piece.y < y then v else g[r][c]
    {
      var x := 0;
      while x < |piece.shape[y]|
        invariant 0 <= x <= |piece.shape[y]|
        invariant WellFormed(board[..])
        invariant forall r, c :: 0 <= r < Rows && 0 <= c < Cols ==>
                    board[r][c] == if Covers(piece, r, c) && (r - piece.y < y || (r - piece.y == y && c - piece.x < x)) then v else g[r][c]
      {
        if piece.shape[y][x] != 0 {
          var boardY := piece.y + y;
          var boardX := piece.x + x;
          if boardY >= 0 {
            board[boardY] := board[boardY][boardX := v];
          }
        }
        x := x + 1;
      }
      y := y + 1;
    }
    ghost var m := Merged(g, piece, v);
    forall r | 0 <= r < Rows
      ensures board[r] == m[r]
    {
    }
  }

  /**
   * After a merge with a non-zero colour, the piece no longer fits where it was
   * merged, as soon as one of its filled cells is visible.
   */
  lemma MergedBlocksItself(g: Grid, p: Pieces.Piece, v: int, j: int, k: int)
    requires WellFormed(g) && VisibleCellsOnBoard(p) && v != 0
    requires 0 <= j < |p.shape| && 0 <= k < |p.shape[j]| && p.shape[j][k] != 0 && p.y + j >= 0
    ensures !IsValidPosition(p, Merged(g, p, v), 0, 0)
  {
    assert Covers(p, p.y + j, p.x + k);
    assert !CellFits(p, Merged(g, p, v), 0, 0, j, k);
  }

  // ---------------------------------------------------------------------
  // Full rows

  predicate RowFull(row: seq<int>)
  {
    forall x :: 0 <= x < |row| ==> row[x] != 0
  }

  predicate StrictlyDescending(s: seq<int>)
  {
    forall i, j :: 0 <= i < j < |s| ==> s[i] > s[j]
  }

  /** The full rows among the bottom `n` rows, listed from the bottom row up. */
  function CompletedLinesBelow(g: Grid, n: int): (lines: seq<int>)
    requires WellFormed(g) && 0 <= n <= Rows
    ensures forall r :: r in lines <==> Rows - n <= r < Rows && RowFull(g[r])
    ensures forall i :: 0 <= i < |lines| ==> Rows - n <= lines[i] < Rows
    ensures StrictlyDescending(lines)
  {
    if n == 0 then []
    else CompletedLinesBelow(g, n - 1) + (if RowFull(g[Rows - n]) then [Rows - n] else [])
  }

  /** Every full row, from the bottom row up. */
  function CompletedLines(g: Grid): (lines: seq<int>)
    requires WellFormed(g)
    ensures forall r :: r in lines <==> 0 <= r < Rows && RowFull(g[r])
    ensures StrictlyDescending(lines) && Distinct(lines) && IndicesInRange(lines)
  {
    CompletedLinesBelow(g, |g|)
  }

  /** The inner loop of `findCompletedLines`: scan a row until an empty cell (`continue outer`). */
  method ScanRow(row: seq<int>) returns (full: bool)
    requires |row| == Cols
    ensures full == RowFull(row)
  {
    var x := 0;
    while x < Cols && row[x] != 0
      invariant 0 <= x <= Cols
      invariant forall c :: 0 <= c < x ==> row[c] != 0
    {
      x := x + 1;
    }
    full := x == Cols;
  }

  /** `findCompletedLines`: the indices of the full rows, from the bottom row up. */
  method FindCompletedLines(board: array<seq<int>>) returns (lines: seq<int>)
    requires WellFormed(board[..])
    ensures lines == CompletedLines(board[..])
  {
    ghost var g := board[..];
    lines := [];
    var y := Rows - 1;
    while y >= 0
      invariant -1 <= y < Rows
      invariant lines == CompletedLinesBelow(g, Rows - 1 - y)
    {
      var full := ScanRow(board[y]);
      if full {
        lines := lines + [y];
      }
      y := y - 1;
    }
  }

  // ---------------------------------------------------------------------
  // Row removal

  /** `splice(y, 1)` followed by `unshift(emptyRow)`. */
  function SpliceUnshift(g: Grid, y: int): (r: Grid)
    requires 0 <= y < |g|
    ensures |r| == |g|
  {
    [EmptyRow()] + g[..y] + g[y + 1..]
  }

  /** The same operation done on the board array: rows 0..y-1 move down one place, row 0 becomes empty. */
  method SpliceUnshiftInPlace(board: array<seq<int>>, y: int)
    requires 0 <= y < board.Length
    modifies board
    ensures board[..] == SpliceUnshift(old(board[..]), y)
  {
    forall i | 1 <= i <= y {
      board[i] := board[i - 1];
    }
    board[0] := EmptyRow();
  }

  /** A single removal: row 0 empty, rows above y moved down by one, rows below y unchanged, and the row count kept. */
  lemma SingleRowRemoval(g: Grid, y: int)
    requires WellFormed(g) && 0 <= y < Rows
    ensures WellFormed(SpliceUnshift(g, y))
    ensures SpliceUnshift(g, y)[0] == EmptyRow()
    ensures forall i :: 0 <= i < y ==> SpliceUnshift(g, y)[i + 1] == g[i]
    ensures forall i :: y < i < Rows ==> SpliceUnshift(g, y)[i] == g[i]
  {
  }

  /** The removals applied one after another, in the order given. */
  function SpliceAll(g: Grid, ys: seq<int>): (r: Grid)
    requires forall i :: 0 <= i < |ys| ==> 0 <= ys[i] < |g|
    ensures |r| == |g|
  {
    if ys == [] then g
    else SpliceUnshift(SpliceAll(g, ys[..|ys| - 1]), ys[|ys| - 1])
  }

  lemma SpliceAllWellFormed(g: Grid, ys: seq<int>)
    requires WellFormed(g)
    requires forall i :: 0 <= i < |ys| ==> 0 <= ys[i] < Rows
    ensures WellFormed(SpliceAll(g, ys))
  {
  }

  /** Insert into an ascending sequence. */
  function Insert(x: int, s: seq<int>): (r: seq<int>)
    ensures |r| == |s| + 1 && multiset(r) == multiset(s) + multiset{x}
  {
    if s == [] || x <= s[0] then [x] + s
    else
      assert s == [s[0]] + s[1..];
      [s[0]] + Insert(x, s[1..])
  }

  predicate Ascending(s: seq<int>)
  {
    forall i, j :: 0 <= i < j < |s| ==> s[i] <= s[j]
  }

  predicate StrictlyAscending(s: seq<int>)
  {
    forall i, j :: 0 <= i < j < |s| ==> s[i] < s[j]
  }

  /** Each element of `Insert(x, s)` is `x` or an element of `s`. */
  lemma InsertElement(x: int, s: seq<int>, k: int)
    requires 0 <= k <= |s|
    ensures Insert(x, s)[k] == x || Insert(x, s)[k] in s
  {
    assert Insert(x, s)[k] in multiset(Insert(x, s));
  }

  lemma {:induction false} InsertAscending(x: int, s: seq<int>)
    requires Ascending(s)
    ensures Ascending(Insert(x, s))
  {
    if s != [] && x > s[0] {
      var tail := s[1..];
      InsertAscending(x, tail);
      var t := Insert(x, tail);
      forall k | 0 <= k < |t|
        ensures s[0] <= t[k]
      {
        InsertElement(x, tail, k);
      }
      assert Insert(x, s) == [s[0]] + t;
    }
  }

  lemma {:induction false} InsertStrictlyAscending(x: int, s: seq<int>)
    requires StrictlyAscending(s) && x !in s
    ensures StrictlyAscending(Insert(x, s))
  {
    if s != [] && x > s[0] {
      var tail := s[1..];
      assert x !in tail;
      InsertStrictlyAscending(x, tail);
      var t := Insert(x, tail);
      forall k | 0 <= k < |t|
        ensures s[0] < t[k]
      {
        InsertElement(x, tail, k);
      }
      assert Insert(x, s) == [s[0]] + t;
    }
  }

  /** The comparator sort of the line indices, ascending (an insertion sort as a specification). */
  function SortAscending(s: seq<int>): (r: seq<int>)
    ensures |r| == |s| && multiset(r) == multiset(s)
  {
    if s == [] then []
    else
      assert s == [s[0]] + s[1..];
      Insert(s[0], SortAscending(s[1..]))
  }

  predicate Distinct(s: seq<int>)
  {
    forall i, j :: 0 <= i < j < |s| ==> s[i] != s[j]
  }

  /** The sort is a permutation in ascending order, strictly so for distinct input. */
  lemma {:induction false} SortAscendingSorted(s: seq<int>)
    ensures Ascending(SortAscending(s))
    ensures Distinct(s) ==> StrictlyAscending(SortAscending(s))
  {
    if s != [] {
      SortAscendingSorted(s[1..]);
      var t := SortAscending(s[1..]);
      InsertAscending(s[0], t);
      if Distinct(s) {
        assert Distinct(s[1..]);
        assert s[0] !in s[1..];
        assert s[0] !in multiset(t);
        InsertStrictlyAscending(s[0], t);
      }
    }
  }

  function Reverse(s: seq<int>): (r: seq<int>)
    ensures |r| == |s| && forall i :: 0 <= i < |s| ==> r[i] == s[|s| - 1 - i]
  {
    if s == [] then [] else Reverse(s[1..]) + [s[0]]
  }

  /** `sort((a, b) => b - a)`: the descending order. */
  function SortDescending(s: seq<int>): (r: seq<int>)
    ensures |r| == |s| && multiset(r) == multiset(s)
  {
    var a := SortAscending(s);
    var r := Reverse(a);
    assert multiset(r) == multiset(a) by {
      ReverseMultiset(a);
    }
    r
  }

  lemma {:induction false} ReverseMultiset(s: seq<int>)
    ensures multiset(Reverse(s)) == multiset(s)
  {
    if s != [] {
      ReverseMultiset(s[1..]);
      assert s == [s[0]] + s[1..];
    }
  }

  lemma SortDescendingSorted(s: seq<int>)
    ensures forall i, j :: 0 <= i < j < |s| ==> SortDescending(s)[i] >= SortDescending(s)[j]
  {
    SortAscendingSorted(s);
  }

  predicate IndicesInRange(ys: seq<int>)
  {
    forall i :: 0 <= i < |ys| ==> 0 <= ys[i] < Rows
  }

  lemma SortedIndicesInRange(ys: seq<int>)
    requires IndicesInRange(ys)
    ensures IndicesInRange(SortAscending(ys)) && IndicesInRange(SortDescending(ys))
  {
    var a := SortAscending(ys);
    forall i | 0 <= i < |a| ensures 0 <= a[i] < Rows {
      assert a[i] in multiset(ys);
    }
    var d := SortDescending(ys);
    forall i | 0 <= i < |d| ensures 0 <= d[i] < Rows {
      assert d[i] in multiset(ys);
    }
  }

  /** The `forEach` over the sorted indices: one splice-and-unshift per index, in order. */
  method SpliceEach(board: array<seq<int>>, order: seq<int>)
    requires forall i :: 0 <= i < |order| ==> 0 <= order[i] < board.Length
    modifies board
    ensures board[..] == SpliceAll(old(board[..]), order)
  {
    ghost var g := board[..];
    var k := 0;
    while k < |order|
      invariant 0 <= k <= |order|
      invariant board[..] == SpliceAll(g, order[..k])
    {
      assert order[..k + 1][..k] == order[..k];
      SpliceUnshiftInPlace(board, order[k]);
      k := k + 1;
    }
    assert order[..k] == order;
  }

  /**
   * `clearLines` as written: the indices are sorted in descending order and each
   * is spliced out with an empty row put on top. Returns the number of indices.
   */
  /** The board `clearLines` leaves as written: the listed rows spliced out in descending order. */
  function ClearedAsWritten(g: Grid, ys: seq<int>): (r: Grid)
    requires WellFormed(g) && IndicesInRange(ys)
    ensures WellFormed(r) && IndicesInRange(SortDescending(ys))
  {
    SortedIndicesInRange(ys);
    SpliceAllWellFormed(g, SortDescending(ys));
    SpliceAll(g, SortDescending(ys))
  }

  method ClearLinesAsWritten(board: array<seq<int>>, linesToClear: seq<int>) returns (linesCleared: nat)
    requires WellFormed(board[..]) && IndicesInRange(linesToClear)
    modifies board
    ensures linesCleared == |linesToClear|
    ensures WellFormed(board[..]) && IndicesInRange(SortDescending(linesToClear))
    ensures board[..] == SpliceAll(old(board[..]), SortDescending(linesToClear))
    ensures board[..] == ClearedAsWritten(old(board[..]), linesToClear)
  {
    ghost var g := board[..];
    linesCleared := 0;
    SortedIndicesInRange(linesToClear);
    if |linesToClear| > 0 {
      var order := SortDescending(linesToClear);
      SpliceEach(board, order);
      linesCleared := |linesToClear|;
    }
    SpliceAllWellFormed(g, SortDescending(linesToClear));
  }

  /** Two distinct indices sorted in descending order. */
  lemma SortPair(a: int, b: int)
    requires a > b
    ensures SortDescending([a, b]) == [a, b]
  {
    assert [a, b][1..] == [b] && [b][1..] == [];
    assert SortAscending([b]) == [b];
    assert Insert(a, [b]) == [b] + Insert(a, []);
    assert SortAscending([a, b]) == [b, a];
  }

  /**
   * The descending order goes wrong as soon as two adjacent rows are full:
   * after the lower one is removed the upper one has moved down into its place,
   * and the second splice removes the row above it instead.
   */
  lemma DescendingClearLeavesFullRow(g: Grid, y: int)
    requires WellFormed(g) && 1 <= y < Rows
    requires RowFull(g[y]) && RowFull(g[y - 1])
    ensures SortDescending([y, y - 1]) == [y, y - 1]
    ensures SpliceAll(g, [y, y - 1])[y] == g[y - 1]
    ensures RowFull(SpliceAll(g, [y, y - 1])[y])
  {
    SortPair(y, y - 1);
    SpliceAllPair(g, y, y - 1);
    var h := SpliceUnshift(g, y);
    SpliceUnshiftRow(g, y, y);
    SpliceUnshiftRow(h, y - 1, y);
  }

  /** Two removals in the order given. */
  lemma SpliceAllPair(g: Grid, a: int, b: int)
    requires 0 <= a < |g| && 0 <= b < |g|
    ensures SpliceAll(g, [a, b]) == SpliceUnshift(SpliceUnshift(g, a), b)
  {
    SpliceAllSingle(g, a);
    SpliceAllSecond(g, a, b);
  }

  /** One unfolding of `SpliceAll`: the last index is removed last. */
  lemma SpliceAllLast(g: Grid, ys: seq<int>)
    requires |ys| > 0 && forall i :: 0 <= i < |ys| ==> 0 <= ys[i] < |g|
    ensures SpliceAll(g, ys) == SpliceUnshift(SpliceAll(g, ys[..|ys| - 1]), ys[|ys| - 1])
  {
  }

  lemma SpliceAllSingle(g: Grid, a: int)
    requires 0 <= a < |g|
    ensures SpliceAll(g, [a]) == SpliceUnshift(g, a)
  {
    SpliceAllLast(g, [a]);
    assert [a][..0] == [];
  }

  lemma SpliceAllSecond(g: Grid, a: int, b: int)
    requires 0 <= a < |g| && 0 <= b < |g|
    ensures SpliceAll(g, [a, b]) == SpliceUnshift(SpliceAll(g, [a]), b)
  {
    var ys := [a, b];
    SpliceAllLast(g, ys);
    assert ys[..1] == [a];
  }

  /** Row k after `SpliceUnshift(g, y)`: empty on top, shifted down to row y, unchanged below. */
  lemma SpliceUnshiftRow(g: Grid, y: int, k: int)
    requires 0 <= y < |g| && 0 <= k < |g|
    ensures SpliceUnshift(g, y)[k] == if k == 0 then EmptyRow() else if k <= y then g[k - 1] else g[k]
  {
  }

  /** `count` empty rows. */
  function Empties(count: nat): (r: Grid)
    ensures |r| == count && forall i :: 0 <= i < count ==> r[i] == EmptyRow()
  {
    if count == 0 then [] else [EmptyRow()] + Empties(count - 1)
  }

  /**
   * The rows of `g` whose indices are not in the strictly ascending `ys`, in
   * their original order.
   */
  function Survivors(g: Grid, ys: seq<int>): (r: Grid)
    requires StrictlyAscending(ys) && forall i :: 0 <= i < |ys| ==> 0 <= ys[i] < |g|
    ensures |r| == |g| - |ys|
    decreases |ys|
  {
    if ys == [] then g
    else
      var a := ys[|ys| - 1];
      SurvivorsBound(ys);
      Survivors(g[..a], ys[..|ys| - 1]) + g[a + 1..]
  }

  /** In a strictly ascending sequence of non-negative indices, the last one is at least the length minus one. */
  lemma {:induction false} SurvivorsBound(ys: seq<int>)
    requires StrictlyAscending(ys) && |ys| > 0 && forall i :: 0 <= i < |ys| ==> ys[i] >= 0
    ensures ys[|ys| - 1] >= |ys| - 1
    ensures forall i :: 0 <= i < |ys| - 1 ==> ys[i] < ys[|ys| - 1]
  {
    if |ys| > 1 {
      SurvivorsBound(ys[..|ys| - 1]);
    }
  }

  /** Rows at and beyond `m` are untouched when every removed index is below `m`. */
  lemma {:induction false} SurvivorsSplit(g: Grid, ys: seq<int>, m: int)
    requires StrictlyAscending(ys) && forall i :: 0 <= i < |ys| ==> 0 <= ys[i] < m
    requires 0 <= m <= |g|
    ensures Survivors(g, ys) == Survivors(g[..m], ys) + g[m..]
  {
    if ys == [] {
      assert g == g[..m] + g[m..];
    } else {
      var a := ys[|ys| - 1];
      var front := ys[..|ys| - 1];
      SurvivorsBound(ys);
      var gm := g[..m];
      assert gm[..a] == g[..a];
      assert g[a + 1..] == gm[a + 1..] + g[m..];
      var s := Survivors(g[..a], front);
      assert Survivors(g, ys) == s + g[a + 1..];
      assert Survivors(gm, ys) == s + gm[a + 1..];
    }
  }

  /** Every surviving row is a row of `g` at an index that was not removed. */
  lemma {:induction false} SurvivorsAreKept(g: Grid, ys: seq<int>, r: int)
    requires StrictlyAscending(ys) && forall i :: 0 <= i < |ys| ==> 0 <= ys[i] < |g|
    requires 0 <= r < |Survivors(g, ys)|
    ensures exists i :: 0 <= i < |g| && i !in ys && Survivors(g, ys)[r] == g[i]
    decreases |ys|
  {
    if ys == [] {
      assert r !in ys && Survivors(g, ys)[r] == g[r];
    } else {
      var a := ys[|ys| - 1];
      var front := ys[..|ys| - 1];
      SurvivorsBound(ys);
      var s := Survivors(g[..a], front);
      if r < |s| {
        SurvivorsAreKept(g[..a], front, r);
        var i :| 0 <= i < a && i !in front && s[r] == g[..a][i];
        assert i != a && i !in ys;
        assert Survivors(g, ys)[r] == g[i];
      } else {
        var i := a + 1 + (r - |s|);
        assert i !in ys;
        assert Survivors(g, ys)[r] == g[i];
      }
    }
  }

  /** Splicing out the first row of `rest` from `e + (s + rest)` puts one more empty row on top. */
  lemma SpliceAtBoundary(e: Grid, s: Grid, rest: Grid)
    requires |rest| > 0
    ensures SpliceUnshift(e + (s + rest), |e| + |s|) == ([EmptyRow()] + e) + (s + rest[1..])
  {
    var p := e + s;
    assert e + (s + rest) == p + rest;
    assert (p + rest)[..|p|] == p;
    assert (p + rest)[|p| + 1..] == rest[1..];
    assert [EmptyRow()] + p + rest[1..] == ([EmptyRow()] + e) + (s + rest[1..]);
  }

  /** Removing in ascending order: `ys` strictly ascending, every removal hits the intended row. */
  lemma {:induction false} AscendingSplices(g: Grid, ys: seq<int>)
    requires StrictlyAscending(ys) && forall i :: 0 <= i < |ys| ==> 0 <= ys[i] < |g|
    ensures SpliceAll(g, ys) == Empties(|ys|) + Survivors(g, ys)
    decreases |ys|
  {
    if ys != [] {
      var a := ys[|ys| - 1];
      var front := ys[..|ys| - 1];
      SurvivorsBound(ys);
      AscendingSplices(g, front);
      AscendingFront(g, ys);
      var e := Empties(|front|);
      var s := Survivors(g[..a], front);
      calc {
        SpliceAll(g, ys);
        { SpliceAllLast(g, ys); }
        SpliceUnshift(e + (s + g[a..]), |e| + |s|);
        { SpliceAtBoundary(e, s, g[a..]); }
        ([EmptyRow()] + e) + (s + g[a..][1..]);
        { assert g[a..][1..] == g[a + 1..]; }
        ([EmptyRow()] + e) + (s + g[a + 1..]);
        { assert Survivors(g, ys) == s + g[a + 1..]; }
        Empties(|ys|) + Survivors(g, ys);
      }
    }
  }

  /** Before the last removal `a`, the rows from `a` on are still in place and exactly `a` rows lie above them. */
  lemma AscendingFront(g: Grid, ys: seq<int>)
    requires StrictlyAscending(ys) && forall i :: 0 <= i < |ys| ==> 0 <= ys[i] < |g|
    requires |ys| > 0
    requires SpliceAll(g, ys[..|ys| - 1]) == Empties(|ys| - 1) + Survivors(g, ys[..|ys| - 1])
    ensures var a, front := ys[|ys| - 1], ys[..|ys| - 1];
      0 <= |front| <= a &&
      SpliceAll(g, front) == Empties(|front|) + (Survivors(g[..a], front) + g[a..]) &&
      |Empties(|front|)| + |Survivors(g[..a], front)| == a
  {
    var a := ys[|ys| - 1];
    var front := ys[..|ys| - 1];
    SurvivorsBound(ys);
    SurvivorsSplit(g, front, a);
  }

  /**
   * Removing the distinct rows `ys` from a ROWS x COLS board and stacking the
   * others below one empty row per removed index gives a ROWS x COLS board
   * whose lower rows are all rows of `g` that were not removed.
   */
  lemma ClearedRowsKept(g: Grid, ys: seq<int>)
    requires WellFormed(g) && IndicesInRange(ys) && Distinct(ys)
    ensures StrictlyAscending(SortAscending(ys)) && IndicesInRange(SortAscending(ys))
    ensures |ys| <= Rows && |Empties(|ys|) + Survivors(g, SortAscending(ys))| == Rows
    ensures forall y :: |ys| <= y < Rows ==> RowKept(g, ys, (Empties(|ys|) + Survivors(g, SortAscending(ys)))[y])
  {
    var order := SortAscending(ys);
    SortAscendingSorted(ys);
    SortedIndicesInRange(ys);
    assert |order| == |ys| && multiset(order) == multiset(ys);
    assert |Survivors(g, order)| == Rows - |ys|;
    forall i | i in ys
      ensures i in order
    {
      assert i in multiset(ys);
    }
    KeptRows(g, order, ys);
  }

  lemma KeptRows(g: Grid, order: seq<int>, ys: seq<int>)
    requires WellFormed(g) && StrictlyAscending(order) && forall i :: 0 <= i < |order| ==> 0 <= order[i] < |g|
    requires |order| == |ys| && forall i :: i in ys ==> i in order
    ensures forall y :: |ys| <= y < Rows ==> RowKept(g, ys, (Empties(|ys|) + Survivors(g, order))[y])
  {
    forall y | |ys| <= y < Rows
      ensures RowKept(g, ys, (Empties(|ys|) + Survivors(g, order))[y])
    {
      KeptRowNotListed(g, order, ys, y);
    }
  }

  /** `row` is a row of `g` whose index is not in `ys`. */
  predicate RowKept(g: Grid, ys: seq<int>, row: seq<int>)
  {
    exists i :: 0 <= i < |g| && i !in ys && row == g[i]
  }

  /** A surviving row is a row of `g` whose index is not among the removed ones, in whatever order they were listed. */
  lemma KeptRowNotListed(g: Grid, order: seq<int>, ys: seq<int>, y: int)
    requires WellFormed(g) && StrictlyAscending(order) && forall i :: 0 <= i < |order| ==> 0 <= order[i] < |g|
    requires |order| == |ys| && forall i :: i in ys ==> i in order
    requires |ys| <= y < Rows
    ensures RowKept(g, ys, (Empties(|ys|) + Survivors(g, order))[y])
  {
    var k := y - |ys|;
    var s := Survivors(g, order);
    assert (Empties(|ys|) + s)[y] == s[k];
    SurvivorsAreKept(g, order, k);
    var i :| 0 <= i < |g| && i !in order && s[k] == g[i];
    assert i !in ys;
  }

  /**
   * The board `clearLines` is meant to leave: one empty row on top for every
   * removed index, then the rows not removed. Every listed row is gone and every
   * other row is still there.
   */
  function Cleared(g: Grid, ys: seq<int>): (r: Grid)
    requires WellFormed(g) && IndicesInRange(ys) && Distinct(ys)
    ensures WellFormed(r) && |ys| <= Rows
    ensures forall y :: 0 <= y < |ys| ==> r[y] == EmptyRow()
    ensures forall y :: |ys| <= y < Rows ==> RowKept(g, ys, r[y])
  {
    ClearedRowsKept(g, ys);
    Empties(|ys|) + Survivors(g, SortAscending(ys))
  }

  /** Clearing no row leaves the board as it was. */
  lemma ClearedNothing(g: Grid)
    requires WellFormed(g)
    ensures Cleared(g, []) == g
  {
    assert SortAscending([]) == [];
    assert Empties(0) + Survivors(g, []) == g;
  }

  /**
   * `clearLines` with the indices taken in ascending order (the intended
   * behaviour): every listed row is removed, the other rows keep their order and
   * sink below one empty row per removed index.
   */
  method ClearLines(board: array<seq<int>>, linesToClear: seq<int>) returns (linesCleared: nat)
    requires WellFormed(board[..]) && IndicesInRange(linesToClear) && Distinct(linesToClear)
    modifies board
    ensures linesCleared == |linesToClear|
    ensures board[..] == Cleared(old(board[..]), linesToClear)
  {
    ghost var g := board[..];
    var order := SortAscending(linesToClear);
    SortAscendingSorted(linesToClear);
    SortedIndicesInRange(linesToClear);
    SpliceEach(board, order);
    AscendingSplices(g, order);
    linesCleared := |linesToClear|;
  }

  /**
   * With at most one row to remove the order of the splices does not matter:
   * the clear as written is the intended one.
   */
  lemma SingleClearAsIntended(g: Grid, ys: seq<int>)
    requires WellFormed(g) && IndicesInRange(ys) && |ys| <= 1
    ensures Distinct(ys)
    ensures ClearedAsWritten(g, ys) == Cleared(g, ys)
  {
    if ys == [] {
      assert SortAscending([]) == [];
      ClearedNothing(g);
    } else {
      var y := ys[0];
      assert ys == [y];
      assert [y][1..] == [];
      assert SortAscending(ys) == [y];
      assert SortDescending(ys) == [y];
      AscendingSplices(g, [y]);
    }
  }

  /**
   * Clearing every full row (in the intended order) leaves a board with no full
   * row.
   */
  lemma ClearedBoardHasNoFullRow(g: Grid, ys: seq<int>)
    requires WellFormed(g) && IndicesInRange(ys) && Distinct(ys)
    requires forall y :: 0 <= y < Rows && RowFull(g[y]) ==> y in ys
    ensures forall y :: 0 <= y < Rows ==> !RowFull(Cleared(g, ys)[y])
  {
    var r := Cleared(g, ys);
    forall y | 0 <= y < Rows
      ensures !RowFull(r[y])
    {
      if y < |ys| {
        assert r[y][0] == 0;
      } else {
        assert RowKept(g, ys, r[y]);
        var i :| 0 <= i < |g| && i !in ys && r[y] == g[i];
      }
    }
  }

  // ---------------------------------------------------------------------
  // Metrics

  datatype Metrics = Metrics(
    heights: seq<int>,
    holes: seq<int>,
    totalHoles: int,
    maxHeight: int,
    aggregateHeight: int,
    bumpiness: int)

  /** The first row among 0..n-1 whose cell in column x is filled, or -1. */
  function FirstFilled(g: Grid, x: int, n: int): (f: int)
    requires WellFormed(g) && 0 <= x < Cols && 0 <= n <= Rows
    ensures -1 <= f < n
    ensures f >= 0 ==> g[f][x] != 0 && forall y :: 0 <= y < f ==> g[y][x] == 0
    ensures f == -1 ==> forall y :: 0 <= y < n ==> g[y][x] == 0
  {
    if n == 0 then -1
    else
      var f := FirstFilled(g, x, n - 1);
      if f >= 0 then f else if g[n - 1][x] != 0 then n - 1 else -1
  }

  /** The empty cells in column x among rows 0..n-1 that lie below a filled one. */
  function HolesIn(g: Grid, x: int, n: int): (h: int)
    requires WellFormed(g) && 0 <= x < Cols && 0 <= n <= Rows
    ensures 0 <= h <= n
    ensures FirstFilled(g, x, n) >= 0 ==> h <= n - 1 - FirstFilled(g, x, n)
    ensures FirstFilled(g, x, n) == -1 ==> h == 0
  {
    if n == 0 then 0
    else HolesIn(g, x, n - 1) + (if g[n - 1][x] == 0 && FirstFilled(g, x, n - 1) >= 0 then 1 else 0)
  }

  /** ROWS minus the topmost filled row of column x, or 0 for an empty column. */
  function Height(g: Grid, x: int): (h: int)
    requires WellFormed(g) && 0 <= x < Cols
    ensures 0 <= h <= Rows
    ensures h == 0 <==> forall y :: 0 <= y < Rows ==> g[y][x] == 0
    ensures h > 0 ==> g[Rows - h][x] != 0 && forall y :: 0 <= y < Rows - h ==> g[y][x] == 0
  {
    var f := FirstFilled(g, x, |g|);
    if f < 0 then 0 else Rows - f
  }

  /** `sum |heights[x] - heights[x+1]|` for x < n - 1. */
  function Bumpiness(h: seq<int>, n: int): (b: int)
    requires 0 <= n <= |h|
    ensures b >= 0
  {
    if n <= 1 then 0
    else Bumpiness(h, n - 1) + (if h[n - 2] >= h[n - 1] then h[n - 2] - h[n - 1] else h[n - 1] - h[n - 2])
  }

  function ColumnHeights(g: Grid): (h: seq<int>)
    requires WellFormed(g)
    ensures |h| == Cols && forall x :: 0 <= x < Cols ==> h[x] == Height(g, x)
  {
    seq(Cols, x requires 0 <= x < Cols => Height(g, x))
  }

  function ColumnHoles(g: Grid): (h: seq<int>)
    requires WellFormed(g)
    ensures |h| == Cols && forall x :: 0 <= x < Cols ==> h[x] == HolesIn(g, x, |g|)
  {
    seq(Cols, x requires 0 <= x < Cols => HolesIn(g, x, |g|))
  }

  /** The totals `computeMetrics` derives from the per-column heights and holes. */
  function Summary(heights: seq<int>, holes: seq<int>): (m: Metrics)
    requires |heights| == Cols
  {
    Metrics(heights, holes, Common.Sum(holes), Common.MaxFromZero(heights),
            Common.Sum(heights), Bumpiness(heights, |heights|))
  }

  /** The metrics of a board. */
  function MetricsOf(g: Grid): (m: Metrics)
    requires WellFormed(g)
    ensures |m.heights| == Cols && |m.holes| == Cols
  {
    Summary(ColumnHeights(g), ColumnHoles(g))
  }

  /** The inner loop of `computeMetrics`: scans column x from the top, tracking `seenBlock`. */
  method ScanColumn(board: array<seq<int>>, x: int) returns (columnHeight: int, holes: int)
    requires WellFormed(board[..]) && 0 <= x < Cols
    ensures columnHeight == Height(board[..], x) && holes == HolesIn(board[..], x, board.Length)
  {
    ghost var g := board[..];
    var seenBlock := false;
    columnHeight, holes := 0, 0;
    var y := 0;
    while y < Rows
      invariant 0 <= y <= Rows
      invariant seenBlock <==> FirstFilled(g, x, y) >= 0
      invariant columnHeight == if seenBlock then Rows - FirstFilled(g, x, y) else 0
      invariant holes == HolesIn(g, x, y)
    {
      if board[y][x] != 0 {
        if !seenBlock {
          columnHeight := Rows - y;
          seenBlock := true;
        }
      } else if seenBlock {
        holes := holes + 1;
      }
      y := y + 1;
    }
  }

  /** The outer loop of `computeMetrics`: one scan per column. */
  method ScanColumns(board: array<seq<int>>) returns (heights: seq<int>, holes: seq<int>)
    requires WellFormed(board[..])
    ensures heights == ColumnHeights(board[..]) && holes == ColumnHoles(board[..])
  {
    heights := seq(Cols, _ => 0);
    holes := seq(Cols, _ => 0);
    var x := 0;
    while x < Cols
      invariant 0 <= x <= Cols && |heights| == Cols && |holes| == Cols
      invariant forall c :: 0 <= c < x ==> heights[c] == Height(board[..], c) && holes[c] == HolesIn(board[..], c, board.Length)
    {
      var h, n := ScanColumn(board, x);
      heights := heights[x := h];
      holes := holes[x := n];
      x := x + 1;
    }
  }

  /** The bumpiness loop of `computeMetrics`. */
  method SumBumpiness(heights: seq<int>) returns (bumpiness: int)
    ensures bumpiness == Bumpiness(heights, |heights|)
  {
    bumpiness := 0;
    if |heights| == 0 {
      return;
    }
    var x := 0;
    while x < |heights| - 1
      invariant 0 <= x <= |heights| - 1
      invariant bumpiness == Bumpiness(heights, x + 1)
    {
      bumpiness := bumpiness + if heights[x] >= heights[x + 1] then heights[x] - heights[x + 1] else heights[x + 1] - heights[x];
      x := x + 1;
    }
  }

  /** `computeMetrics`: the column scans, then the totals. */
  method ComputeMetrics(board: array<seq<int>>) returns (m: Metrics)
    requires WellFormed(board[..])
    ensures m == MetricsOf(board[..])
  {
    var heights, holes := ScanColumns(board);
    var totalHoles := Common.Sum(holes);
    var maxHeight := Common.MaxFromZero(heights);
    var aggregateHeight := Common.Sum(heights);
    var bumpiness := SumBumpiness(heights);
    m := Metrics(heights, holes, totalHoles, maxHeight, aggregateHeight, bumpiness);
  }

  /**
   * Bounds of the metrics: each height in [0, ROWS], holes of a column at most its
   * height, totals non-negative, maxHeight an upper bound that some column attains
   * (or 0).
   */
  lemma MetricsBounds(g: Grid)
    requires WellFormed(g)
    ensures var m := MetricsOf(g);
      (forall x :: 0 <= x < Cols ==> 0 <= m.heights[x] <= Rows && 0 <= m.holes[x] <= m.heights[x]) &&
      m.totalHoles >= 0 && m.aggregateHeight >= 0 && m.bumpiness >= 0 &&
      (forall x :: 0 <= x < Cols ==> m.heights[x] <= m.maxHeight) &&
      0 <= m.maxHeight <= Rows
  {
    var m := MetricsOf(g);
    forall x | 0 <= x < Cols
      ensures 0 <= m.holes[x] <= m.heights[x] && m.heights[x] >= 0 && m.holes[x] >= 0
    {
    }
    Common.SumNonNegative(m.holes);
    Common.SumNonNegative(m.heights);
  }

  /** The empty board has all-zero metrics. */
  lemma EmptyBoardMetrics()
    ensures var m := MetricsOf(EmptyGrid());
      (forall x :: 0 <= x < Cols ==> m.heights[x] == 0 && m.holes[x] == 0) &&
      m.totalHoles == 0 && m.maxHeight == 0 && m.aggregateHeight == 0 && m.bumpiness == 0
  {
    var g := EmptyGrid();
    var m := MetricsOf(g);
    forall x | 0 <= x < Cols
      ensures m.heights[x] == 0 && m.holes[x] == 0
    {
    }
    Common.SumAllZero(m.holes);
    Common.SumAllZero(m.heights);
    BumpinessFlat(m.heights, Cols);
  }

  lemma {:induction false} BumpinessFlat(h: seq<int>, n: int)
    requires 0 <= n <= |h| && forall i :: 0 <= i < |h| ==> h[i] == 0
    ensures Bumpiness(h, n) == 0
  {
    if n > 1 {
      BumpinessFlat(h, n - 1);
    }
  }
}
