/**
 * The stand-alone game (tetris.js): an earlier, self-contained version of the
 * game that keeps its state in closure variables. It has its own collision
 * check and merge (the same rules as the board module), the only wall-kick
 * rotation, hard-drop scoring, a line clear that rescans the same row after
 * every removal, the high score, spawning and game over, the frame update and
 * pause.
 *
 * The closure variables are the fields of `Game`. The random template choice
 * of `getRandomPiece` arrives as a template index; the animation-frame handle,
 * the time source and all drawing are not part of this model.
 */
module Classic {
  import opened Common
  import Board
  import Pieces
  import Scoring

  type Grid = Board.Grid

  // ---------------------------------------------------------------------
  // Line clear by rescanning

  /** The rows of `g` that are not full, from the top down. */
  function KeptRows(g: Grid): (r: Grid)
    ensures |r| <= |g|
    ensures forall i :: 0 <= i < |r| ==> !Board.RowFull(r[i])
    ensures (forall i :: 0 <= i < |g| ==> |g[i]| == Board.Cols) ==> forall i :: 0 <= i < |r| ==> |r[i]| == Board.Cols
  {
    if |g| == 0 then []
    else (if Board.RowFull(g[0]) then [] else [g[0]]) + KeptRows(g[1..])
  }

  /** How many rows of `g` are full. */
  function FullCount(g: Grid): (n: nat)
    ensures n + |KeptRows(g)| == |g|
  {
    if |g| == 0 then 0
    else (if Board.RowFull(g[0]) then 1 else 0) + FullCount(g[1..])
  }

  /** No row of the board is full. */
  predicate NoFullRow(g: Grid)
  {
    forall y :: 0 <= y < |g| ==> !Board.RowFull(g[y])
  }

  /**
   * The board the rescan leaves: one empty row per full row, on top of the
   * rows that were not full, in their original order. It is a ROWS x COLS
   * board with no full row.
   */
  function Compacted(g: Grid): (r: Grid)
    requires Board.WellFormed(g)
    ensures Board.WellFormed(r)
    ensures NoFullRow(r)
  {
    var r := Board.Empties(FullCount(g)) + KeptRows(g);
    forall y | 0 <= y < |r|
      ensures |r[y]| == Board.Cols && !Board.RowFull(r[y])
    {
      if y < FullCount(g) {
        assert r[y][0] == 0;
      } else {
        assert r[y] == KeptRows(g)[y - FullCount(g)];
      }
    }
    r
  }

  /** Peeling row k-1 off the part of the board still to be scanned. */
  lemma KeptRowsStep(g: Grid, k: int)
    requires 0 < k <= |g|
    ensures KeptRows(g[k - 1..]) == (if Board.RowFull(g[k - 1]) then [] else [g[k - 1]]) + KeptRows(g[k..])
    ensures FullCount(g[k - 1..]) == (if Board.RowFull(g[k - 1]) then 1 else 0) + FullCount(g[k..])
  {
    assert g[k - 1..][1..] == g[k..];
  }

  /** Rows above the `count` empty rows on top of the board are not full. */
  lemma {:induction false} EmptyTopNotFull(b: Grid, count: nat, rest: Grid, y: int)
    requires b == Board.Empties(count) + rest && 0 <= y < count
    ensures b[y] == Board.EmptyRow() && !Board.RowFull(b[y])
  {
    assert b[y][0] == 0;
  }

  /**
   * The labelled loop of `clearLines`: from the bottom row up, a full row is
   * spliced out, an empty row is put on top, and the same index is checked
   * again (`y++` before the loop's `y--`). The result is the compacted board
   * and the number of full rows.
   */
  method RemoveFullRows(board: array<seq<int>>) returns (linesCleared: nat)
    requires Board.WellFormed(board[..])
    modifies board
    ensures board[..] == Compacted(old(board[..]))
    ensures linesCleared == FullCount(old(board[..]))
  {
    ghost var g := board[..];
    // rows g[..k] are not scanned yet; the rows of g[k..] that were not full sit below them
    ghost var k := Board.Rows;
    linesCleared := 0;
    var y := Board.Rows - 1;
    RescanStart(g);
    while y >= 0
      invariant Rescan(g, k, linesCleared, y, board[..])
      decreases y + k + 1
    {
      var full := Board.ScanRow(board[y]);
      if full {
        RescanRemove(g, k, linesCleared, y, board[..]);
        Board.SpliceUnshiftInPlace(board, y);
        linesCleared := linesCleared + 1;
        k := k - 1;
      } else {
        RescanKeep(g, k, linesCleared, y, board[..]);
        if k > 0 {
          k := k - 1;
        }
        y := y - 1;
      }
    }
    ScannedAll(g, linesCleared, board[..]);
  }

  /**
   * The loop state of the rescan: the board is well formed and `Scanned`;
   * while rows remain unscanned, `y` is the index of the last of them, and
   * after that `y` runs through the empty rows on top.
   */
  ghost predicate Rescan(g: Grid, k: int, count: nat, y: int, b: Grid)
  {
    0 <= k <= |g| && -1 <= y < Board.Rows && Board.WellFormed(b) && Scanned(g, k, count, b) &&
    (k > 0 ==> y == count + k - 1) && (k == 0 ==> y < count)
  }

  lemma RescanStart(g: Grid)
    requires Board.WellFormed(g)
    ensures Rescan(g, Board.Rows, 0, Board.Rows - 1, g)
  {
    assert g[..Board.Rows] == g && g[Board.Rows..] == [];
  }

  /**
   * The state of the rescan: `count` empty rows on top, then the rows g[..k]
   * not scanned yet, then the rows of g[k..] that were not full.
   */
  ghost predicate Scanned(g: Grid, k: int, count: nat, b: Grid)
    requires 0 <= k <= |g|
  {
    count == FullCount(g[k..]) && b == Board.Empties(count) + g[..k] + KeptRows(g[k..])
  }

  /** Once every row is scanned, the board is the compacted board. */
  lemma {:induction false} ScannedAll(g: Grid, count: nat, b: Grid)
    requires Board.WellFormed(g) && Rescan(g, 0, count, -1, b)
    ensures b == Compacted(g) && count == FullCount(g)
  {
    assert g[..0] == [] && g[0..] == g;
  }

  /** While rows remain unscanned, the row at `y` is the last of them. */
  lemma ScannedRow(g: Grid, k: int, count: nat, b: Grid)
    requires 0 < k <= |g| && Scanned(g, k, count, b)
    ensures count + k - 1 < |b| && b[count + k - 1] == g[k - 1]
  {
    assert (Board.Empties(count) + g[..k])[count + k - 1] == g[k - 1];
  }

  /** Once every row is scanned, `y` is on one of the empty rows on top. */
  lemma ScannedTop(g: Grid, count: nat, y: int, b: Grid)
    requires Rescan(g, 0, count, y, b) && 0 <= y
    ensures !Board.RowFull(b[y])
  {
    EmptyTopNotFull(b, count, g[..0] + KeptRows(g[0..]), y);
  }

  /** Removing a full row at `y` keeps the rescan state, with one row fewer to scan and `y` where it is. */
  lemma RescanRemove(g: Grid, k: int, count: nat, y: int, b: Grid)
    requires Rescan(g, k, count, y, b) && 0 <= y && Board.RowFull(b[y])
    ensures 0 < k && Rescan(g, k - 1, count + 1, y, Board.SpliceUnshift(b, y))
  {
    if k == 0 {
      ScannedTop(g, count, y, b);
    }
    assert Board.RowFull(g[k - 1]) by {
      ScannedRow(g, k, count, b);
    }
    Board.SingleRowRemoval(b, y);
    RemoveScanned(g, k, count, b);
  }

  /** The board part of `RescanRemove`. */
  lemma RemoveScanned(g: Grid, k: int, count: nat, b: Grid)
    requires 0 < k <= |g| && Scanned(g, k, count, b) && Board.RowFull(g[k - 1])
    ensures count + k - 1 < |b|
    ensures Scanned(g, k - 1, count + 1, Board.SpliceUnshift(b, count + k - 1))
  {
    KeptRowsStep(g, k);
    SplitScanned(g, k, count, b);
    SpliceEmpties(b, count, g[..k - 1], g[k - 1], KeptRows(g[k..]));
  }

  /** The scanned board with the last unscanned row singled out. */
  lemma {:induction false} SplitScanned(g: Grid, k: int, count: nat, b: Grid)
    requires 0 < k <= |g| && b == Board.Empties(count) + g[..k] + KeptRows(g[k..])
    ensures b == Board.Empties(count) + g[..k - 1] + [g[k - 1]] + KeptRows(g[k..])
  {
    assert g[..k] == g[..k - 1] + [g[k - 1]];
  }

  /** Removing the row after the empty rows and `front` adds one empty row on top. */
  lemma {:induction false} SpliceEmpties(b: Grid, count: nat, front: Grid, x: seq<int>, rest: Grid)
    requires b == Board.Empties(count) + front + [x] + rest
    ensures count + |front| < |b|
    ensures Board.SpliceUnshift(b, count + |front|) == Board.Empties(count + 1) + front + rest
  {
    SpliceAt(b, Board.Empties(count), front, x, rest);
    assert Board.Empties(count + 1) == [Board.EmptyRow()] + Board.Empties(count);
  }

  /** `SpliceUnshift` at the position of `x` drops `x` and puts an empty row on top. */
  lemma SpliceAt(b: Grid, top: Grid, front: Grid, x: seq<int>, rest: Grid)
    requires b == top + front + [x] + rest
    ensures Board.SpliceUnshift(b, |top| + |front|) == [Board.EmptyRow()] + top + front + rest
  {
    assert b[..|top| + |front|] == top + front;
    assert b[|top| + |front| + 1..] == rest;
  }

  /** Passing a row that is not full keeps the rescan state, with `y` one row up. */
  lemma RescanKeep(g: Grid, k: int, count: nat, y: int, b: Grid)
    requires Rescan(g, k, count, y, b) && 0 <= y && !Board.RowFull(b[y])
    ensures Rescan(g, if k > 0 then k - 1 else 0, count, y - 1, b)
  {
    if k > 0 {
      ScannedRow(g, k, count, b);
      KeptRowsStep(g, k);
      var front, rest := g[..k - 1], KeptRows(g[k..]);
      assert g[..k] == front + [g[k - 1]];
      MoveAcross(Board.Empties(count), front, g[k - 1], rest);
    }
  }

  /** Moving the boundary between two parts of a concatenation by one element. */
  lemma MoveAcross<T>(e: seq<T>, front: seq<T>, x: T, rest: seq<T>)
    ensures e + (front + [x]) + rest == e + front + ([x] + rest)
  {
  }

  /** The full rows of a board are counted by `FullCount` no matter how they are spread out. */
  lemma {:induction false} FullCountBound(h: Grid, lo: int, hi: int)
    requires forall i :: 0 <= i < |h| && Board.RowFull(h[i]) ==> lo <= i < hi
    ensures FullCount(h) <= if hi > lo then hi - lo else 0
    decreases |h|
  {
    if |h| > 0 {
      var lo' := if lo - 1 > 0 then lo - 1 else 0;
      forall i | 0 <= i < |h[1..]| && Board.RowFull(h[1..][i])
        ensures lo' <= i < hi - 1
      {
        assert h[1..][i] == h[i + 1];
      }
      FullCountBound(h[1..], lo', hi - 1);
    }
  }

  /**
   * Merging a piece into a board with no full row fills at most as many rows
   * as the piece is tall: only rows the piece covers can become full.
   */
  lemma MergedFullRows(g: Grid, p: Pieces.Piece, v: int)
    requires Board.WellFormed(g) && NoFullRow(g)
    ensures FullCount(Board.Merged(g, p, v)) <= |p.shape|
  {
    var h := Board.Merged(g, p, v);
    forall i | 0 <= i < |h| && !(p.y <= i < p.y + |p.shape|)
      ensures !Board.RowFull(h[i])
    {
      var x :| 0 <= x < Board.Cols && g[i][x] == 0;
      assert !Board.Covers(p, i, x);
      assert h[i][x] == 0;
    }
    FullCountBound(h, p.y, p.y + |p.shape|);
  }

  // ---------------------------------------------------------------------
  // Pieces

  /** A piece the game can hold: a square shape with a filled cell, at most four rows tall. */
  predicate PieceOk(p: Pieces.Piece)
  {
    Pieces.IsSquare(p.shape) && Pieces.HasFilled(p.shape) && |p.shape| <= 4
  }

  /** `getRandomPiece` for the template index drawn: the template, its colour, centred, in row 0. */
  predicate Spawned(p: Pieces.Piece)
  {
    0 <= p.shapeIndex < |Pieces.Shapes| && p == Pieces.Create(p.shapeIndex, Board.Cols)
  }

  lemma SpawnedIsOk(p: Pieces.Piece)
    requires Spawned(p)
    ensures PieceOk(p)
  {
    Pieces.TemplatesAreSquare(p.shapeIndex);
    Pieces.TemplatesHaveFilled(p.shapeIndex);
  }

  /** A freshly spawned piece always fits on an empty board, so a new game never starts over. */
  lemma SpawnFitsEmptyBoard(i: int)
    requires 0 <= i < |Pieces.Shapes|
    ensures Board.IsValidPosition(Pieces.Create(i, Board.Cols), Board.EmptyGrid(), 0, 0)
  {
    var p := Pieces.Create(i, Board.Cols);
    Pieces.TemplatesAreSquare(i);
    forall j, k | 0 <= j < |p.shape| && 0 <= k < |p.shape[j]|
      ensures Board.CellFits(p, Board.EmptyGrid(), 0, 0, j, k)
    {
    }
  }

  /** A piece in a valid position has every visible filled cell on the board. */
  lemma ValidPositionOnBoard(p: Pieces.Piece, g: Grid)
    requires Board.WellFormed(g) && Board.IsValidPosition(p, g, 0, 0)
    ensures Board.VisibleCellsOnBoard(p)
  {
    forall j, k | 0 <= j < |p.shape| && 0 <= k < |p.shape[j]| && p.shape[j][k] != 0 && p.y + j >= 0
      ensures p.y + j < Board.Rows && 0 <= p.x + k < Board.Cols
    {
      assert Board.CellFits(p, g, 0, 0, j, k);
    }
  }

  /** The kick offsets `rotatePiece` tries, in order: 0, 1, -1, 2, -2, ..., size, -size. */
  function Kicks(size: nat): (ks: seq<int>)
    ensures |ks| == 2 * size + 1
    ensures forall i :: 0 <= i < |ks| ==> ks[i] == if i % 2 == 1 then (i + 1) / 2 else -(i / 2)
  {
    if size == 0 then [0] else Kicks(size - 1) + [size as int, -(size as int)]
  }

  /** The loop that builds `offsets` in `rotatePiece`. */
  method KickOffsets(size: nat) returns (offsets: seq<int>)
    ensures offsets == Kicks(size)
  {
    offsets := [0];
    var i := 1;
    while i <= size
      invariant 1 <= i <= size + 1
      invariant offsets == Kicks(i - 1)
    {
      offsets := offsets + [i, -i];
      i := i + 1;
    }
  }

  /** The turned piece, shifted by `offset` columns, fits on the board. */
  predicate KickFits(r: Pieces.Piece, g: Grid, offset: int)
    requires Board.WellFormed(g)
  {
    Board.IsValidPosition(r.(x := r.x + offset), g, 0, 0)
  }

  /** The index of the first offset from `i` on at which the turned piece fits, or |ks| when none does. */
  function FirstFit(r: Pieces.Piece, g: Grid, ks: seq<int>, i: int): (j: int)
    requires Board.WellFormed(g) && 0 <= i <= |ks|
    ensures i <= j <= |ks|
    ensures j < |ks| ==> KickFits(r, g, ks[j])
    ensures forall m :: i <= m < j ==> !KickFits(r, g, ks[m])
    decreases |ks| - i
  {
    if i == |ks| then |ks|
    else if KickFits(r, g, ks[i]) then i
    else FirstFit(r, g, ks, i + 1)
  }

  /**
   * The kick loop of `rotatePiece`: the offsets are tried in order until the
   * turned piece, shifted by one of them, does not collide.
   */
  method FindKick(r: Pieces.Piece, g: Grid, offsets: seq<int>) returns (i: int)
    requires Board.WellFormed(g)
    ensures i == FirstFit(r, g, offsets, 0)
  {
    i := 0;
    while i < |offsets| && !Board.IsValidPosition(r.(x := r.x + offsets[i]), g, 0, 0)
      invariant 0 <= i <= |offsets|
      invariant FirstFit(r, g, offsets, i) == FirstFit(r, g, offsets, 0)
    {
      FirstFitSkips(r, g, offsets, i);
      i := i + 1;
    }
  }

  /**
   * The body of `rotatePiece` on the current board: turn the shape a quarter
   * clockwise, build the kick offsets, and keep the first position that fits.
   */
  method KickRotate(p: Pieces.Piece, g: Grid) returns (q: Pieces.Piece)
    requires Board.WellFormed(g) && Pieces.IsSquare(p.shape)
    ensures q == Rotation(p, g)
  {
    var rotated := Pieces.Rotate(p);
    var r := p.(shape := rotated);
    var offsets := KickOffsets(|p.shape|);
    var i := FindKick(r, g, offsets);
    RotationIs(p, g, r, offsets, i);
    q := if i < |offsets| then r.(x := p.x + offsets[i]) else p;
  }

  /** An offset at which the turned piece does not fit is skipped. */
  lemma FirstFitSkips(r: Pieces.Piece, g: Grid, ks: seq<int>, i: int)
    requires Board.WellFormed(g) && 0 <= i < |ks| && !Board.IsValidPosition(r.(x := r.x + ks[i]), g, 0, 0)
    ensures FirstFit(r, g, ks, i + 1) == FirstFit(r, g, ks, i)
  {
  }

  /**
   * The piece `rotatePiece` leaves: the quarter-turned shape at the first kick
   * offset where it fits, or the piece unchanged (shape and column) when it
   * fits at none of them.
   */
  function Rotation(p: Pieces.Piece, g: Grid): (q: Pieces.Piece)
    requires Board.WellFormed(g) && Pieces.IsSquare(p.shape)
    ensures q == p || q == p.(shape := Pieces.Rotated(p.shape), x := q.x)
  {
    var r := p.(shape := Pieces.Rotated(p.shape));
    var ks := Kicks(|p.shape|);
    var i := FirstFit(r, g, ks, 0);
    if i < |ks| then r.(x := p.x + ks[i]) else p
  }

  /** `Rotation` in terms of the turned piece, the offsets and the index found. */
  lemma RotationIs(p: Pieces.Piece, g: Grid, r: Pieces.Piece, offsets: seq<int>, i: int)
    requires Board.WellFormed(g) && Pieces.IsSquare(p.shape)
    requires r == p.(shape := Pieces.Rotated(p.shape)) && offsets == Kicks(|p.shape|)
    requires i == FirstFit(r, g, offsets, 0)
    ensures 0 <= i <= |offsets|
    ensures Rotation(p, g) == if i < |offsets| then r.(x := p.x + offsets[i]) else p
  {
  }

  /**
   * A rotation either turns the piece clockwise and shifts it by the first
   * kick offset that fits, leaving it in a valid position, or changes nothing.
   */
  lemma RotationFits(p: Pieces.Piece, g: Grid)
    requires Board.WellFormed(g) && PieceOk(p)
    ensures var q := Rotation(p, g);
      q == p || (q.shape == Pieces.Rotated(p.shape) && q.y == p.y && -|p.shape| <= q.x - p.x <= |p.shape| &&
                 Board.IsValidPosition(q, g, 0, 0))
    ensures PieceOk(Rotation(p, g))
    ensures var r := p.(shape := Pieces.Rotated(p.shape));
      Rotation(p, g) == p <== forall off :: -|p.shape| <= off <= |p.shape| ==> !KickFits(r, g, off)
  {
    var r := p.(shape := Pieces.Rotated(p.shape));
    var ks := Kicks(|p.shape|);
    var i := FirstFit(r, g, ks, 0);
    Pieces.RotatePreservesFilledCount(p.shape);
    assert Pieces.HasFilled(r.shape);
    if i < |ks| {
      KickInRange(|p.shape|, i);
      var q := r.(x := p.x + ks[i]);
      assert Rotation(p, g) == q;
      assert KickFits(r, g, ks[i]);
      KickedFits(r, g, ks[i], q);
      assert q.shape == Pieces.Rotated(p.shape) && q.y == p.y && q.x - p.x == ks[i];
    } else {
      assert Rotation(p, g) == p;
    }
  }

  /** The piece shifted by a kick offset that fits is in a valid position. */
  lemma KickedFits(r: Pieces.Piece, g: Grid, offset: int, q: Pieces.Piece)
    requires Board.WellFormed(g) && KickFits(r, g, offset) && q == r.(x := r.x + offset)
    ensures Board.IsValidPosition(q, g, 0, 0)
  {
  }

  /** Every kick offset lies within the piece's size either way. */
  lemma KickInRange(size: nat, i: int)
    requires 0 <= i < 2 * size + 1
    ensures -(size as int) <= Kicks(size)[i] <= size
  {
  }


  /** The collision test of `checkCollision` for one filled cell landing at (nx, ny). */
  predicate Blocked(g: Grid, nx: int, ny: int)
    requires Board.WellFormed(g)
  {
    nx < 0 || nx >= Board.Cols || ny >= Board.Rows || (ny >= 0 && g[ny][nx] != 0)
  }

  /**
   * `checkCollision` in the words of its source: a piece collides iff some
   * filled cell, moved by the offset, lands left or right of the board, below
   * the last row, or on a filled cell of a visible row.
   */
  lemma BlockedCells(p: Pieces.Piece, g: Grid, ox: int, oy: int)
    requires Board.WellFormed(g)
    ensures !Board.IsValidPosition(p, g, ox, oy) <==>
      exists j, k :: 0 <= j < |p.shape| && 0 <= k < |p.shape[j]| && p.shape[j][k] != 0 &&
                     Blocked(g, p.x + k + ox, p.y + j + oy)
  {
    forall j, k | 0 <= j < |p.shape| && 0 <= k < |p.shape[j]|
      ensures !Board.CellFits(p, g, ox, oy, j, k) <==> p.shape[j][k] != 0 && Blocked(g, p.x + k + ox, p.y + j + oy)
    {
    }
  }

  // ---------------------------------------------------------------------
  // The game

  /**
   * The `hardDrop` loop: while one row further down fits, the piece moves
   * down a row and the score grows by 2. It stops where `Board.Dropped` says.
   */
  method Fall(p: Pieces.Piece, g: Grid, score: int) returns (q: Pieces.Piece, s: int)
    requires Board.WellFormed(g) && PieceOk(p) && Board.IsValidPosition(p, g, 0, 0)
    ensures q == Board.Dropped(p, g) && Board.IsValidPosition(q, g, 0, 0)
    ensures s == score + 2 * (q.y - p.y)
  {
    q, s := p, score;
    while Board.IsValidPosition(q, g, 0, 1)
      invariant q == p.(y := q.y) && q.y >= p.y && Board.IsValidPosition(q, g, 0, 0)
      invariant Board.Dropped(q, g) == Board.Dropped(p, g)
      invariant s == score + 2 * (q.y - p.y)
      decreases Board.Rows - q.y
    {
      Board.CanFallMeansAboveFloor(q, g);
      Board.OffsetIsMove(q, g, 0, 1);
      q := q.(y := q.y + 1);
      s := s + 2;
    }
  }

  class Game {
    var board: array<seq<int>>
    var currentPiece: Option<Pieces.Piece>
    var nextPiece: Option<Pieces.Piece>
    var score: int
    var highScore: int
    var lines: int
    var level: int
    var gameOver: bool
    var isPaused: bool
    var dropInterval: int
    var dropCounter: int
    var lastTime: int

    /**
     * The board is ROWS x COLS with no full row; the next piece is a fresh
     * spawn; while the game is on, the current piece fits where it is; the
     * level and the drop interval follow from the line count.
     */
    predicate Valid()
      reads this, board
    {
      board.Length == Board.Rows && Board.WellFormed(board[..]) && NoFullRow(board[..]) &&
      (nextPiece.Some? ==> Spawned(nextPiece.value)) &&
      (currentPiece.Some? ==> PieceOk(currentPiece.value) && nextPiece.Some?) &&
      (currentPiece.Some? && !gameOver ==> Board.IsValidPosition(currentPiece.value, board[..], 0, 0)) &&
      lines >= 0 && level == Scoring.CalculateLevel(lines) && dropInterval == Scoring.CalculateDropInterval(level)
    }

    /** The closure variables as the script initialises them. */
    constructor ()
      ensures Valid() && fresh(board)
      ensures board[..] == Board.EmptyGrid()
      ensures currentPiece.None? && nextPiece.None?
      ensures score == 0 && highScore == 0 && lines == 0 && level == 1
      ensures !gameOver && !isPaused && dropInterval == 1000 && dropCounter == 0 && lastTime == 0
    {
      var b := Board.CreateEmpty();
      board := b;
      currentPiece, nextPiece := None, None;
      score, highScore, lines, level := 0, 0, 0, 1;
      gameOver, isPaused := false, false;
      dropInterval, dropCounter, lastTime := 1000, 0, 0;
      EmptyBoardHasNoFullRow();
    }

    /**
     * `checkCollision`: the piece moved by the offset is not in a valid
     * position on the current board (`BlockedCells` spells this out cell by
     * cell).
     */
    function CheckCollision(piece: Pieces.Piece, offsetX: int, offsetY: int): (collides: bool)
      reads this, board
      requires board.Length == Board.Rows && Board.WellFormed(board[..])
      ensures collides <==> !Board.IsValidPosition(piece.(x := piece.x + offsetX, y := piece.y + offsetY), board[..], 0, 0)
    {
      Board.OffsetIsMove(piece, board[..], offsetX, offsetY);
      !Board.IsValidPosition(piece, board[..], offsetX, offsetY)
    }

    /** `mergePiece`: the current piece's colour code goes into every visible cell it covers. */
    method MergePiece()
      requires board.Length == Board.Rows && Board.WellFormed(board[..])
      requires currentPiece.Some? && Board.IsValidPosition(currentPiece.value, board[..], 0, 0)
      modifies board
      ensures board[..] == Board.Merged(old(board[..]), currentPiece.value,
                                        Board.ColorCode(Pieces.Colors, currentPiece.value.color))
    {
      ValidPositionOnBoard(currentPiece.value, board[..]);
      Board.MergePieceInto(board, currentPiece.value, Pieces.Colors);
    }

    /** `movePieceLeft`: one column left when that fits, otherwise no change. */
    method MovePieceLeft()
      requires Valid() && currentPiece.Some? && !gameOver
      modifies this
      ensures Valid()
      ensures var p := old(currentPiece).value;
        currentPiece == if Board.IsValidPosition(p, board[..], -1, 0) then Some(p.(x := p.x - 1)) else Some(p)
      ensures board == old(board) && nextPiece == old(nextPiece) && gameOver == old(gameOver) && isPaused == old(isPaused)
      ensures score == old(score) && highScore == old(highScore) && lines == old(lines) && level == old(level)
      ensures dropInterval == old(dropInterval) && dropCounter == old(dropCounter) && lastTime == old(lastTime)
    {
      var p := currentPiece.value;
      var moved := p.(x := p.x - 1);
      Board.OffsetIsMove(p, board[..], -1, 0);
      if !CheckCollision(moved, 0, 0) {
        currentPiece := Some(moved);
      }
    }

    /** `movePieceRight`: one column right when that fits, otherwise no change. */
    method MovePieceRight()
      requires Valid() && currentPiece.Some? && !gameOver
      modifies this
      ensures Valid()
      ensures var p := old(currentPiece).value;
        currentPiece == if Board.IsValidPosition(p, board[..], 1, 0) then Some(p.(x := p.x + 1)) else Some(p)
      ensures board == old(board) && nextPiece == old(nextPiece) && gameOver == old(gameOver) && isPaused == old(isPaused)
      ensures score == old(score) && highScore == old(highScore) && lines == old(lines) && level == old(level)
      ensures dropInterval == old(dropInterval) && dropCounter == old(dropCounter) && lastTime == old(lastTime)
    {
      var p := currentPiece.value;
      var moved := p.(x := p.x + 1);
      Board.OffsetIsMove(p, board[..], 1, 0);
      if !CheckCollision(moved, 0, 0) {
        currentPiece := Some(moved);
      }
    }

    /**
     * `rotatePiece`: the quarter-turned piece is tried at the kick offsets in
     * order and kept at the first one that fits; when none fits, the shape
     * and the column are restored exactly.
     */
    method RotatePiece()
      requires Valid() && currentPiece.Some? && !gameOver
      modifies this
      ensures Valid() && currentPiece == Some(Rotation(old(currentPiece).value, board[..]))
      ensures board == old(board) && nextPiece == old(nextPiece) && gameOver == old(gameOver) && isPaused == old(isPaused)
      ensures score == old(score) && highScore == old(highScore) && lines == old(lines) && level == old(level)
      ensures dropInterval == old(dropInterval) && dropCounter == old(dropCounter) && lastTime == old(lastTime)
    {
      var p := currentPiece.value;
      var q := KickRotate(p, board[..]);
      RotationFits(p, board[..]);
      currentPiece := Some(q);
    }

    /** `updateScore`: the high score follows the score upwards (display and storage are not modelled). */
    method UpdateScore()
      modifies this
      ensures highScore == if score > old(highScore) then score else old(highScore)
      ensures board == old(board) && currentPiece == old(currentPiece) && nextPiece == old(nextPiece)
      ensures score == old(score) && lines == old(lines) && level == old(level) && dropInterval == old(dropInterval)
      ensures gameOver == old(gameOver) && isPaused == old(isPaused) && dropCounter == old(dropCounter) && lastTime == old(lastTime)
    {
      if score > highScore {
        highScore := score;
      }
    }

    /**
     * `clearLines`: the rescan removes every full row; when it removed any,
     * the line count grows by that number, the score by the line score at the
     * level from before the clear, and the level, the drop interval and the
     * high score are brought up to date. At most four rows can be full, since
     * only rows covered by the last piece can be.
     */
    method ClearLines()
      requires board.Length == Board.Rows && Board.WellFormed(board[..]) && FullCount(board[..]) <= 4
      requires lines >= 0 && level == Scoring.CalculateLevel(lines)
      modifies this, board
      ensures board == old(board) && board[..] == Compacted(old(board[..]))
      ensures var n := FullCount(old(board[..]));
        lines == old(lines) + n && score == old(score) + Scoring.CalculateLineScore(n, old(level)) &&
        level == Scoring.CalculateLevel(lines) &&
        dropInterval == (if n > 0 then Scoring.CalculateDropInterval(level) else old(dropInterval)) &&
        highScore == (if n > 0 && score > old(highScore) then score else old(highScore))
      ensures currentPiece == old(currentPiece) && nextPiece == old(nextPiece)
      ensures gameOver == old(gameOver) && isPaused == old(isPaused) && dropCounter == old(dropCounter) && lastTime == old(lastTime)
    {
      var linesCleared := RemoveFullRows(board);
      if linesCleared > 0 {
        lines := lines + linesCleared;
        score := score + Scoring.LineScores[linesCleared - 1] * level;
        level := lines / 10 + 1;
        dropInterval := if 1000 - (level - 1) * 100 > 100 then 1000 - (level - 1) * 100 else 100;
        UpdateScore();
      }
    }

    /**
     * `spawnPiece`: the next piece (a fresh one drawn with `firstIndex` when
     * there is none yet) becomes the current piece, a new next piece is drawn
     * with `nextIndex`, and the game is over when the new current piece
     * collides.
     */
    method SpawnPiece(firstIndex: int, nextIndex: int)
      requires board.Length == Board.Rows && Board.WellFormed(board[..])
      requires 0 <= firstIndex < |Pieces.Shapes| && 0 <= nextIndex < |Pieces.Shapes|
      modifies this
      ensures currentPiece == Some(if old(nextPiece).Some? then old(nextPiece).value
                                   else Pieces.Create(firstIndex, Board.Cols))
      ensures board == old(board) && nextPiece == Some(Pieces.Create(nextIndex, Board.Cols))
      ensures gameOver == (old(gameOver) || !Board.IsValidPosition(currentPiece.value, board[..], 0, 0))
      ensures score == old(score) && highScore == old(highScore) && lines == old(lines)
      ensures level == old(level) && dropInterval == old(dropInterval) && isPaused == old(isPaused)
      ensures dropCounter == old(dropCounter) && lastTime == old(lastTime)
    {
      if nextPiece.None? {
        nextPiece := Some(Pieces.Create(firstIndex, Board.Cols));
      }
      currentPiece := nextPiece;
      nextPiece := Some(Pieces.Create(nextIndex, Board.Cols));
      if CheckCollision(currentPiece.value, 0, 0) {
        gameOver := true;
      }
    }

    /**
     * The state after the current piece locks where it is: it is merged into
     * the board, the full rows are cleared and scored at the level from before
     * the clear, and the next piece is spawned with template `nextIndex`; the
     * game is over when the spawned piece collides.
     */
    twostate predicate Locked(nextIndex: int)
      requires old(Valid()) && old(currentPiece).Some? && 0 <= nextIndex < |Pieces.Shapes|
      reads this, board
    {
      var p, g := old(currentPiece).value, old(board[..]);
      var merged := Board.Merged(g, p, Board.ColorCode(Pieces.Colors, p.color));
      var n := FullCount(merged);
      board == old(board) && isPaused == old(isPaused) && board[..] == Compacted(merged) &&
      lines == old(lines) + n && score == old(score) + Scoring.CalculateLineScore(n, old(level)) &&
      level == Scoring.CalculateLevel(lines) && dropInterval == Scoring.CalculateDropInterval(level) &&
      highScore == (if n > 0 && score > old(highScore) then score else old(highScore)) &&
      currentPiece == old(nextPiece) && nextPiece == Some(Pieces.Create(nextIndex, Board.Cols)) &&
      gameOver == (old(gameOver) || !Board.IsValidPosition(currentPiece.value, board[..], 0, 0))
    }

    /** The state after the current piece moves one row down; everything else is as it was. */
    twostate predicate Lowered()
      requires old(currentPiece).Some?
      reads this, board
    {
      var p := old(currentPiece).value;
      board == old(board) && board[..] == old(board[..]) && isPaused == old(isPaused) &&
      currentPiece == Some(p.(y := p.y + 1)) && nextPiece == old(nextPiece) &&
      gameOver == old(gameOver) && score == old(score) && highScore == old(highScore) &&
      lines == old(lines) && level == old(level) && dropInterval == old(dropInterval)
    }

    /**
     * The state `movePieceDown` leaves behind: `Lowered` when one row further
     * down fits, otherwise `Locked`.
     */
    twostate predicate MovedDown(nextIndex: int)
      requires old(Valid()) && old(currentPiece).Some? && 0 <= nextIndex < |Pieces.Shapes|
      reads this, board
    {
      if Board.IsValidPosition(old(currentPiece).value, old(board[..]), 0, 1) then Lowered() else Locked(nextIndex)
    }

    /** The falling branch of `movePieceDown`: one row down, restart the drop counter. */
    method LowerPiece()
      requires Valid() && currentPiece.Some? && !gameOver
      requires Board.IsValidPosition(currentPiece.value, board[..], 0, 1)
      modifies this
      ensures Valid() && Lowered()
      ensures dropCounter == 0 && lastTime == old(lastTime)
    {
      var p := currentPiece.value;
      Board.OffsetIsMove(p, board[..], 0, 1);
      currentPiece := Some(p.(y := p.y + 1));
      dropCounter := 0;
    }

    /**
     * The first half of the landing branch: the current piece is merged and
     * the full rows are cleared and scored at the level from before the clear.
     */
    method MergeAndClear()
      requires Valid() && currentPiece.Some? && !gameOver
      modifies this, board
      ensures var p := old(currentPiece).value;
        var merged := Board.Merged(old(board[..]), p, Board.ColorCode(Pieces.Colors, p.color));
        var n := FullCount(merged);
        board == old(board) && board[..] == Compacted(merged) &&
        lines == old(lines) + n && score == old(score) + Scoring.CalculateLineScore(n, old(level)) &&
        highScore == (if n > 0 && score > old(highScore) then score else old(highScore))
      ensures board.Length == Board.Rows && Board.WellFormed(board[..]) && NoFullRow(board[..])
      ensures lines >= 0 && level == Scoring.CalculateLevel(lines) && dropInterval == Scoring.CalculateDropInterval(level)
      ensures currentPiece == old(currentPiece) && nextPiece == old(nextPiece)
      ensures gameOver == old(gameOver) && isPaused == old(isPaused) && dropCounter == old(dropCounter) && lastTime == old(lastTime)
    {
      ghost var p := currentPiece.value;
      ghost var merged := Board.Merged(board[..], p, Board.ColorCode(Pieces.Colors, p.color));
      MergedFullRows(board[..], p, Board.ColorCode(Pieces.Colors, p.color));
      MergePiece();
      assert board[..] == merged;
      ClearLines();
      assert board[..] == Compacted(merged);
      if FullCount(merged) == 0 {
        assert lines == old(lines) && dropInterval == old(dropInterval);
        assert level == old(level);
      }
    }

    /** The landing branch of `movePieceDown`: merge, clear the full rows, spawn, restart the drop counter. */
    method LockPiece(nextIndex: int)
      requires Valid() && currentPiece.Some? && !gameOver && 0 <= nextIndex < |Pieces.Shapes|
      modifies this, board
      ensures Valid() && Locked(nextIndex)
      ensures dropCounter == 0 && lastTime == old(lastTime)
    {
      // the script restarts the counter last; merging, clearing and spawning leave it alone
      dropCounter := 0;
      MergeAndClear();
      SpawnedIsOk(nextPiece.value);
      // there is always a next piece here, so the first draw is not used
      SpawnPiece(nextIndex, nextIndex);
    }

    /**
     * `movePieceDown`: one row down when that fits; otherwise lock the piece
     * (merge, clear, spawn). Either way the drop counter restarts at 0.
     */
    method MovePieceDown(nextIndex: int)
      requires Valid() && currentPiece.Some? && !gameOver && 0 <= nextIndex < |Pieces.Shapes|
      modifies this, board
      ensures Valid() && MovedDown(nextIndex)
      ensures dropCounter == 0 && lastTime == old(lastTime)
    {
      var p := currentPiece.value;
      Board.OffsetIsMove(p, board[..], 0, 1);
      if CheckCollision(p.(y := p.y + 1), 0, 0) {
        LockPiece(nextIndex);
      } else {
        LowerPiece();
      }
    }

    /**
     * The state `hardDrop` leaves behind: the piece dropped as far as it fits
     * and locked there, 2 points per row fallen plus the line score at the
     * level from before the clear, and the next piece spawned.
     */
    twostate predicate HardDropped(nextIndex: int)
      requires old(Valid()) && old(currentPiece).Some? && 0 <= nextIndex < |Pieces.Shapes|
      reads this, board
    {
      var p, g := old(currentPiece).value, old(board[..]);
      var d := Board.Dropped(p, g);
      var merged := Board.Merged(g, d, Board.ColorCode(Pieces.Colors, d.color));
      var n := FullCount(merged);
      board == old(board) && board[..] == Compacted(merged) &&
      score == old(score) + 2 * (d.y - p.y) + Scoring.CalculateLineScore(n, old(level)) &&
      lines == old(lines) + n && level == Scoring.CalculateLevel(lines) &&
      highScore == (if score > old(highScore) then score else old(highScore)) &&
      currentPiece == old(nextPiece) && nextPiece == Some(Pieces.Create(nextIndex, Board.Cols)) &&
      gameOver == !Board.IsValidPosition(currentPiece.value, board[..], 0, 0) &&
      dropCounter == 0 && isPaused == old(isPaused) && lastTime == old(lastTime)
    }

    /**
     * `hardDrop`: the piece falls while one row further down fits, scoring 2
     * per row, then locks through `movePieceDown`; the high score is updated
     * at the end.
     */
    method HardDrop(nextIndex: int)
      requires Valid() && currentPiece.Some? && !gameOver && 0 <= nextIndex < |Pieces.Shapes|
      modifies this, board
      ensures Valid() && HardDropped(nextIndex)
    {
      var p := currentPiece.value;
      var dropped, fallScore := Fall(p, board[..], score);
      ghost var g := board[..];
      assert !Board.IsValidPosition(dropped, g, 0, 1);
      currentPiece, score := Some(dropped), fallScore;
      ghost var fallen, next, lines0, level0 := score, nextPiece, lines, level;
      MovePieceDown(nextIndex);
      ghost var merged := Board.Merged(g, dropped, Board.ColorCode(Pieces.Colors, dropped.color));
      ghost var n := FullCount(merged);
      assert board[..] == Compacted(merged);
      assert score == fallen + Scoring.CalculateLineScore(n, level0) && lines == lines0 + n;
      assert currentPiece == next;
      UpdateScore();
    }

    /**
     * `update`: nothing while the game is over or paused; otherwise the time
     * since the last frame (0 on the first frame) is added to the drop counter,
     * and the piece moves down once the counter exceeds the drop interval.
     */
    method Update(time: int, nextIndex: int)
      requires Valid() && currentPiece.Some? && 0 <= nextIndex < |Pieces.Shapes|
      modifies this, board
      ensures Valid()
      ensures old(gameOver) || old(isPaused) ==>
        board == old(board) && board[..] == old(board[..]) && currentPiece == old(currentPiece) &&
        nextPiece == old(nextPiece) && score == old(score) && highScore == old(highScore) &&
        lines == old(lines) && level == old(level) && dropInterval == old(dropInterval) &&
        gameOver == old(gameOver) && isPaused == old(isPaused) &&
        dropCounter == old(dropCounter) && lastTime == old(lastTime)
      ensures !old(gameOver) && !old(isPaused) ==>
        var counter := old(dropCounter) + (if old(lastTime) == 0 then 0 else time - old(lastTime));
        lastTime == time &&
        (counter > old(dropInterval) ==> MovedDown(nextIndex) && dropCounter == 0) &&
        (counter <= old(dropInterval) ==>
          dropCounter == counter && board == old(board) && board[..] == old(board[..]) &&
          currentPiece == old(currentPiece) && nextPiece == old(nextPiece) && score == old(score) &&
          highScore == old(highScore) && lines == old(lines) && level == old(level) &&
          dropInterval == old(dropInterval) && gameOver == old(gameOver) && isPaused == old(isPaused))
    {
      if gameOver || isPaused {
        return;
      }
      var deltaTime := if lastTime == 0 then 0 else time - lastTime;
      lastTime := time;
      dropCounter := dropCounter + deltaTime;
      if dropCounter > dropInterval {
        MovePieceDown(nextIndex);
      }
    }

    /**
     * `startGame`: an empty board, the counters back to their initial values,
     * the high score brought up to date, a spawned piece (which always fits,
     * so the game is on), and the frame clock started at `now`.
     */
    method StartGame(now: int, firstIndex: int, nextIndex: int)
      requires Valid()
      requires 0 <= firstIndex < |Pieces.Shapes| && 0 <= nextIndex < |Pieces.Shapes|
      modifies this
      ensures Valid() && fresh(board) && board[..] == Board.EmptyGrid()
      ensures score == 0 && lines == 0 && level == 1 && dropInterval == 1000
      ensures highScore == if old(highScore) < 0 then 0 else old(highScore)
      ensures currentPiece == Some(if old(nextPiece).Some? then old(nextPiece).value
                                   else Pieces.Create(firstIndex, Board.Cols))
      ensures nextPiece == Some(Pieces.Create(nextIndex, Board.Cols))
      ensures !gameOver && !isPaused && lastTime == now && dropCounter == 0
    {
      board := Board.CreateEmpty();
      score, lines, level, dropInterval := 0, 0, 1, 1000;
      gameOver, isPaused := false, false;
      // the script restarts the frame clock after spawning; spawning does not read it
      lastTime, dropCounter := now, 0;
      EmptyBoardHasNoFullRow();
      UpdateScore();
      SpawnPiece(firstIndex, nextIndex);
      SpawnFitsEmptyBoard(currentPiece.value.shapeIndex);
      SpawnedIsOk(currentPiece.value);
    }

    /** `togglePause`: ignored once the game is over; resuming restarts the frame clock at `now`. */
    method TogglePause(now: int)
      requires Valid()
      modifies this
      ensures Valid()
      ensures old(gameOver) ==> isPaused == old(isPaused) && lastTime == old(lastTime)
      ensures !old(gameOver) ==> isPaused == !old(isPaused) && lastTime == (if isPaused then old(lastTime) else now)
      ensures board == old(board) && currentPiece == old(currentPiece) && nextPiece == old(nextPiece)
      ensures score == old(score) && highScore == old(highScore) && lines == old(lines) && level == old(level)
      ensures dropInterval == old(dropInterval) && dropCounter == old(dropCounter) && gameOver == old(gameOver)
    {
      if gameOver {
        return;
      }
      isPaused := !isPaused;
      if !isPaused {
        lastTime := now;
      }
    }

    /**
     * The state the ArrowDown key leaves behind: the piece one row down, or
     * locked as `movePieceDown` does it, and one more point either way.
     */
    twostate predicate SoftDropped(nextIndex: int)
      requires old(Valid()) && old(currentPiece).Some? && 0 <= nextIndex < |Pieces.Shapes|
      reads this, board
    {
      var p, g := old(currentPiece).value, old(board[..]);
      (if Board.IsValidPosition(p, g, 0, 1) then
         board[..] == g && currentPiece == Some(p.(y := p.y + 1)) && nextPiece == old(nextPiece) &&
         lines == old(lines) && score == old(score) + 1 && gameOver == old(gameOver)
       else
         var merged := Board.Merged(g, p, Board.ColorCode(Pieces.Colors, p.color));
         var n := FullCount(merged);
         board[..] == Compacted(merged) && lines == old(lines) + n &&
         score == old(score) + Scoring.CalculateLineScore(n, old(level)) + 1 &&
         currentPiece == old(nextPiece) && nextPiece == Some(Pieces.Create(nextIndex, Board.Cols)) &&
         gameOver == !Board.IsValidPosition(currentPiece.value, board[..], 0, 0)) &&
      highScore == (if score > old(highScore) then score else old(highScore)) &&
      board == old(board) && isPaused == old(isPaused) && dropCounter == 0 && lastTime == old(lastTime)
    }

    /**
     * The ArrowDown key: `movePieceDown`, then one point for the soft drop and
     * the high score brought up to date.
     */
    method SoftDrop(nextIndex: int)
      requires Valid() && currentPiece.Some? && !gameOver && 0 <= nextIndex < |Pieces.Shapes|
      modifies this, board
      ensures Valid() && SoftDropped(nextIndex)
    {
      ghost var h0 := highScore;
      MovePieceDown(nextIndex);
      ghost var h1, s1 := highScore, score;
      assert h1 == h0 || (h1 == s1 && s1 > h0);
      score := score + 1;
      UpdateScore();
    }

    /**
     * The keydown handler: once the game is over every key is ignored (a
     * paused game still takes keys); otherwise the key's command runs. Only
     * the space bar's default is prevented. `now` is the clock a resume
     * restarts from.
     */
    method HandleKey(key: string, now: int, nextIndex: int) returns (prevented: bool)
      requires Valid() && currentPiece.Some? && 0 <= nextIndex < |Pieces.Shapes|
      modifies this, board
      ensures Valid()
      ensures prevented <==> KeyCommand(key, old(gameOver)) == Some(Drop)
      ensures var c := KeyCommand(key, old(gameOver));
        c.None? || c == Some(ToggleGrid) ==>
          board == old(board) && board[..] == old(board[..]) && currentPiece == old(currentPiece) &&
          nextPiece == old(nextPiece) && score == old(score) && highScore == old(highScore) &&
          lines == old(lines) && level == old(level) && gameOver == old(gameOver) && isPaused == old(isPaused) &&
          dropCounter == old(dropCounter) && lastTime == old(lastTime)
      ensures var p := old(currentPiece).value;
        KeyCommand(key, old(gameOver)) == Some(Left) ==>
          currentPiece == (if Board.IsValidPosition(p, old(board[..]), -1, 0) then Some(p.(x := p.x - 1)) else Some(p)) &&
          board[..] == old(board[..]) && score == old(score)
      ensures var p := old(currentPiece).value;
        KeyCommand(key, old(gameOver)) == Some(Right) ==>
          currentPiece == (if Board.IsValidPosition(p, old(board[..]), 1, 0) then Some(p.(x := p.x + 1)) else Some(p)) &&
          board[..] == old(board[..]) && score == old(score)
      ensures KeyCommand(key, old(gameOver)) == Some(Rotate) ==>
          currentPiece == Some(Rotation(old(currentPiece).value, old(board[..]))) &&
          board[..] == old(board[..]) && score == old(score)
      ensures KeyCommand(key, old(gameOver)) == Some(Down) ==> SoftDropped(nextIndex)
      ensures KeyCommand(key, old(gameOver)) == Some(Drop) ==> HardDropped(nextIndex)
      ensures KeyCommand(key, old(gameOver)) == Some(Pause) ==>
          isPaused == !old(isPaused) && currentPiece == old(currentPiece) && board[..] == old(board[..]) &&
          lastTime == (if isPaused then old(lastTime) else now)
    {
      prevented := false;
      var c := KeyCommand(key, gameOver);
      if c.None? {
        return;
      }
      match c.value
      case Left => MovePieceLeft();
      case Right => MovePieceRight();
      case Down => SoftDrop(nextIndex);
      case Rotate => RotatePiece();
      case Drop =>
        prevented := true;
        HardDrop(nextIndex);
      case Pause => TogglePause(now);
      case ToggleGrid =>
    }
  }

  /** What a key does in the stand-alone game. */
  datatype Command = Left | Right | Down | Rotate | Drop | Pause | ToggleGrid

  /**
   * The command the keydown handler runs for `key`: none once the game is
   * over or for a key it does not handle.
   */
  function KeyCommand(key: string, gameOver: bool): (c: Option<Command>)
    ensures gameOver ==> c.None?
    ensures !gameOver ==>
      (c == Some(Left) <==> key == "ArrowLeft") && (c == Some(Right) <==> key == "ArrowRight") &&
      (c == Some(Down) <==> key == "ArrowDown") && (c == Some(Rotate) <==> key == "ArrowUp") &&
      (c == Some(Drop) <==> key == " ") && (c == Some(Pause) <==> key == "p" || key == "P") &&
      (c == Some(ToggleGrid) <==> key == "g" || key == "G")
  {
    if gameOver then None
    else if key == "ArrowLeft" then Some(Left)
    else if key == "ArrowRight" then Some(Right)
    else if key == "ArrowDown" then Some(Down)
    else if key == "ArrowUp" then Some(Rotate)
    else if key == " " then Some(Drop)
    else if key == "p" || key == "P" then Some(Pause)
    else if key == "g" || key == "G" then Some(ToggleGrid)
    else None
  }

  lemma EmptyBoardHasNoFullRow()
    ensures NoFullRow(Board.EmptyGrid())
  {
    var g := Board.EmptyGrid();
    forall y | 0 <= y < |g|
      ensures !Board.RowFull(g[y])
    {
      assert g[y][0] == 0;
    }
  }
}
