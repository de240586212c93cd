/**
 * The piece factory (js/modules/core/PieceModule.js): the seven tetromino
 * templates, spawning, the clockwise rotation and the injectable random source.
 */
module Pieces {
  import Prng

  /** A shape: rows of 0/1 cells. */
  type Matrix = seq<seq<int>>

  predicate IsSquare(m: Matrix)
  {
    forall i :: 0 <= i < |m| ==> |m[i]| == |m|
  }

  /** The templates I, J, L, O, S, T, Z. */
  const Shapes: seq<Matrix> := [
    [[0, 0, 0, 0], [1, 1, 1, 1], [0, 0, 0, 0], [0, 0, 0, 0]],
    [[1, 0, 0], [1, 1, 1], [0, 0, 0]],
    [[0, 0, 1], [1, 1, 1], [0, 0, 0]],
    [[1, 1], [1, 1]],
    [[0, 1, 1], [1, 1, 0], [0, 0, 0]],
    [[0, 1, 0], [1, 1, 1], [0, 0, 0]],
    [[1, 1, 0], [0, 1, 1], [0, 0, 0]]
  ]

  const Colors: seq<string> := ["cyan", "blue", "orange", "yellow", "green", "purple", "red"]

  const ShapeNames: seq<string> := ["I", "J", "L", "O", "S", "T", "Z"]

  /** A piece instance: its current shape, colour name, template index and origin. */
  datatype Piece = Piece(shape: Matrix, color: string, shapeIndex: int, x: int, y: int)

  /** Every template is a square 0/1 matrix of side 2, 3 or 4. */
  lemma TemplatesAreSquare(i: int)
    requires 0 <= i < |Shapes|
    ensures IsSquare(Shapes[i]) && 2 <= |Shapes[i]| <= 4
    ensures forall r, c :: 0 <= r < |Shapes[i]| && 0 <= c < |Shapes[i]| ==> Shapes[i][r][c] in {0, 1}
  {
  }

  /** `create`: a copy of template `shapeIndex` with its colour, centred on a board of `boardCols` columns, in row 0. */
  function Create(shapeIndex: int, boardCols: int): (p: Piece)
    requires 0 <= shapeIndex < |Shapes|
    ensures p.shape == Shapes[shapeIndex] && p.color == Colors[shapeIndex]
    ensures p.shapeIndex == shapeIndex && p.y == 0
    ensures p.x + |p.shape[0]| / 2 == boardCols / 2
  {
    Piece(Shapes[shapeIndex], Colors[shapeIndex], shapeIndex,
          boardCols / 2 - |Shapes[shapeIndex][0]| / 2, 0)
  }

  /** On the 10-column board the I piece spawns at column 3 and every other piece at column 4. */
  lemma SpawnColumn(shapeIndex: int)
    requires 0 <= shapeIndex < |Shapes|
    ensures Create(shapeIndex, 10).x == if shapeIndex == 0 then 3 else 4
  {
  }

  /** The clockwise quarter turn: `rotated[x][size-1-y] == m[y][x]`, read cell by cell. */
  function Rotated(m: Matrix): (r: Matrix)
    requires IsSquare(m)
    ensures IsSquare(r) && |r| == |m|
  {
    seq(|m|, i requires 0 <= i < |m| =>
      seq(|m|, j requires 0 <= j < |m| => m[|m| - 1 - j][i]))
  }

  /** Cell (y, x) of the matrix lands at (x, size-1-y) of its quarter turn. */
  lemma RotatedCells(m: Matrix)
    requires IsSquare(m)
    ensures forall y, x :: 0 <= y < |m| && 0 <= x < |m| ==> Rotated(m)[x][|m| - 1 - y] == m[y][x]
  {
  }

  /** `rotate`: fills a fresh size×size matrix cell by cell; the piece itself is not touched. */
  method Rotate(piece: Piece) returns (rotated: Matrix)
    requires IsSquare(piece.shape)
    ensures IsSquare(rotated) && |rotated| == |piece.shape|
    ensures rotated == Rotated(piece.shape)
  {
    var m := piece.shape;
    var size := |m|;
    rotated := seq(size, _ => seq(size, _ => 0));
    var y := 0;
    while y < size
      invariant 0 <= y <= size
      invariant |rotated| == size && IsSquare(rotated)
      invariant forall i, j :: 0 <= i < size && 0 <= j < size ==>
                  rotated[i][j] == if size - 1 - j < y then m[size - 1 - j][i] else 0
    {
      var x := 0;
      while x < size
        invariant 0 <= x <= size
        invariant |rotated| == size && IsSquare(rotated)
        invariant forall i, j :: 0 <= i < size && 0 <= j < size ==>
                    rotated[i][j] == if size - 1 - j < y || (size - 1 - j == y && i < x) then m[size - 1 - j][i] else 0
      {
        rotated := rotated[x := rotated[x][size - 1 - y := m[y][x]]];
        x := x + 1;
      }
      y := y + 1;
    }
    forall i | 0 <= i < size
      ensures rotated[i] == Rotated(m)[i]
    {
    }
  }

  /** Two quarter turns reflect the matrix through its centre. */
  lemma RotateTwice(m: Matrix)
    requires IsSquare(m)
    ensures forall i, j :: 0 <= i < |m| && 0 <= j < |m| ==>
              Rotated(Rotated(m))[i][j] == m[|m| - 1 - i][|m| - 1 - j]
  {
  }

  /** Four quarter turns give back the original matrix, for every square matrix and so for every template. */
  lemma RotateFourTimes(m: Matrix)
    requires IsSquare(m)
    ensures Rotated(Rotated(Rotated(Rotated(m)))) == m
  {
    var h := Rotated(Rotated(m));
    RotateTwice(m);
    RotateTwice(h);
    var r := Rotated(Rotated(h));
    forall i | 0 <= i < |m|
      ensures r[i] == m[i]
    {
      assert forall j :: 0 <= j < |m| ==> r[i][j] == m[i][j];
    }
  }

  /** The coordinates of the filled cells of a square matrix. */
  function FilledCells(m: Matrix): set<(int, int)>
    requires IsSquare(m)
  {
    set i, j | 0 <= i < |m| && 0 <= j < |m| && m[i][j] != 0 :: (i, j)
  }

  /** A shape with a filled cell. */
  predicate HasFilled(m: Matrix)
    requires IsSquare(m)
  {
    FilledCells(m) != {}
  }

  /** Every template has a filled cell, so a dropped piece always comes to rest. */
  lemma TemplatesHaveFilled(i: int)
    requires 0 <= i < |Shapes|
    ensures IsSquare(Shapes[i]) && HasFilled(Shapes[i])
  {
    TemplatesAreSquare(i);
    assert (1, 1) in FilledCells(Shapes[i]);
  }

  /** Where a cell of `m` lands after one quarter turn of side `n`. */
  function Turn(n: int, c: (int, int)): (int, int)
  {
    (c.1, n - 1 - c.0)
  }

  lemma {:induction false} TurnImageSize(n: int, s: set<(int, int)>)
    ensures |set c | c in s :: Turn(n, c)| == |s|
    decreases |s|
  {
    if s != {} {
      var c :| c in s;
      var rest := s - {c};
      TurnImageSize(n, rest);
      var img := set d | d in s :: Turn(n, d);
      var imgRest := set d | d in rest :: Turn(n, d);
      assert img == imgRest + {Turn(n, c)};
      assert Turn(n, c) !in imgRest;
    }
  }

  /** A quarter turn keeps the number of filled cells. */
  lemma RotatePreservesFilledCount(m: Matrix)
    requires IsSquare(m)
    ensures |FilledCells(Rotated(m))| == |FilledCells(m)|
  {
    var n := |m|;
    var img := set c | c in FilledCells(m) :: Turn(n, c);
    assert FilledCells(Rotated(m)) == img by {
      forall c | c in FilledCells(Rotated(m)) ensures c in img {
        var src := (n - 1 - c.1, c.0);
        assert src in FilledCells(m) && Turn(n, src) == c;
      }
    }
    TurnImageSize(n, FilledCells(m));
  }

  /** The module-level `customRNG` slot and `getRandom`. */
  class RandomSource {
    var customRng: Prng.Mulberry32?

    constructor ()
      ensures customRng == null
    {
      customRng := null;
    }

    /** `setRNG(rng)`; `null` restores `Math.random`. */
    method SetRng(rng: Prng.Mulberry32?)
      modifies this
      ensures customRng == rng
    {
      customRng := rng;
    }

    /** `getRandom`: a value of the injected generator when one is set, otherwise `defaultDraw` (a `Math.random()` value). */
    method GetRandom(defaultDraw: real) returns (r: real)
      modifies customRng
      ensures customRng == null ==> r == defaultDraw
      ensures customRng != null ==>
                customRng.state == old(customRng.state) + Prng.Increment &&
                r == Prng.ToUnit(Prng.Mix(customRng.state))
    {
      var rng := customRng;
      if rng == null {
        return defaultDraw;
      }
      r := rng.Next();
      assert customRng == rng;
    }
  }
}
