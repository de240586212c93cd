/**
 * The computer opponents' move search (js/modules/ai/AiVsAi.js): every
 * rotation and horizontal position of the current piece is hard-dropped on a
 * scratch copy of the board, and the placement whose board evaluates best is
 * kept, the first one found among equal scores.
 *
 * The collision callback the search receives is the board's own validity
 * check on the same board (`!IsValidPosition`); evaluation scores are `real`.
 */
module AiVsAi {
  import opened Common
  import Board
  import Pieces

  /** A placement: the column of the piece's origin and the number of quarter turns. */
  datatype Move = Move(x: int, rotation: int)

  /** The leftmost origin the search tries; the last one is `Board.Cols + 1`. */
  const FirstX: int := -2

  /** The linear evaluation of `evaluatePosition` for the given metrics. */
  function Evaluate(m: Board.Metrics, aiPlayerNum: int): (score: real)
    ensures m.aggregateHeight >= 0 && m.maxHeight >= 0 && m.totalHoles >= 0 && m.bumpiness >= 0 ==> score <= 0.0
    ensures m.aggregateHeight == 0 && m.maxHeight == 0 && m.totalHoles == 0 && m.bumpiness == 0 ==> score == 0.0
  {
    if aiPlayerNum == 1 then
      -(m.aggregateHeight as real) * 0.5 - (m.totalHoles as real) * 3.0 - (m.bumpiness as real) * 0.3
    else
      -(m.maxHeight as real) * 1.2 - (m.totalHoles as real) * 2.0 - (m.bumpiness as real) * 0.5
  }

  /** Every board scores at most 0 for both players. */
  lemma EvaluateNonPositive(g: Board.Grid, aiPlayerNum: int)
    requires Board.WellFormed(g)
    ensures Evaluate(Board.MetricsOf(g), aiPlayerNum) <= 0.0
  {
    Board.MetricsBounds(g);
  }

  /** The empty board scores exactly 0, the best any board can score. */
  lemma EvaluateEmptyBoard(aiPlayerNum: int)
    ensures Evaluate(Board.MetricsOf(Board.EmptyGrid()), aiPlayerNum) == 0.0
  {
    Board.EmptyBoardMetrics();
  }

  /** For both players one more hole, all else equal, lowers the score. */
  lemma MoreHolesScoreLower(m: Board.Metrics, aiPlayerNum: int)
    ensures Evaluate(m.(totalHoles := m.totalHoles + 1), aiPlayerNum) < Evaluate(m, aiPlayerNum)
  {
  }

  /** `evaluatePosition`: the metrics of the scratch board, weighted per player. */
  method EvaluatePosition(testBoard: array<seq<int>>, aiPlayerNum: int) returns (score: real)
    requires Board.WellFormed(testBoard[..])
    ensures score == Evaluate(Board.MetricsOf(testBoard[..]), aiPlayerNum)
  {
    var metrics := Board.ComputeMetrics(testBoard);
    score := Evaluate(metrics, aiPlayerNum);
  }

  // ---------------------------------------------------------------------
  // Rotation

  /** The shape after `r` quarter turns. */
  function Turned(m: Pieces.Matrix, r: nat): (t: Pieces.Matrix)
    requires Pieces.IsSquare(m)
    ensures Pieces.IsSquare(t) && |t| == |m|
  {
    if r == 0 then m else Pieces.Rotated(Turned(m, r - 1))
  }

  lemma {:induction false} TurnedHasFilled(m: Pieces.Matrix, r: nat)
    requires Pieces.IsSquare(m) && Pieces.HasFilled(m)
    ensures Pieces.HasFilled(Turned(m, r))
  {
    if r > 0 {
      TurnedHasFilled(m, r - 1);
      Pieces.RotatePreservesFilledCount(Turned(m, r - 1));
    }
  }

  /** The inner rotation loop of `findBestMove`: `rotation` quarter turns of a copy of the piece. */
  method TurnPiece(piece: Pieces.Piece, rotation: nat) returns (shape: Pieces.Matrix)
    requires Pieces.IsSquare(piece.shape)
    ensures shape == Turned(piece.shape, rotation)
  {
    var testPiece := piece;
    var r := 0;
    while r < rotation
      invariant 0 <= r <= rotation
      invariant testPiece == piece.(shape := Turned(piece.shape, r))
    {
      var rotated := Pieces.Rotate(testPiece);
      testPiece := testPiece.(shape := rotated);
      r := r + 1;
    }
    shape := testPiece.shape;
  }

  // ---------------------------------------------------------------------
  // Virtual hard drop

  /** `while (!checkCollision(testPiece, 0, 1)) testPiece.y++`. */
  method DropPiece(p: Pieces.Piece, g: Board.Grid) returns (q: Pieces.Piece)
    requires Board.WellFormed(g) && Pieces.IsSquare(p.shape) && Pieces.HasFilled(p.shape)
    ensures q == Board.Dropped(p, g)
  {
    q := p;
    while Board.IsValidPosition(q, g, 0, 1)
      invariant q == p.(y := q.y) && Board.Dropped(q, g) == Board.Dropped(p, g)
      decreases Board.Rows - q.y
    {
      Board.CanFallMeansAboveFloor(q, g);
      q := q.(y := q.y + 1);
    }
  }

  // ---------------------------------------------------------------------
  // Simulated placement

  /**
   * The merge on the scratch board: a filled cell is written only when it lies
   * on the board, so every cell the piece covers gets the colour code and no
   * other cell changes.
   */
  method SimulateMerge(testBoard: array<seq<int>>, p: Pieces.Piece, v: int)
    requires Board.WellFormed(testBoard[..])
    modifies testBoard
    ensures testBoard[..] == Board.Merged(old(testBoard[..]), p, v)
  {
    ghost var g := testBoard[..];
    var py := 0;
    while py < |p.shape|
      invariant 0 <= py <= |p.shape|
      invariant Board.WellFormed(testBoard[..])
      invariant forall r, c :: 0 <= r < Board.Rows && 0 <= c < Board.Cols ==>
                  testBoard[r][c] == if Board.Covers(p, r, c) && r - p.y < py then v else g[r][c]
    {
      var px := 0;
      while px < |p.shape[py]|
        invariant 0 <= px <= |p.shape[py]|
        invariant Board.WellFormed(testBoard[..])
        invariant forall r, c :: 0 <= r < Board.Rows && 0 <= c < Board.Cols ==>
                    testBoard[r][c] == if Board.Covers(p, r, c) && (r - p.y < py || (r - p.y == py && c - p.x < px)) then v else g[r][c]
      {
        if p.shape[py][px] != 0 {
          var boardY := p.y + py;
          var boardX := p.x + px;
          if boardY >= 0 && boardY < Board.Rows && boardX >= 0 && boardX < Board.Cols {
            testBoard[boardY] := testBoard[boardY][boardX := v];
          }
        }
        px := px + 1;
      }
      py := py + 1;
    }
    ghost var m := Board.Merged(g, p, v);
    forall r | 0 <= r < Board.Rows
      ensures testBoard[r] == m[r]
    {
    }
  }

  /** The candidate of the search: the turned copy at origin x, starting from the piece's row. */
  function Candidate(piece: Pieces.Piece, rotation: nat, x: int): (p: Pieces.Piece)
    requires Pieces.IsSquare(piece.shape)
    ensures Pieces.IsSquare(p.shape)
  {
    piece.(shape := Turned(piece.shape, rotation), x := x)
  }

  /**
   * Where the candidate comes to rest: the turned shape at origin x, at or
   * below the piece's row, unable to move one row further down.
   */
  function Resting(piece: Pieces.Piece, g: Board.Grid, rotation: nat, x: int): (q: Pieces.Piece)
    requires Board.WellFormed(g) && Pieces.IsSquare(piece.shape) && Pieces.HasFilled(piece.shape)
    ensures q == piece.(shape := Turned(piece.shape, rotation), x := x, y := q.y)
    ensures q.y >= piece.y && !Board.IsValidPosition(q, g, 0, 1)
  {
    TurnedHasFilled(piece.shape, rotation);
    Board.Dropped(Candidate(piece, rotation, x), g)
  }

  /**
   * The score of one candidate: `None` when its resting position is not valid,
   * otherwise the evaluation of the board with the piece merged there.
   */
  function PlacementScore(piece: Pieces.Piece, g: Board.Grid, aiPlayerNum: int, v: int, rotation: nat, x: int): Option<real>
    requires Board.WellFormed(g) && Pieces.IsSquare(piece.shape) && Pieces.HasFilled(piece.shape)
  {
    var q := Resting(piece, g, rotation, x);
    if Board.IsValidPosition(q, g, 0, 0) then Some(Evaluate(Board.MetricsOf(Board.Merged(g, q, v)), aiPlayerNum))
    else None
  }

  /**
   * `f` gives every candidate with a non-negative rotation its `PlacementScore`.
   * The equation is instantiated only where a `PlacementScore` term is already
   * present, which keeps the evaluation of candidate boards out of the loops.
   */
  ghost predicate IsScoreTable(f: (int, int) -> Option<real>, piece: Pieces.Piece, g: Board.Grid, aiPlayerNum: int, v: int)
    requires Board.WellFormed(g) && Pieces.IsSquare(piece.shape) && Pieces.HasFilled(piece.shape)
  {
    forall r: nat, x {:trigger PlacementScore(piece, g, aiPlayerNum, v, r, x)} ::
      f(r, x) == PlacementScore(piece, g, aiPlayerNum, v, r, x)
  }

  /** Drop, check and evaluate one candidate, as the body of the `x` loop does. */
  method TryPlacement(ghost f: (int, int) -> Option<real>, piece: Pieces.Piece, board: array<seq<int>>, aiPlayerNum: int, v: int,
                      rotation: nat, shape: Pieces.Matrix, x: int)
    returns (score: Option<real>)
    requires Board.WellFormed(board[..]) && Pieces.IsSquare(piece.shape) && Pieces.HasFilled(piece.shape)
    requires IsScoreTable(f, piece, board[..], aiPlayerNum, v)
    requires shape == Turned(piece.shape, rotation)
    ensures score == f(rotation, x)
  {
    TurnedHasFilled(piece.shape, rotation);
    var testPiece := piece.(shape := shape, x := x, y := piece.y);
    testPiece := DropPiece(testPiece, board[..]);
    if Board.IsValidPosition(testPiece, board[..], 0, 0) {
      var testBoard := new seq<int>[board.Length](i requires 0 <= i < board.Length reads board => board[i]);
      assert testBoard[..] == board[..];
      SimulateMerge(testBoard, testPiece, v);
      var s := EvaluatePosition(testBoard, aiPlayerNum);
      score := Some(s);
    } else {
      score := None;
    }
    assert score == PlacementScore(piece, board[..], aiPlayerNum, v, rotation, x);
  }

  // ---------------------------------------------------------------------
  // The search

  /** Search order: rotation first, then x. */
  predicate Before(r1: int, x1: int, r2: int, x2: int)
  {
    r1 < r2 || (r1 == r2 && x1 < x2)
  }

  /** The placements the search tries. */
  predicate InSearch(rotation: int, x: int)
  {
    0 <= rotation < 4 && FirstX <= x < Board.Cols + 2
  }

  /**
   * The score of every candidate as a table over (rotation, x):
   * `PlacementScore` for the rotations the search tries, `None` for negative
   * ones, which it never tries.
   */
  ghost function Scores(piece: Pieces.Piece, g: Board.Grid, aiPlayerNum: int, v: int): (f: (int, int) -> Option<real>)
    requires Board.WellFormed(g) && Pieces.IsSquare(piece.shape) && Pieces.HasFilled(piece.shape)
    ensures IsScoreTable(f, piece, g, aiPlayerNum, v)
  {
    (r: int, x: int) => if r >= 0 then PlacementScore(piece, g, aiPlayerNum, v, r, x) else None
  }

  /**
   * `best` is a searched placement with a score, no searched placement scores
   * more, and every one searched before it scores strictly less.
   */
  ghost predicate IsBest(f: (int, int) -> Option<real>, best: Move)
  {
    InSearch(best.rotation, best.x) && f(best.rotation, best.x).Some? &&
    forall r, x :: InSearch(r, x) && f(r, x).Some? ==>
      f(r, x).value <= f(best.rotation, best.x).value &&
      (Before(r, x, best.rotation, best.x) ==> f(r, x).value < f(best.rotation, best.x).value)
  }

  /**
   * `findBestMove`. With no valid placement the result is the piece's own x and
   * no rotation. Otherwise the result is a searched, valid placement whose
   * score is the largest, and every placement searched before it scores
   * strictly less (ties keep the first one found). Neither the board nor the
   * piece is changed: the method has no write access to them.
   */
  method FindBestMove(piece: Pieces.Piece, board: array<seq<int>>, aiPlayerNum: int, colors: seq<string>) returns (best: Move)
    requires Board.WellFormed(board[..]) && Pieces.IsSquare(piece.shape) && Pieces.HasFilled(piece.shape)
    ensures var f := Scores(piece, board[..], aiPlayerNum, Board.ColorCode(colors, piece.color));
      (forall r, x :: InSearch(r, x) ==> f(r, x).None?) ==> best == Move(piece.x, 0)
    ensures var f := Scores(piece, board[..], aiPlayerNum, Board.ColorCode(colors, piece.color));
      (exists r, x :: InSearch(r, x) && f(r, x).Some?) ==> IsBest(f, best)
  {
    var v := Board.ColorCode(colors, piece.color);
    ghost var f := Scores(piece, board[..], aiPlayerNum, v);
    var bestScore: Option<real> := None;
    best := Move(piece.x, 0);
    var rotation := 0;
    while rotation < 4
      invariant 0 <= rotation <= 4
      invariant SearchState(f, piece.x, rotation, FirstX, bestScore, best)
    {
      bestScore, best := SearchRotation(f, piece, board, aiPlayerNum, v, rotation, bestScore, best);
      rotation := rotation + 1;
    }
    Finish(f, piece.x, bestScore, best);
  }

  /** One pass of the rotation loop of `findBestMove`: turn the copy, then try every x. */
  method SearchRotation(ghost f: (int, int) -> Option<real>, piece: Pieces.Piece, board: array<seq<int>>, aiPlayerNum: int, v: int,
                        rotation: int, bestScore: Option<real>, best: Move)
    returns (bestScore': Option<real>, best': Move)
    requires Board.WellFormed(board[..]) && Pieces.IsSquare(piece.shape) && Pieces.HasFilled(piece.shape)
    requires IsScoreTable(f, piece, board[..], aiPlayerNum, v)
    requires 0 <= rotation < 4
    requires SearchState(f, piece.x, rotation, FirstX, bestScore, best)
    ensures SearchState(f, piece.x, rotation + 1, FirstX, bestScore', best')
  {
    bestScore', best' := bestScore, best;
    var shape := TurnPiece(piece, rotation);
    var x := FirstX;
    while x < Board.Cols + 2
      invariant FirstX <= x <= Board.Cols + 2
      invariant SearchState(f, piece.x, rotation, x, bestScore', best')
    {
      var score := TryPlacement(f, piece, board, aiPlayerNum, v, rotation, shape, x);
      bestScore', best' := Step(f, piece.x, rotation, x, score, bestScore', best');
      x := x + 1;
    }
    NextRotation(f, piece.x, rotation, bestScore', best');
  }

  /**
   * The loop invariant of the search after every placement before
   * (rotation, x): `bestScore` is `None` (minus infinity) exactly while no
   * valid placement was found, and otherwise it is the score of `best`, the
   * first placement with the largest score so far.
   */
  ghost predicate SearchState(f: (int, int) -> Option<real>, defaultX: int, rotation: int, x: int,
                              bestScore: Option<real>, best: Move)
  {
    (bestScore.None? ==>
      best == Move(defaultX, 0) &&
      forall r, x' :: InSearch(r, x') && Before(r, x', rotation, x) ==> f(r, x').None?) &&
    (bestScore.Some? ==>
      InSearch(best.rotation, best.x) && Before(best.rotation, best.x, rotation, x) &&
      f(best.rotation, best.x) == bestScore &&
      forall r, x' :: InSearch(r, x') && Before(r, x', rotation, x) && f(r, x').Some? ==>
        f(r, x').value <= bestScore.value &&
        (Before(r, x', best.rotation, best.x) ==> f(r, x').value < bestScore.value))
  }

  /** `if (score > bestScore) { bestScore = score; bestMove = { x, rotation }; }` */
  method Step(ghost f: (int, int) -> Option<real>, ghost defaultX: int, rotation: int, x: int,
              score: Option<real>, bestScore: Option<real>, best: Move)
    returns (bestScore': Option<real>, best': Move)
    requires InSearch(rotation, x) && score == f(rotation, x)
    requires SearchState(f, defaultX, rotation, x, bestScore, best)
    ensures SearchState(f, defaultX, rotation, x + 1, bestScore', best')
  {
    bestScore', best' := bestScore, best;
    if score.Some? && (bestScore.None? || score.value > bestScore.value) {
      bestScore', best' := score, Move(x, rotation);
    }
  }

  /** Past the last x of one rotation is the first x of the next. */
  lemma NextRotation(f: (int, int) -> Option<real>, defaultX: int, rotation: int, bestScore: Option<real>, best: Move)
    requires 0 <= rotation < 4
    requires SearchState(f, defaultX, rotation, Board.Cols + 2, bestScore, best)
    ensures SearchState(f, defaultX, rotation + 1, FirstX, bestScore, best)
  {
  }

  /** After the last rotation, the invariant is the postcondition of the search. */
  lemma Finish(f: (int, int) -> Option<real>, defaultX: int, bestScore: Option<real>, best: Move)
    requires SearchState(f, defaultX, 4, FirstX, bestScore, best)
    ensures (forall r, x :: InSearch(r, x) ==> f(r, x).None?) ==> best == Move(defaultX, 0)
    ensures (exists r, x :: InSearch(r, x) && f(r, x).Some?) ==> IsBest(f, best)
  {
  }
}
