# Falling-block game: a verified Dafny model

This project models the game core of a browser falling-block puzzle ("Tetris") in Dafny and proves properties about it. It also models the bookkeeping state machines around that core.

Game core:
- the 10×20 board and its collision, merge, line-clear and metrics rules;
- the seven piece templates and their clockwise rotation;
- line scoring, levels and drop speed;
- the adaptive engine, which biases the piece distribution towards the shapes that hurt the player;
- the two-player computer search over rotations and columns;
- the earlier stand-alone game with its wall-kick rotation;
- the frame loop;
- keyboard and swipe dispatch.

Bookkeeping:
- the coin wallet;
- betting on matches;
- best-of-three team tournaments;
- achievements and the leaderboard;
- replay recording with the mulberry32 generator.

There is one module per source file. `Common` holds the option type and a few sequence helpers.

The source's own form is kept:
- Objects whose fields change (`TetriCoins`, `BettingSystem`, `TeamTournamentSystem`, `AchievementSystem`, `ReplaySystem`, the adaptive engine's closure, the stand-alone game's closure, the loop manager, the touch state, the custom random source) are classes. Their methods carry `modifies` clauses and state the whole new state.
- The board is an `array` of rows, updated in place by the merge and the line clear.
- Loops become `while` loops with invariants. Each is proved against a specification function, and the source's promises are proved about that function.

Randomness, clocks and storage become parameters:
- a draw of `Math.random` is a `real` in [0, 1);
- a timestamp is an integer or a real;
- a stored value is an already-parsed `Option`;
- a shuffled order, or a round's scores, are sequences passed in.

## Model

| member | source | states |
|---|---|---|
| Board.EmptyRow | js/modules/core/BoardModule.js:15-17 | a row is COLS zeros |
| Board.EmptyGrid | js/modules/core/BoardModule.js:15-17 | the empty board has ROWS rows of COLS cells, all 0 |
| Board.CreateEmpty | js/modules/core/BoardModule.js:15-17 | `createEmpty` returns a fresh array equal to the empty board |
| Board.RowCollides | js/modules/core/BoardModule.js:27-42 | the inner `some` over a shape row finds a filled cell that does not fit |
| Board.ShapeCollides | js/modules/core/BoardModule.js:27-42 | the outer `some` finds some filled cell of the shape that does not fit |
| Board.IsValidPosition | js/modules/core/BoardModule.js:27-42 | valid iff every filled cell lands at 0 <= x < COLS, y < ROWS, and on a zero cell when y >= 0 |
| Board.OffsetIsMove | js/modules/core/BoardModule.js:27-42 | testing with an offset is testing the moved piece |
| Board.AboveTopIgnoresContents | js/modules/core/BoardModule.js:27-42 | cells above the top row are never compared against the board contents |
| Board.CanFallMeansAboveFloor | js/modules/core/BoardModule.js:27-42 | a piece that can move one row down is above the floor |
| Board.Dropped | js/modules/ai/AiVsAi.js:77-79 | the virtual hard drop: same piece, same or lower row, and one more row down collides |
| Board.Merged | js/modules/core/BoardModule.js:50-62 | each filled piece cell with 0 <= y < ROWS and 0 <= x < COLS holds the colour code; every other cell is unchanged |
| Board.ColorCode | js/modules/core/BoardModule.js:57 | `colors.indexOf(color) + 1`: 0 iff the colour is unknown, otherwise its 1-based position |
| Board.MergePieceInto | js/modules/core/BoardModule.js:50-62 | the in-place merge leaves the board equal to `Merged` of the old board |
| Board.MergedBlocksItself | js/modules/core/BoardModule.js:50-62 | after a merge, the merged piece no longer fits where it was |
| Board.CompletedLinesBelow | js/modules/core/BoardModule.js:69-80 | after scanning the bottom n rows: exactly the full rows among them, strictly descending |
| Board.CompletedLines | js/modules/core/BoardModule.js:69-80 | exactly the full rows, strictly descending, distinct, in range |
| Board.ScanRow | js/modules/core/BoardModule.js:71-77 | the row scan reports full iff no cell is 0 |
| Board.FindCompletedLines | js/modules/core/BoardModule.js:69-80 | the loop returns `CompletedLines` of the board |
| Board.SpliceUnshift | js/modules/core/BoardModule.js:92-93 | one splice followed by one unshift keeps the row count |
| Board.SpliceUnshiftInPlace | js/modules/core/BoardModule.js:92-93 | the in-place splice and unshift equals `SpliceUnshift` |
| Board.SingleRowRemoval | js/modules/core/BoardModule.js:91-94 | clearing one row y: row 0 is empty, rows above y move down one, rows below y are unchanged |
| Board.SpliceAll | js/modules/core/BoardModule.js:91-94 | one splice and unshift per index, in the given order, keeps the row count |
| Board.SortAscending | js/modules/core/BoardModule.js:91 | sorting is a permutation of the indices |
| Board.SortAscendingSorted | js/modules/core/BoardModule.js:91 | the sort is ascending, and strictly ascending for distinct indices |
| Board.SortDescending | js/modules/core/BoardModule.js:91 | the descending sort as written is a permutation of the indices |
| Board.SortDescendingSorted | js/modules/core/BoardModule.js:91 | the descending sort is non-increasing |
| Board.SpliceEach | js/modules/core/BoardModule.js:92-94 | the `forEach` loop of splices and unshifts equals `SpliceAll` |
| Board.ClearLinesAsWritten | js/modules/core/BoardModule.js:88-98 | as written: returns the number of indices; the board is `SpliceAll` in descending order, that is `ClearedAsWritten` |
| Board.ClearedAsWritten | js/modules/core/BoardModule.js:91-94 | the board the descending splices leave is well formed |
| Board.DescendingClearLeavesFullRow | js/modules/core/BoardModule.js:91-94 | as written, with full rows y and y-1, row y of the result is old row y-1, and it is still full |
| Board.AscendingSplices | js/modules/core/BoardModule.js:91-94 | splicing in ascending order gives empty rows on top, then the surviving rows in their order |
| Board.Cleared | js/modules/core/BoardModule.js:88-98 | the intended clear: the top rows are empty and every other row is an old row not listed |
| Board.ClearedNothing | js/modules/core/BoardModule.js:88-98 | clearing no rows changes nothing |
| Board.ClearLines | js/modules/core/BoardModule.js:88-98 | corrected clear: returns the number of indices; the board is `Cleared` |
| Board.SingleClearAsIntended | js/modules/core/BoardModule.js:91-94 | with at most one index the clear as written equals the intended `Cleared` |
| Board.ClearedBoardHasNoFullRow | js/modules/core/BoardModule.js:88-98 | clearing the completed rows leaves no full row |
| Board.FirstFilled | js/modules/core/BoardModule.js:109-123 | the topmost filled row of a column, or -1 when it is empty |
| Board.HolesIn | js/modules/core/BoardModule.js:109-123 | the holes of a column are non-negative and lie below its top block |
| Board.Height | js/modules/core/BoardModule.js:109-123 | height is in [0, ROWS]: 0 iff the column is empty, otherwise ROWS minus the topmost filled row |
| Board.Bumpiness | js/modules/core/BoardModule.js:125-131 | the sum of the differences between neighbouring heights is non-negative |
| Board.ColumnHeights | js/modules/core/BoardModule.js:109-123 | one height per column |
| Board.ColumnHoles | js/modules/core/BoardModule.js:109-123 | one hole count per column |
| Board.MetricsOf | js/modules/core/BoardModule.js:105-141 | the metrics record has one height and one hole count per column |
| Board.ScanColumn | js/modules/core/BoardModule.js:110-122 | the inner row loop computes `Height` and `HolesIn` of the column |
| Board.ScanColumns | js/modules/core/BoardModule.js:109-123 | the column loop computes all heights and holes |
| Board.SumBumpiness | js/modules/core/BoardModule.js:125-131 | the bumpiness loop computes `Bumpiness` |
| Board.ComputeMetrics | js/modules/core/BoardModule.js:105-141 | `computeMetrics` returns `MetricsOf` the board |
| Board.MetricsBounds | js/modules/core/BoardModule.js:109-131 | heights in [0, ROWS]; holes[x] <= heights[x]; totals non-negative; maxHeight >= every height |
| Board.EmptyBoardMetrics | js/modules/core/BoardModule.js:105-141 | the empty board has all-zero metrics |
| Pieces.TemplatesAreSquare | js/modules/core/PieceModule.js:9-17 | every template is a square 0/1 matrix of size 2 to 4 |
| Pieces.TemplatesHaveFilled | js/modules/core/PieceModule.js:9-17 | every template has a filled cell |
| Pieces.Create | js/modules/core/PieceModule.js:40-50 | the template's shape and colour, its index, y = 0, and x centring the shape on the board |
| Pieces.SpawnColumn | js/modules/core/PieceModule.js:47 | on 10 columns the spawn x is 3 for I and 4 for every other shape |
| Pieces.Rotated | js/modules/core/PieceModule.js:57-70 | the clockwise turn of a square matrix is a square matrix of the same size |
| Pieces.RotatedCells | js/modules/core/PieceModule.js:63-67 | rotated[x][size-1-y] == original[y][x] for every cell |
| Pieces.Rotate | js/modules/core/PieceModule.js:57-70 | the nested loop fills a fresh matrix equal to `Rotated`; the piece is not changed |
| Pieces.RotateTwice | js/modules/core/PieceModule.js:63-67 | two turns give a half turn |
| Pieces.RotateFourTimes | js/modules/core/PieceModule.js:63-67 | four turns give back the original matrix |
| Pieces.TurnImageSize | js/modules/core/PieceModule.js:63-67 | turning cell positions is one-to-one |
| Pieces.RotatePreservesFilledCount | js/modules/core/PieceModule.js:63-67 | a turn keeps the number of filled cells |
| Pieces.RandomSource.constructor | js/modules/core/PieceModule.js:32 | no custom generator at first |
| Pieces.RandomSource.SetRng | js/modules/core/PieceModule.js:76-78 | `setRNG` installs the generator, or removes it with null |
| Pieces.RandomSource.GetRandom | js/modules/core/PieceModule.js:84-86 | the custom generator's next value when one is set, the default draw otherwise |
| Scoring.LineScorePositive | js/modules/game/ScoringSystem.js:8-19 | the line score is non-negative, and positive iff 1 to 4 lines are cleared |
| Scoring.CalculateLineScore | js/modules/game/ScoringSystem.js:16-19 | no line or more than four scores 0; at level 1 a clear of 1 to 4 lines scores its table entry |
| Scoring.LineScoreGrowsWithLines | js/modules/game/ScoringSystem.js:8-19 | more lines score more at the same level; 4 lines at level 3 score 3600 |
| Scoring.CalculateLevel | js/modules/game/ScoringSystem.js:26-28 | level - 1 tens of lines have been cleared, and fewer than level tens |
| Scoring.LevelMonotone | js/modules/game/ScoringSystem.js:26-28 | the level is at least 1 and non-decreasing; 23 lines give level 3 |
| Scoring.CalculateDropInterval | js/modules/game/ScoringSystem.js:35-37 | the interval is 1100 - 100·level up to level 10, and 100 from level 10 on |
| Scoring.DropIntervalBounds | js/modules/game/ScoringSystem.js:35-37 | the interval is in [100, 1000] and non-increasing; level 5 gives 600 |
| Scoring.RemoveCompletedLines | js/modules/game/ScoringSystem.js:45-50 | reports the number of completed rows and leaves the board `clearLines` leaves as written (`ClearedAsWritten`: descending splices); with at most one completed row that is exactly the intended clear; no full row, no change |
| Scoring.LineClearConfig.constructor | js/modules/game/ScoringSystem.js:44-103 | the configuration record at the start of a game |
| Scoring.LineClearConfig.AdvanceCounters | js/modules/game/ScoringSystem.js:52-61 | lines grow by the count, the score by the line score at the old level, then the level and interval follow |
| Scoring.LineClearConfig.RewardPlayer | js/modules/game/ScoringSystem.js:64-85 | coins grow by exactly the line reward plus `StreakBonus`; the tetris streak advances or resets; the first tetris is written at most once |
| Scoring.StreakBonus | js/modules/game/ScoringSystem.js:72-74 | a Streak reward is paid only for a Tetris that brings the streak to 3 while Streak is locked |
| Scoring.LineClearConfig.ApplyLineClear | js/modules/game/ScoringSystem.js:50-100 | counters as above; the exact reward only outside AI-vs-AI mode or under player control; match statistics written at most once |
| Scoring.LineClearConfig.ProcessLineClear | js/modules/game/ScoringSystem.js:44-103 | the board is the as-written clear of the completed rows (the intended one when at most one row is complete); no completed line changes nothing and returns 0; otherwise the full update with the exact reward, with `firstTetris` and `firstToReach1000` write-once |
| Adaptive.Min | js/modules/ai/AdaptiveEngine.js:29 | `Math.min` is the smaller argument |
| Adaptive.Max | js/modules/ai/AdaptiveEngine.js:29 | `Math.max` is the larger argument |
| Adaptive.SanitizeWeight | js/modules/ai/AdaptiveEngine.js:27-30 | a finite positive stored weight is clamped into [0.4, 8]; anything else keeps the current weight |
| Adaptive.SanitizeHoles | js/modules/ai/AdaptiveEngine.js:35-36 | a finite positive hole count is kept; anything else becomes 0 |
| Adaptive.MergedWeights | js/modules/ai/AdaptiveEngine.js:25-32 | loading keeps the length and keeps every weight in range |
| Adaptive.LoadedWeights | js/modules/ai/AdaptiveEngine.js:25-32 | only an array of the right length is merged; weights stay in range |
| Adaptive.MergedHoles | js/modules/ai/AdaptiveEngine.js:33-38 | every loaded hole count is non-negative |
| Adaptive.LoadedHoles | js/modules/ai/AdaptiveEngine.js:33-38 | only an array of the right length is used; non-negative counts stay non-negative |
| Adaptive.ApplyStoredWeights | js/modules/ai/AdaptiveEngine.js:26-31 | the `forEach` over stored weights equals `MergedWeights` |
| Adaptive.ApplyStoredHoles | js/modules/ai/AdaptiveEngine.js:34-37 | the `forEach` over stored hole counts equals `MergedHoles` |
| Adaptive.LoadedMistakes | js/modules/ai/AdaptiveEngine.js:39-41 | only a non-negative stored total is taken, so the total stays non-negative |
| Adaptive.PersistThenLoad | js/modules/ai/AdaptiveEngine.js:18-58 | loading a persisted state gives back the weights, hole counts and total |
| Adaptive.LoadIdempotent | js/modules/ai/AdaptiveEngine.js:18-45 | loading the same stored state twice is loading it once |
| Adaptive.UpdatedWeightInRange | js/modules/ai/AdaptiveEngine.js:88-113 | a weight in [0.4, 8] stays in [0.4, 8] after a placement |
| Adaptive.UpdatedWeight | js/modules/ai/AdaptiveEngine.js:88-113 | an observation with no new holes, no stack raised by 3 and no cleared line leaves the weight unchanged |
| Adaptive.UpdatedWeightDirection | js/modules/ai/AdaptiveEngine.js:88-113 | new holes or a tall stack never lower the weight; cleared lines alone never raise it |
| Adaptive.AdjustWeight | js/modules/ai/AdaptiveEngine.js:88-113 | the three sequential updates of one weight equal `UpdatedWeight` |
| Adaptive.Reasons | js/modules/ai/AdaptiveEngine.js:89-108 | at most two reasons; none iff no hole was created and the height rose by less than 3 |
| Adaptive.PushHighlight | js/modules/ai/AdaptiveEngine.js:116-127 | push, then shift past 6: the list ends with the new entry and holds at most 6 |
| Adaptive.PrefixIncreasing | js/modules/ai/AdaptiveEngine.js:66-79 | prefix sums of in-range weights strictly increase |
| Adaptive.SelectionUnique | js/modules/ai/AdaptiveEngine.js:66-79 | at most one index has the threshold in its slice of the wheel |
| Adaptive.EveryShapeSelectable | js/modules/ai/AdaptiveEngine.js:66-79 | every shape owns a non-empty slice of the wheel |
| Adaptive.AdaptiveEngine.constructor | js/modules/ai/AdaptiveEngine.js:7-16 | weights 1, zero hole counts, no highlights, no metrics |
| Adaptive.AdaptiveEngine.LoadFromStorage | js/modules/ai/AdaptiveEngine.js:18-45 | weights, hole counts and total become their loaded values; the session state is kept |
| Adaptive.AdaptiveEngine.ResetForNewGame | js/modules/ai/AdaptiveEngine.js:60-64 | the metrics of the board, no highlights, zero session holes; learned weights kept |
| Adaptive.AdaptiveEngine.SelectShapeIndex | js/modules/ai/AdaptiveEngine.js:66-79 | the first index whose prefix sum reaches the threshold, always in [0, numShapes) |
| Adaptive.AdaptiveEngine.RegisterPlacement | js/modules/ai/AdaptiveEngine.js:81-132 | missing metrics change nothing; otherwise the `Observe` update |
| Adaptive.AdaptiveEngine.Observe | js/modules/ai/AdaptiveEngine.js:86-130 | only the placed shape's weight changes, to `UpdatedWeight`; hole counters grow by the new holes; a highlight only on a positive observation |
| Adaptive.AdaptiveEngine.LiveHint | js/modules/ai/AdaptiveEngine.js:134-141 | observing iff there is no highlight; otherwise the latest highlight's shape |
| Adaptive.PositiveEntries | js/modules/ai/AdaptiveEngine.js:160-162 | the (index, value) entries with a positive session count, and only those |
| Adaptive.InsertRank | js/modules/ai/AdaptiveEngine.js:163 | one insertion step of the sort is a permutation |
| Adaptive.InsertRankSorted | js/modules/ai/AdaptiveEngine.js:163 | inserting into a descending list keeps it descending |
| Adaptive.SortRanks | js/modules/ai/AdaptiveEngine.js:163 | the sort by value is a descending permutation |
| Adaptive.RankedShapesMembers | js/modules/ai/AdaptiveEngine.js:160-163 | the ranking holds exactly the shapes with a positive session count |
| Adaptive.RankedShapesFirstIsLargest | js/modules/ai/AdaptiveEngine.js:160-166 | the ranking is descending and its first entry has the largest count |
| AiVsAi.EvaluateNonPositive | js/modules/ai/AiVsAi.js:30-41 | every board evaluates to at most 0 for both players |
| AiVsAi.Evaluate | js/modules/ai/AiVsAi.js:30-41 | non-negative metrics evaluate to at most 0, and all-zero metrics to 0, for both players |
| AiVsAi.EvaluateEmptyBoard | js/modules/ai/AiVsAi.js:30-41 | the empty board evaluates to 0 |
| AiVsAi.MoreHolesScoreLower | js/modules/ai/AiVsAi.js:30-41 | one more hole strictly lowers the evaluation |
| AiVsAi.EvaluatePosition | js/modules/ai/AiVsAi.js:30-41 | -0.5·aggregate - 3·holes - 0.3·bumpiness for player 1, -1.2·max - 2·holes - 0.5·bumpiness otherwise, on the board's metrics |
| AiVsAi.Turned | js/modules/ai/AiVsAi.js:60-69 | r quarter turns of a square matrix keep it square and of the same size |
| AiVsAi.TurnedHasFilled | js/modules/ai/AiVsAi.js:60-69 | turning keeps a filled cell |
| AiVsAi.TurnPiece | js/modules/ai/AiVsAi.js:57-69 | the rotation loop on the deep copy gives `Turned`; the piece is not changed |
| AiVsAi.DropPiece | js/modules/ai/AiVsAi.js:77-79 | the drop loop stops at `Dropped`: one row further down collides |
| AiVsAi.SimulateMerge | js/modules/ai/AiVsAi.js:84-95 | the copied board receives `Merged`: only in-bounds filled cells are written |
| AiVsAi.Candidate | js/modules/ai/AiVsAi.js:72-75 | a candidate is the turned shape at column x and the original row |
| AiVsAi.Resting | js/modules/ai/AiVsAi.js:72-79 | the resting candidate is lower than the start, and one row further down collides |
| AiVsAi.TryPlacement | js/modules/ai/AiVsAi.js:72-98 | one candidate's score, or none when its resting place collides |
| AiVsAi.Scores | js/modules/ai/AiVsAi.js:56-98 | the table of all candidate scores |
| AiVsAi.FindBestMove | js/modules/ai/AiVsAi.js:51-108 | no valid placement gives {piece.x, 0}; otherwise a searched valid placement with the largest score, every earlier one strictly lower |
| AiVsAi.SearchRotation | js/modules/ai/AiVsAi.js:56-104 | one rotation pass keeps the search invariant |
| AiVsAi.Step | js/modules/ai/AiVsAi.js:98-102 | strict `>` replaces the best only by a strictly higher score |
| AiVsAi.Finish | js/modules/ai/AiVsAi.js:52-107 | the search invariant at the end gives the default move or the best move |
| Classic.KeptRows | tetris.js:315-330 | the rows that are not full, in order |
| Classic.FullCount | tetris.js:315-347 | full rows and kept rows add up to the board |
| Classic.Compacted | tetris.js:315-330 | the board after the clear: well formed, with no full row |
| Classic.RemoveFullRows | tetris.js:315-330 | the rescanning loop leaves `Compacted` of the old board and counts the full rows |
| Classic.ScannedAll | tetris.js:318-330 | at the end of the rescan the board is `Compacted` and the count is `FullCount` |
| Classic.RescanRemove | tetris.js:319-325 | removing a full row and re-examining the same index keeps the rescan invariant |
| Classic.RescanKeep | tetris.js:326-329 | moving up past a row that is not full keeps the rescan invariant |
| Classic.MergedFullRows | tetris.js:315-330 | a merged piece completes at most as many rows as its size |
| Classic.SpawnFitsEmptyBoard | tetris.js:70-78 | every spawned piece fits the empty board |
| Classic.Kicks | tetris.js:280-300 | the kick offsets 0, 1, -1, 2, -2, …, size, -size |
| Classic.KickOffsets | tetris.js:280-300 | the offset loop builds `Kicks` |
| Classic.FirstFit | tetris.js:285-296 | the first offset that fits, and none before it fits |
| Classic.FindKick | tetris.js:285-296 | the search loop finds `FirstFit` |
| Classic.KickRotate | tetris.js:272-302 | the rotation with kicks equals `Rotation` |
| Classic.Rotation | tetris.js:272-302 | the piece after `rotatePiece` is the old piece or its quarter turn at another column, nothing else changed |
| Classic.RotationFits | tetris.js:272-302 | the rotated piece at the first fitting kick, or the old piece exactly when none fits |
| Classic.BlockedCells | tetris.js:211-226 | a collision iff some filled cell is out of columns, below the floor, or on a filled cell at y >= 0 |
| Classic.Game.CheckCollision | tetris.js:211-226 | a collision at an offset iff the moved piece is not in a valid position |
| Classic.Fall | tetris.js:305-312 | the hard-drop loop reaches `Dropped` and adds 2 per row |
| Classic.Game.constructor | tetris.js:48-61 | the initial game variables |
| Classic.Game.MergePiece | tetris.js:229-241 | the board becomes `Merged` with the current piece |
| Classic.Game.MovePieceLeft | tetris.js:256-261 | x - 1 when that fits, otherwise nothing changes |
| Classic.Game.MovePieceRight | tetris.js:264-269 | x + 1 when that fits, otherwise nothing changes |
| Classic.Game.RotatePiece | tetris.js:272-302 | the piece becomes `Rotation` of itself; nothing else changes |
| Classic.Game.UpdateScore | tetris.js:350-360 | highScore becomes max(highScore, score) |
| Classic.Game.ClearLines | tetris.js:315-347 | the board is `Compacted`; lines, score (at the old level), level and interval are updated |
| Classic.Game.SpawnPiece | tetris.js:363-385 | the next piece becomes current; gameOver is set iff the new current piece collides |
| Classic.Game.LowerPiece | tetris.js:244-253 | a piece that fits one row down moves down; the counter restarts |
| Classic.Game.LockPiece | tetris.js:244-253 | a blocked piece is merged, lines are cleared, the score is kept, the next piece spawns |
| Classic.Game.MovePieceDown | tetris.js:244-253 | either lowered or locked, as the collision test decides |
| Classic.Game.HardDrop | tetris.js:305-312 | `HardDropped`: dropped to rest, 2 points per row fallen, then the lock of `movePieceDown` and the high score |
| Classic.Game.SoftDrop | tetris.js:469-472 | `SoftDropped`: lowered or locked as `movePieceDown` decides, one more point, and the high score follows the score |
| Classic.KeyCommand | tetris.js:459-490 | nothing after a game over (a pause does not block keys); otherwise each handled key has exactly its command |
| Classic.Game.HandleKey | tetris.js:459-490 | runs the key's command; only the space bar's default is prevented; an ignored key or the grid toggle changes nothing |
| Classic.Game.Update | tetris.js:398-411 | nothing when over or paused; otherwise the clock advances, and past the interval the piece moves down once |
| Classic.Game.StartGame | tetris.js:414-435 | an empty board, zero counters, level 1, interval 1000, a spawned piece, not paused |
| Classic.Game.TogglePause | tetris.js:438-456 | nothing after a game over; otherwise paused flips, and resuming restarts the clock |
| Classic.EmptyBoardHasNoFullRow | tetris.js:65-67 | the empty board has no full row |
| GameLoop.Delta | js/modules/core/GameLoopManager.js:34 | 0 on the first frame, otherwise time - lastTime |
| GameLoop.Advance | js/modules/core/GameLoopManager.js:34-43 | lastTime becomes time; without auto drop nothing else changes; past the interval one drop and the counter goes to 0 |
| GameLoop.ResumedFrameNeedsFullInterval | js/modules/core/GameLoopManager.js:79-82 | after a resume a drop needs a whole interval since the resume |
| GameLoop.CounterTracksElapsed | js/modules/core/GameLoopManager.js:34-43 | between drops the counter is the time elapsed |
| GameLoop.LoopManager.constructor | js/modules/core/GameLoopManager.js:17-111 | the module's initial values |
| GameLoop.LoopManager.Reset | js/modules/core/GameLoopManager.js:21-25 | clock and counter 0 |
| GameLoop.LoopManager.Update | js/modules/core/GameLoopManager.js:31-48 | nothing when over or paused; otherwise the `Advance` step and a new frame |
| GameLoop.LoopManager.CancelPending | js/modules/core/GameLoopManager.js:56-58 | a set handle is cancelled |
| GameLoop.LoopManager.Start | js/modules/core/GameLoopManager.js:55-67 | the pending frame is cancelled, the clock restarts at now, counter 0, a new frame |
| GameLoop.LoopManager.Pause | js/modules/core/GameLoopManager.js:73-84 | pausing cancels the frame and keeps counters; resuming sets the clock to now and the counter to 0 |
| GameLoop.LoopManager.Stop | js/modules/core/GameLoopManager.js:89-94 | a set handle is cancelled and cleared |
| GameLoop.LoopManager.ResetDropCounter | js/modules/core/GameLoopManager.js:99-102 | counter 0 and clock at now |
| Input.KeydownAction | js/modules/input/InputManager.js:17-77 | after a game over only Enter/Space (start); no piece blocks arrows and Space; paused allows only p/P; T only in AI-vs-AI mode; at most one action |
| Input.KeydownPrevents | js/modules/input/InputManager.js:19-56 | the default is prevented iff the key starts after a game over or hard-drops |
| Input.Abs | js/modules/input/InputManager.js:112-113 | `Math.abs` |
| Input.SwipeAction | js/modules/input/InputManager.js:112-137 | within 30 on both axes a tap rotates; otherwise the larger axis decides left, right or hard drop; an upward swipe does nothing |
| Input.TouchInput.constructor | js/modules/input/InputManager.js:84-90 | the touch start begins at (0, 0) |
| Input.TouchInput.HandleTouchStart | js/modules/input/InputManager.js:84-90 | an active game records the start point; an inactive one ignores it |
| Input.TouchInput.HandleTouchEnd | js/modules/input/InputManager.js:106-138 | inactive does nothing; otherwise the swipe from the recorded start |
| Currency.LoadBalance | js/currency.js:13-26 | a non-negative stored balance is kept; otherwise 1000 |
| Currency.SaveThenLoad | js/currency.js:13-36 | a saved non-negative balance loads back unchanged |
| Currency.GetLineReward | js/currency.js:69-77 | positive iff 1 to 4 lines (10, 30, 100, 500), 0 otherwise |
| Currency.LineRewardIncreasing | js/currency.js:69-77 | more lines pay strictly more |
| Currency.TetriCoins.constructor | js/currency.js:3-10 | the balance is the loaded one |
| Currency.TetriCoins.CanAfford | js/currency.js:64-66 | affordable iff amount <= balance |
| Currency.TetriCoins.AddCoins | js/currency.js:44-51 | succeeds iff amount > 0 and then adds it; otherwise no change; the balance stays non-negative |
| Currency.TetriCoins.DeductCoins | js/currency.js:54-61 | succeeds iff amount > 0 and affordable, then subtracts; the balance never goes negative |
| Currency.TetriCoins.AwardLinesCleared | js/currency.js:80-87 | adds and returns the line reward (0 adds nothing) |
| Currency.TetriCoins.Reset | js/currency.js:130-138 | the balance goes back to 1000 |
| Betting.LoadJackpot | js/betting.js:61-74 | a non-negative stored jackpot is kept; otherwise 0 |
| Betting.GetOdds | js/betting.js:185-205 | winner 2, first_tetris 5, score_race 1.5, score_range from its table (default 3), any other type 2 |
| Betting.WonBetProfits | js/betting.js:185-232 | a won bet of at least 10 pays at least 5 more than the stake |
| Betting.Payout | js/betting.js:229 | the payout is `amount · odds` rounded down |
| Betting.JackpotShareIsTenth | js/betting.js:166-170 | the jackpot share is a tenth of the bet, rounded down |
| Betting.JackpotShare | js/betting.js:167 | for a non-negative stake the share is between 0 and a tenth of it, within one |
| Betting.IsInScoreRange | js/betting.js:270-281 | inclusive bounds; an unknown range matches only 0 |
| Betting.NamedRangesPartition | js/betting.js:270-281 | the named ranges are disjoint and cover every non-negative score |
| Betting.BetWon | js/betting.js:214-227 | each bet type wins by its own test; an unknown type never wins |
| Betting.Record | js/betting.js:233-244 | one more bet; won plus lost grows by one; a win extends the streak, a loss resets it; the best streak never falls |
| Betting.BettingSystem.constructor | js/betting.js:3-34 | the loaded history, jackpot and statistics; no bet, betting off |
| Betting.BettingSystem.StartBetting | js/betting.js:108-134 | refused iff betting is already active; otherwise active with no bet and a fresh countdown |
| Betting.BettingSystem.StopBetting | js/betting.js:137-144 | betting and the countdown stop; nothing else changes |
| Betting.BettingSystem.PlaceBet | js/betting.js:147-182 | refused with no change when inactive, outside [10, 500] or unaffordable; otherwise the stake is taken, the bet recorded and the jackpot grows by a tenth in a tournament |
| Betting.BettingSystem.ResolveBet | js/betting.js:208-267 | no bet gives null and changes no wallet, statistics, history or achievement; otherwise payout floor(amount·odds) when won and 0 when lost, statistics by `Record`, the bet appended to the history, and the wallet grows by exactly the payout plus the rewards of the achievements the new statistics unlock; the current bet is null afterwards |
| Betting.BettingSystem.NotifyAchievements | js/betting.js:246-257 | with an achievement system, Lucky unlocks at a streak of 5, Analyst records the wins, and the wallet grows by exactly the rewards of the newly unlocked achievements |
| Betting.BettingSystem.StartTournament | js/betting.js:284-287 | the tournament starts with 0 matches |
| Betting.BettingSystem.EndTournament | js/betting.js:290-304 | a positive jackpot with a bet history is paid out and emptied; the tournament ends |
| Betting.BettingSystem.NextTournamentMatch | js/betting.js:307-313 | only in a tournament: one more match, done at 5 or more |
| Tournament.FindTeam | js/team-tournament.js:99-116 | the first index with the id, or -1 when there is none |
| Tournament.NewPlayers | js/team-tournament.js:72-84 | one player per index below the count, each with zero statistics |
| Tournament.AfterMatch | js/team-tournament.js:320-336 | one more match, a won match when won, the total grows, avgScore is the floor of total over played |
| Tournament.RecordMatch | js/team-tournament.js:320-336 | only the team with the id has its statistics updated |
| Tournament.AfterGame | js/team-tournament.js:199-212 | each player's games, total and best score after one game |
| Tournament.Played | js/team-tournament.js:193-214 | the team's players after their games; every other team, and the team's id, name and stats, unchanged |
| Tournament.PlayedKeepsPlaces | js/team-tournament.js:193-214 | playing one team's games does not move any team |
| Tournament.PlayTeam | js/team-tournament.js:193-214 | the players' loop updates each player by `AfterGame` and sums the round score |
| Tournament.GenerateBracket | js/team-tournament.js:137-154 | consecutive teams are paired into floor(n/2) matches |
| Tournament.BracketTeamsDisjoint | js/team-tournament.js:137-154 | with distinct teams, no team is in two matches |
| Tournament.BracketCoversOrder | js/team-tournament.js:137-154 | every team except an odd last one plays in the bracket |
| Tournament.MatchWinner | js/team-tournament.js:274-309 | more rounds won wins; on equal rounds the higher total; equal totals go to team 2; winner differs from loser |
| Tournament.TwoRoundsDecide | js/team-tournament.js:264-309 | two round wins decide the match whatever the totals |
| Tournament.Credited | js/team-tournament.js:384-392 | the winner's tournament count grows by one (from 0 when absent); nothing else changes |
| Tournament.TeamTournamentSystem.constructor | js/team-tournament.js:3-39 | the loaded teams and statistics; no tournament and no match |
| Tournament.TeamTournamentSystem.CreateTeam | js/team-tournament.js:55-91 | an omitted size is 3 and always accepted; sizes outside [2, 4] are refused; otherwise exactly one team with that many players is appended |
| Tournament.TeamTournamentSystem.DeleteTeam | js/team-tournament.js:99-107 | the first team with the id is removed; no such team changes nothing |
| Tournament.TeamTournamentSystem.StartTournament | js/team-tournament.js:110-134 | fewer than 2 ids or an unknown id is refused; otherwise index 0, no winners, one more tournament played |
| Tournament.TeamTournamentSystem.StartTeamMatch | js/team-tournament.js:157-178 | an index outside the bracket is refused; otherwise a fresh match between the pair, round 0 |
| Tournament.TeamTournamentSystem.PlayFor | js/team-tournament.js:193-214 | the teams become `Played` for one side |
| Tournament.TeamTournamentSystem.PlayBoth | js/team-tournament.js:194-214 | both player loops: the round scores are the game totals, and the teams are `Played` for the first side, then the second |
| Tournament.TeamTournamentSystem.PlayRound | js/team-tournament.js:181-245 | both sides play; team 1 wins the round only on a strictly higher score; rounds won add up to the round count |
| Tournament.TeamTournamentSystem.IsMatchComplete | js/team-tournament.js:264-271 | complete iff a side has two round wins or three rounds were played |
| Tournament.TeamTournamentSystem.ThreeRoundsComplete | js/team-tournament.js:264-271 | a match is always complete after three rounds |
| Tournament.TeamTournamentSystem.GetMatchWinner | js/team-tournament.js:274-309 | `MatchWinner` of the live match, none without one |
| Tournament.TeamTournamentSystem.CompleteMatch | js/team-tournament.js:312-354 | both teams' statistics, the bracket winner, the winners list and the best score are updated; the match is cleared |
| Tournament.TeamTournamentSystem.IsTournamentComplete | js/team-tournament.js:357-360 | complete iff the index has reached the bracket length |
| Tournament.TeamTournamentSystem.GetTournamentWinner | js/team-tournament.js:363-373 | the last winner once the tournament is complete, none before |
| Tournament.TeamTournamentSystem.CompleteTournament | js/team-tournament.js:376-400 | the statistics are `Credited` with the tournament's winner, and the tournament ends |
| Tournament.TeamTournamentSystem.EarlyEndCreditsNobody | js/team-tournament.js:363-400 | ending an unfinished tournament credits nobody |
| Tournament.TeamTournamentSystem.NextMatch | js/team-tournament.js:403-415 | the index advances; past the end the tournament is completed |
| Achievements.InitialTable | js/achievements.js:3-58 | the five achievements, all locked |
| Achievements.Unlock | js/achievements.js:93-96 | the achievement is unlocked and every other one unchanged |
| Achievements.Unlocked | js/achievements.js:93-94 | an unlocked achievement carries its unlock time and keeps its reward and progress |
| Achievements.Paid | js/achievements.js:98-100 | an unlock pays the reward when it is positive, otherwise nothing |
| Achievements.UnlockIdempotent | js/achievements.js:87-106 | after an unlock the same id cannot be unlocked again; the others are unaffected |
| Achievements.UnlockedIds | js/achievements.js:170-184 | the unlocked ids; all ids iff every achievement is unlocked |
| Achievements.FindName | js/achievements.js:232 | the first entry with the name, or -1 |
| Achievements.Upsert | js/achievements.js:232-244 | an existing name gets the larger balance; a new name is appended |
| Achievements.UpsertNeverLowers | js/achievements.js:232-244 | an existing name's balance never decreases |
| Achievements.InsertByBalance | js/achievements.js:247 | one insertion step is a permutation |
| Achievements.InsertByBalanceSorted | js/achievements.js:247 | insertion keeps the list sorted by balance, descending |
| Achievements.SortByBalance | js/achievements.js:247 | the sort is a descending permutation |
| Achievements.AddLeaderboardEntry | js/achievements.js:218-257 | the leaderboard is sorted descending and holds at most 10 entries |
| Achievements.LeaderboardKeepsTop | js/achievements.js:247-248 | the kept entries are the largest 10 of the updated list |
| Achievements.AchievementSystem.constructor | js/achievements.js:3-58 | the initial table and the wallet |
| Achievements.AchievementSystem.UnlockAchievement | js/achievements.js:87-106 | succeeds iff the id is known and locked; then unlocks it and pays a positive reward |
| Achievements.AchievementSystem.CheckBettingAchievements | js/achievements.js:109-124 | Lucky's and Analyst's new entries exactly: Lucky unlocks at a streak of 5; a win sets Analyst's progress to the wins and unlocks it at 10; an unlocked entry stays as it was; the wallet grows by the rewards of the new unlocks; others unchanged |
| Achievements.AchievementSystem.CheckSniperAchievement | js/achievements.js:127-135 | only a won score_range bet while locked adds progress; it unlocks at 3 and pays its reward exactly then; otherwise entry and wallet unchanged |
| Achievements.AchievementSystem.CheckBalanceAchievement | js/achievements.js:138-142 | Rich unlocks at a balance of 10000 unless it already was, paying its reward exactly then; otherwise nothing changes |
| Achievements.AchievementSystem.CheckTetrisStreak | js/achievements.js:145-154 | only while locked: progress follows the streak, unlocks at 3 and pays the reward exactly then; once unlocked nothing changes |
| Achievements.AchievementSystem.ResetTetrisStreak | js/achievements.js:157-162 | only while locked: progress goes to 0 |
| Achievements.AchievementSystem.GetProgress | js/achievements.js:180-184 | floor(unlocked·100/5), in [0, 100]; 100 iff all are unlocked |
| Achievements.AchievementSystem.ResetAll | js/achievements.js:340-349 | every achievement is locked with progress 0 |
| Prng.ToUnit | js/modules/game/ReplaySystem.js:21 | the 32-bit result over 2^32 is in [0, 1) |
| Prng.Mix | js/modules/game/ReplaySystem.js:19-21 | the 32-bit output mixing of one call; the zero word mixes to zero |
| Prng.States | js/modules/game/ReplaySystem.js:14-22 | the states after 1..n calls; equal seeds give equal sequences |
| Prng.StatesAreAdvanced | js/modules/game/ReplaySystem.js:16 | the i-th state is the seed advanced i+1 times by 0x6D2B79F5, wrapping |
| Prng.StatesSplit | js/modules/game/ReplaySystem.js:14-22 | n+m calls are n calls followed by m calls from where they stopped |
| Prng.Mulberry32.constructor | js/modules/game/ReplaySystem.js:14-15 | the state is the seed as a 32-bit word |
| Prng.Mulberry32.Next | js/modules/game/ReplaySystem.js:16-21 | the state advances by 0x6D2B79F5 (wrapping) and the result is the mixed word over 2^32, in [0, 1) |
| Replay.EncodeType | js/modules/game/ReplaySystem.js:60-68 | a known type becomes its code; anything else is kept |
| Replay.DecodeType | js/modules/game/ReplaySystem.js:175-183 | a known code becomes its type; anything else is kept |
| Replay.TypeRoundTrip | js/modules/game/ReplaySystem.js:60-183 | decoding the encoding gives back the type iff it is a known type or not a code |
| Replay.SeedOf | js/modules/game/ReplaySystem.js:42 | the seed is in [0, 2147483647) |
| Replay.Export | js/modules/game/ReplaySystem.js:95-110 | the data has v, s, m and e holding the version, seed, metadata and events |
| Replay.Import | js/modules/game/ReplaySystem.js:117-133 | accepted iff v, s and e are truthy and e is an array; seed 0 is rejected |
| Replay.ExportImport | js/modules/game/ReplaySystem.js:95-133 | an export imports back iff its seed is not 0 |
| Replay.ScheduleTimers | js/modules/game/ReplaySystem.js:189-214 | one timer per event at its time, then the completion timer 1000 after the last event |
| Replay.SaveReplay | js/modules/game/ReplaySystem.js:231-251 | the new replay first, then the old ones, at most 10 |
| Replay.DeleteReplay | js/modules/game/ReplaySystem.js:275-288 | an index in range removes that entry; any other changes nothing |
| Replay.SavedListBounded | js/modules/game/ReplaySystem.js:242-243 | repeated saves never hold more than 10 |
| Replay.ReplaySystem.constructor | js/modules/game/ReplaySystem.js:25-34 | no events, not recording, not playing, no generator |
| Replay.ReplaySystem.StartRecording | js/modules/game/ReplaySystem.js:40-49 | a seed in range, a generator seeded with it, no events, recording on |
| Replay.ReplaySystem.RecordEvent | js/modules/game/ReplaySystem.js:56-77 | not recording changes nothing; otherwise exactly one event with its code is appended |
| Replay.ReplaySystem.StopRecording | js/modules/game/ReplaySystem.js:83-89 | recording stops; the metadata gets the date |
| Replay.ReplaySystem.ExportData | js/modules/game/ReplaySystem.js:95-110 | the export of the current session imports back iff the seed is not 0 |
| Replay.ReplaySystem.Fires | js/modules/game/ReplaySystem.js:191-200 | a timer's callback runs only while playing, with the decoded type |
| Replay.ReplaySystem.RecordedTypePlaysBack | js/modules/game/ReplaySystem.js:175-200 | a recorded known type plays back as itself |
| Replay.ReplaySystem.StopPlayback | js/modules/game/ReplaySystem.js:220-224 | every timeout is cleared, the list emptied, playing off |
| Replay.ReplaySystem.StartPlaybackAsWritten | js/modules/game/ReplaySystem.js:167-215 | as written: playback ends not playing, so no event callback ever runs |
| Replay.ReplaySystem.StartPlayback | js/modules/game/ReplaySystem.js:167-215 | corrected: playing, and every scheduled event runs its callback with the decoded type |
| Replay.ReplaySystem.Snapshot | js/modules/game/ReplaySystem.js:233-240 | the saved entry holds the exported data, its metadata and the time |
| Common.IndexOf | js/modules/core/BoardModule.js:57 | the first position of the value, or -1 iff it is absent |
| Common.MaxFromZero | js/modules/core/BoardModule.js:129 | `Math.max(0, ...)`: at least 0 and every element, and one of them when positive |
| Common.Take | js/achievements.js:248 | `slice(0, n)`: the first min(n, length) elements |

## Left out

- Storage, JSON parsing and printing, base64 and URI encoding are not modelled. Stored values arrive already parsed, and persisting is a no-op.
- Timers, animation frames, the DOM, the canvas, sound, translations and notifications are not modelled. Timers appear only as the list of what was scheduled or cleared.
- `Math.random`, `Date.now` and `performance.now` are parameters. This covers the piece choice, the selection threshold, seeds, the shuffled team order, the simulated player scores and timestamps. Probabilities are not modelled.
- `checkDailyBonus` (js/currency.js:90-104) is not modelled: it compares date strings from the clock.
- The currency listeners and `formatCoins` are not modelled: they are callbacks and display text.
- The betting countdown ticks and the betting panels are not modelled: they are timers and DOM. `getWinRate` and `getStats` are plain reads.
- `getSummary` and the text of `getLiveHint` are not modelled. Only the branch of `getLiveHint` and the descending ranking behind `getSummary` are modelled.
- Pieces.RandomSource: the injected generator is a `Prng.Mulberry32`. `setRNG` accepts any function, and other generators are not modelled.
- Board.MergePieceInto: requires every visible filled cell to lie on the board. The source throws for a row at or below ROWS and writes outside the columns otherwise; both are not modelled. Every merge in this model is of a piece at a valid position, where this holds.
- Scoring.RemoveCompletedLines: uses the board's `clearLines` as written. With two adjacent full rows it leaves a full row (see Findings), and the model keeps that behaviour instead of the corrected `Board.ClearLines`.
- Floating point is modelled as `real`: adaptive weights, odds, evaluation coefficients and replay times. IEEE rounding and `NaN` are not modelled.
- Adaptive.AdaptiveEngine.SelectShapeIndex: the random draw arrives as the threshold in [0, total), so the branch for a zero total only returns index 0.
- Adaptive.LoadedMistakes: a stored total of `Infinity` is not modelled, because reals are finite.
- AiVsAi.FindBestMove: requires a shape with a filled cell. With an empty shape the source's drop loop never ends.
- AiVsAi: the `config.checkCollision` callback is fixed to "not `Board.IsValidPosition`" on the same board. A caller's other collision test is not modelled.
- The AI move executor, its animation and `initialize` (js/modules/ai/AiVsAi.js:115-170) are not modelled: they are timers and callbacks.
- Classic.Game.ClearLines: requires at most 4 full rows, the most one piece can complete (`Classic.MergedFullRows`). With more, the source's score lookup falls outside its table.
- Classic: `loadPreferences`, drawing, the touch buttons and the effect of the grid toggle (a display preference) are not modelled. The keyboard handler is modelled (`Classic.Game.HandleKey`), including the soft-drop point of ArrowDown.
- Classic.Game.HandleKey: requires a current piece, like the other `Classic.Game` moves. Before the first start tetris.js has no piece and the game is not over, so its handler calls the move functions on `null` and throws a TypeError; that error is not modelled.
- Classic: `getRandomPiece`'s random template choice arrives as an index.
- Classic: the drop counter is reset before the collision test rather than after. The new state is the same.
- Betting.BettingSystem.PlaceBet: the branch where deducting the stake fails after the balance check is not modelled. It cannot be reached.
- Betting.BettingSystem.constructor: a stored statistics record replaces the default whole. The source merges it field by field.
- Tournament: teams are values looked up by id, so the aliasing in the source is not modelled. Not modelled:
  - the same team object shared by the team list, the bracket and the live match;
  - the rounds array shared by a bracket entry and the live match;
  - a deleted team that still plays in a running tournament.
- Tournament: the team's `aiType` text and `simulatePlayerGame` randomness are not modelled. The games are parameters.
- Tournament: ids are integers and not timestamps.
- Replay: the optional extra fields of `recordEvent`, `generateShareURL`, `fromURL`, `getRNG`, `isRecording`, `isPlaying` and `loadReplays` are not modelled. They are encoding, getters and storage.
- Prng: the sequence of numbers is stated on the generator's states (`States`, `Advanced`). A loop of many `Next` calls is not modelled, because the 32-bit mixing is too costly for the solver.
- GameLoop.LoopManager: the configuration callbacks arrive as a record, and the `movePieceDown`, `reset` and `start` callbacks are reported or left out.

## Findings

| source | as written | input that shows it | evidently intended | confidence | as-written member | corrected member |
|---|---|---|---|---|---|---|
| js/modules/core/BoardModule.js:91-94 | sorts the indices in descending order and then splices and unshifts each one. After the first unshift every higher row has moved down one, so a later index names the wrong row | any board whose rows y and y-1 are both full, cleared with [y, y-1]: row y of the result is old row y-1, still full | remove exactly the listed rows, with empty rows on top and the survivors in order (ascending order achieves it) | not executed | Board.DescendingClearLeavesFullRow | Board.ClearedBoardHasNoFullRow |
| js/modules/game/ReplaySystem.js:168,186,191 | `startPlayback` sets `playing` to true and then calls `stopPlayback`, which sets it back to false. Every scheduled event callback checks `playing` first and returns | any replay with one event and a callback for its type: the callback never runs | stop the previous playback first, then start playing | not executed | Replay.ReplaySystem.StartPlaybackAsWritten | Replay.ReplaySystem.StartPlayback |
