/**
 * The adaptive difficulty engine (js/modules/ai/AdaptiveEngine.js): one
 * weight per shape steers a roulette-wheel choice of the next piece, and every
 * placement that leaves holes or a tall stack raises the weight of the shape
 * that caused it.
 *
 * Numbers are JavaScript doubles in the source; here weights, stored hole
 * counts and the mistake total are `real`, and the uniform draw of
 * `Math.random()` is a parameter. Text composition is reduced to the reasons
 * it is composed from.
 */
module Adaptive {
  import opened Common
  import Board

  const MinWeight: real := 0.4
  const MaxWeight: real := 8.0
  /** `recentHighlights` keeps at most this many entries. */
  const MaxHighlights: int := 6

  function Min(a: real, b: real): (m: real)
    ensures m <= a && m <= b && (m == a || m == b)
  {
    if a <= b then a else b
  }

  function Max(a: real, b: real): (m: real)
    ensures m >= a && m >= b && (m == a || m == b)
  {
    if a >= b then a else b
  }

  predicate InRange(w: real)
  {
    MinWeight <= w <= MaxWeight
  }

  predicate AllInRange(ws: seq<real>)
  {
    forall i :: 0 <= i < |ws| ==> InRange(ws[i])
  }

  // ---------------------------------------------------------------------
  // Stored state

  /** A stored value after `Number(value)`: a finite number, or NaN / an infinity. */
  datatype Num = Finite(value: real) | NonFinite

  /**
   * The parsed stored state. A field that is missing or not an array (or, for
   * the mistake total, not of type number) is `None`.
   */
  datatype StoredState = StoredState(
    weights: Option<seq<Num>>,
    holesByShape: Option<seq<Num>>,
    totalTrackedMistakes: Option<Num>)

  /** A stored weight is used only when finite and positive, and then clamped to [0.4, 8]. */
  function SanitizeWeight(current: real, v: Num): (w: real)
    ensures v.Finite? && v.value > 0.0 ==> InRange(w)
    ensures v.Finite? && v.value > 0.0 && InRange(v.value) ==> w == v.value
    ensures !(v.Finite? && v.value > 0.0) ==> w == current
  {
    if v.Finite? && v.value > 0.0 then Min(MaxWeight, Max(MinWeight, v.value)) else current
  }

  /** A stored hole count is kept when finite and positive, otherwise it becomes 0. */
  function SanitizeHoles(v: Num): (h: real)
    ensures h >= 0.0
    ensures h > 0.0 <==> v.Finite? && v.value > 0.0
    ensures v.Finite? && v.value >= 0.0 ==> h == v.value
  {
    if v.Finite? && v.value > 0.0 then v.value else 0.0
  }

  predicate WeightsAccepted(stored: Option<StoredState>, n: nat)
  {
    stored.Some? && stored.value.weights.Some? && |stored.value.weights.value| == n
  }

  predicate HolesAccepted(stored: Option<StoredState>, n: nat)
  {
    stored.Some? && stored.value.holesByShape.Some? && |stored.value.holesByShape.value| == n
  }

  /** Every stored weight sanitized over the current one. */
  function MergedWeights(current: seq<real>, ws: seq<Num>): (r: seq<real>)
    requires |ws| == |current|
    ensures |r| == |current|
    ensures AllInRange(current) ==> AllInRange(r)
  {
    seq(|current|, i requires 0 <= i < |current| => SanitizeWeight(current[i], ws[i]))
  }

  /** The weights after loading `stored` over `current`. */
  function LoadedWeights(current: seq<real>, stored: Option<StoredState>): (r: seq<real>)
    ensures |r| == |current|
    ensures AllInRange(current) ==> AllInRange(r)
  {
    if WeightsAccepted(stored, |current|) then MergedWeights(current, stored.value.weights.value) else current
  }

  /** Every stored hole count sanitized. */
  function MergedHoles(hs: seq<Num>): (r: seq<real>)
    ensures |r| == |hs| && forall i :: 0 <= i < |r| ==> r[i] >= 0.0
  {
    seq(|hs|, i requires 0 <= i < |hs| => SanitizeHoles(hs[i]))
  }

  /** The hole counts after loading `stored` over `current`. */
  function LoadedHoles(current: seq<real>, stored: Option<StoredState>): (r: seq<real>)
    ensures |r| == |current|
    ensures (forall i :: 0 <= i < |current| ==> current[i] >= 0.0) ==> forall i :: 0 <= i < |r| ==> r[i] >= 0.0
  {
    if HolesAccepted(stored, |current|) then MergedHoles(stored.value.holesByShape.value) else current
  }

  /** The `parsed.weights.forEach` loop of `loadFromStorage`. */
  method ApplyStoredWeights(current: seq<real>, ws: seq<Num>) returns (updated: seq<real>)
    requires |ws| == |current|
    ensures updated == MergedWeights(current, ws)
  {
    updated := current;
    var index := 0;
    while index < |ws|
      invariant 0 <= index <= |ws| && |updated| == |current|
      invariant forall i :: 0 <= i < index ==> updated[i] == SanitizeWeight(current[i], ws[i])
      invariant forall i :: index <= i < |current| ==> updated[i] == current[i]
    {
      if ws[index].Finite? && ws[index].value > 0.0 {
        updated := updated[index := Min(MaxWeight, Max(MinWeight, ws[index].value))];
      }
      index := index + 1;
    }
  }

  /** The `parsed.holesByShape.forEach` loop of `loadFromStorage`. */
  method ApplyStoredHoles(current: seq<real>, hs: seq<Num>) returns (updated: seq<real>)
    requires |hs| == |current|
    ensures updated == MergedHoles(hs)
  {
    updated := current;
    var index := 0;
    while index < |hs|
      invariant 0 <= index <= |hs| && |updated| == |current|
      invariant forall i :: 0 <= i < index ==> updated[i] == SanitizeHoles(hs[i])
    {
      updated := updated[index := if hs[index].Finite? && hs[index].value > 0.0 then hs[index].value else 0.0];
      index := index + 1;
    }
  }

  /** The mistake total after loading: a stored finite non-negative number, otherwise unchanged. */
  function LoadedMistakes(current: real, stored: Option<StoredState>): (r: real)
    ensures current >= 0.0 ==> r >= 0.0
  {
    if stored.Some? && stored.value.totalTrackedMistakes.Some? && stored.value.totalTrackedMistakes.value.Finite?
       && stored.value.totalTrackedMistakes.value.value >= 0.0
    then stored.value.totalTrackedMistakes.value.value
    else current
  }

  /** What `persistState` writes. */
  function Persisted(weights: seq<real>, holes: seq<real>, mistakes: real): StoredState
  {
    StoredState(
      Some(seq(|weights|, i requires 0 <= i < |weights| => Finite(weights[i]))),
      Some(seq(|holes|, i requires 0 <= i < |holes| => Finite(holes[i]))),
      Some(Finite(mistakes)))
  }

  /**
   * Persisting an engine state and loading it into an engine of the same size
   * restores that state, whatever the loading engine held before.
   */
  lemma PersistThenLoad(weights: seq<real>, holes: seq<real>, mistakes: real, current: seq<real>, currentHoles: seq<real>, currentMistakes: real)
    requires AllInRange(weights) && (forall i :: 0 <= i < |holes| ==> holes[i] >= 0.0) && mistakes >= 0.0
    requires |current| == |weights| && |currentHoles| == |holes|
    ensures var s := Some(Persisted(weights, holes, mistakes));
      LoadedWeights(current, s) == weights && LoadedHoles(currentHoles, s) == holes &&
      LoadedMistakes(currentMistakes, s) == mistakes
  {
    var s := Some(Persisted(weights, holes, mistakes));
    var lw := LoadedWeights(current, s);
    forall i | 0 <= i < |weights|
      ensures lw[i] == weights[i]
    {
      assert s.value.weights.value[i] == Finite(weights[i]);
    }
    var lh := LoadedHoles(currentHoles, s);
    forall i | 0 <= i < |holes|
      ensures lh[i] == holes[i]
    {
      assert s.value.holesByShape.value[i] == Finite(holes[i]);
    }
  }

  /** Loading the same stored state a second time changes nothing more. */
  lemma LoadIdempotent(current: seq<real>, currentHoles: seq<real>, stored: Option<StoredState>)
    ensures LoadedWeights(LoadedWeights(current, stored), stored) == LoadedWeights(current, stored)
    ensures LoadedHoles(LoadedHoles(currentHoles, stored), stored) == LoadedHoles(currentHoles, stored)
  {
    var once := LoadedWeights(current, stored);
    var twice := LoadedWeights(once, stored);
    if WeightsAccepted(stored, |current|) {
      forall i | 0 <= i < |current|
        ensures twice[i] == once[i]
      {
      }
    }
    var onceH := LoadedHoles(currentHoles, stored);
    var twiceH := LoadedHoles(onceH, stored);
    if HolesAccepted(stored, |currentHoles|) {
      forall i | 0 <= i < |currentHoles|
        ensures twiceH[i] == onceH[i]
      {
      }
    }
  }

  // ---------------------------------------------------------------------
  // Weight updates of `registerPlacement`

  /** New holes: weight += 0.6 * delta + 0.4, capped at 8. */
  function HoleBoost(w: real, holesDelta: int): real
  {
    if holesDelta > 0 then Min(MaxWeight, w + holesDelta as real * 0.6 + 0.4) else w
  }

  /** A stack raised by three rows or more: weight += 0.3 * delta, capped at 8. */
  function HeightBoost(w: real, maxHeightDelta: int): real
  {
    if maxHeightDelta >= 3 then Min(MaxWeight, w + maxHeightDelta as real * 0.3) else w
  }

  /** Cleared lines: weight -= 0.5 * lines (or 0.2 for a single line), floored at 0.4. */
  function LinePenalty(w: real, linesCleared: int): real
  {
    if linesCleared > 0 then Max(MinWeight, w - (if linesCleared > 1 then linesCleared as real * 0.5 else 0.2)) else w
  }

  /** The three updates in the order the source applies them. */
  function UpdatedWeight(w: real, holesDelta: int, maxHeightDelta: int, linesCleared: int): (r: real)
    ensures holesDelta <= 0 && maxHeightDelta < 3 && linesCleared <= 0 ==> r == w
  {
    LinePenalty(HeightBoost(HoleBoost(w, holesDelta), maxHeightDelta), linesCleared)
  }

  /** Central invariant: a weight in [0.4, 8] stays in [0.4, 8]. */
  lemma UpdatedWeightInRange(w: real, holesDelta: int, maxHeightDelta: int, linesCleared: int)
    requires InRange(w)
    ensures InRange(UpdatedWeight(w, holesDelta, maxHeightDelta, linesCleared))
  {
    var a := HoleBoost(w, holesDelta);
    assert InRange(a);
    var b := HeightBoost(a, maxHeightDelta);
    assert InRange(b);
  }

  /**
   * The direction of the update: without cleared lines the weight never drops,
   * and new holes raise a weight below the cap; without new holes or a raised
   * stack the weight never grows, and cleared lines lower a weight above the floor.
   */
  lemma UpdatedWeightDirection(w: real, holesDelta: int, maxHeightDelta: int, linesCleared: int)
    requires InRange(w)
    ensures var r := UpdatedWeight(w, holesDelta, maxHeightDelta, linesCleared);
      (linesCleared <= 0 ==> r >= w) &&
      (linesCleared <= 0 && holesDelta > 0 && w < MaxWeight ==> r > w) &&
      (holesDelta <= 0 && maxHeightDelta < 3 ==> r <= w) &&
      (holesDelta <= 0 && maxHeightDelta < 3 && linesCleared > 0 && w > MinWeight ==> r < w)
  {
  }

  /** The weight steps of `registerPlacement`, applied to one weight in the source's order. */
  method AdjustWeight(weight: real, holesDelta: int, maxHeightDelta: int, linesCleared: int) returns (w: real)
    ensures w == UpdatedWeight(weight, holesDelta, maxHeightDelta, linesCleared)
  {
    w := weight;
    if holesDelta > 0 {
      var boost := holesDelta as real * 0.6 + 0.4;
      w := Min(MaxWeight, w + boost);
    }
    if maxHeightDelta >= 3 {
      var heightBoost := maxHeightDelta as real * 0.3;
      w := Min(MaxWeight, w + heightBoost);
    }
    if linesCleared > 0 {
      var penalty := if linesCleared > 1 then linesCleared as real * 0.5 else 0.2;
      w := Max(MinWeight, w - penalty);
    }
  }

  // ---------------------------------------------------------------------
  // Highlights

  /** One reason of a highlight (the source's message text is not modelled). */
  datatype Reason =
    | NewHoles(count: int)
    | PushedColumn(column: int, delta: int)

  /** A recorded highlight: the shape, its reasons and a snapshot of the metrics after the placement. */
  datatype Highlight = Highlight(shapeIndex: int, reasons: seq<Reason>, maxHeight: int, totalHoles: int, heights: seq<int>)

  /** The reasons `registerPlacement` collects for a placement. */
  function Reasons(before: Board.Metrics, after: Board.Metrics): (rs: seq<Reason>)
    ensures |rs| <= 2
    ensures rs == [] <==>
      after.totalHoles <= before.totalHoles &&
      (after.maxHeight - before.maxHeight < 3 || IndexOf(after.heights, after.maxHeight) < 0)
  {
    var holesDelta := after.totalHoles - before.totalHoles;
    var maxHeightDelta := after.maxHeight - before.maxHeight;
    var tallest := IndexOf(after.heights, after.maxHeight);
    (if holesDelta > 0 then [NewHoles(holesDelta)] else []) +
    (if maxHeightDelta >= 3 && tallest >= 0 then [PushedColumn(tallest + 1, maxHeightDelta)] else [])
  }

  /** `push` followed by `shift` when the list grew past six entries. */
  function PushHighlight(hs: seq<Highlight>, h: Highlight): (r: seq<Highlight>)
    requires |hs| <= MaxHighlights
    ensures |r| <= MaxHighlights && |r| > 0 && r[|r| - 1] == h
    ensures |hs| < MaxHighlights ==> r == hs + [h]
    ensures |hs| == MaxHighlights ==> r == hs[1..] + [h]
  {
    var t := hs + [h];
    if |t| > MaxHighlights then t[1..] else t
  }

  /** What `getLiveHint` reports: still observing, or pressure with the latest highlight's shape and reasons. */
  datatype Hint = Observing | Pressure(shapeIndex: int, reasons: seq<Reason>)

  // ---------------------------------------------------------------------
  // Selection

  /** The sum of the first k weights. */
  function Prefix(w: seq<real>, k: int): real
    requires 0 <= k <= |w|
  {
    if k == 0 then 0.0 else Prefix(w, k - 1) + w[k - 1]
  }

  /** `weights.reduce((sum, value) => sum + value, 0)`. */
  function Total(w: seq<real>): real
  {
    Prefix(w, |w|)
  }

  /** With every weight positive, the prefix sums strictly increase. */
  lemma {:induction false} PrefixIncreasing(w: seq<real>, j: int, k: int)
    requires AllInRange(w) && 0 <= j < k <= |w|
    ensures Prefix(w, j) < Prefix(w, k)
    decreases k
  {
    if j < k - 1 {
      PrefixIncreasing(w, j, k - 1);
    }
  }

  /** At most one index satisfies the selection condition: the index the draw selects is unique. */
  lemma SelectionUnique(w: seq<real>, t: real, i: int, j: int)
    requires AllInRange(w) && 0 <= i < |w| && 0 <= j < |w|
    requires Prefix(w, i) < t <= Prefix(w, i + 1)
    requires Prefix(w, j) < t <= Prefix(w, j + 1)
    ensures i == j
  {
    if i < j {
      if i + 1 < j {
        PrefixIncreasing(w, i + 1, j);
      }
    } else if j < i {
      if j + 1 < i {
        PrefixIncreasing(w, j + 1, i);
      }
    }
  }

  /** The segment of a shape on the wheel is non-empty: every shape can be selected. */
  lemma EveryShapeSelectable(w: seq<real>, k: int)
    requires AllInRange(w) && 0 <= k < |w|
    ensures Prefix(w, k) < Prefix(w, k + 1) <= Total(w)
  {
    if k + 1 < |w| {
      PrefixIncreasing(w, k + 1, |w|);
    }
  }

  // ---------------------------------------------------------------------
  // The engine

  class AdaptiveEngine {
    /** The number of shape names the engine was created with. */
    const numShapes: nat
    var weights: seq<real>
    var holesByShape: seq<real>
    var sessionHolesByShape: seq<int>
    var totalTrackedMistakes: real
    var recentHighlights: seq<Highlight>
    var lastMetrics: Option<Board.Metrics>

    predicate Valid()
      reads this
    {
      |weights| == numShapes && |holesByShape| == numShapes && |sessionHolesByShape| == numShapes &&
      AllInRange(weights) &&
      (forall i :: 0 <= i < numShapes ==> holesByShape[i] >= 0.0 && sessionHolesByShape[i] >= 0) &&
      totalTrackedMistakes >= 0.0 &&
      |recentHighlights| <= MaxHighlights
    }

    /** `createAdaptiveEngine`: every weight 1, every counter 0, no highlight, no metrics. */
    constructor (numShapes: nat)
      ensures Valid() && this.numShapes == numShapes
      ensures weights == seq(numShapes, _ => 1.0)
      ensures holesByShape == seq(numShapes, _ => 0.0) && sessionHolesByShape == seq(numShapes, _ => 0)
      ensures totalTrackedMistakes == 0.0 && recentHighlights == [] && lastMetrics == None
    {
      this.numShapes := numShapes;
      weights := seq(numShapes, _ => 1.0);
      holesByShape := seq(numShapes, _ => 0.0);
      sessionHolesByShape := seq(numShapes, _ => 0);
      totalTrackedMistakes := 0.0;
      recentHighlights := [];
      lastMetrics := None;
    }

    /**
     * `loadFromStorage`, given the parsed stored state (`None` when nothing
     * was stored or it did not parse). Arrays of the wrong length are ignored.
     */
    method LoadFromStorage(stored: Option<StoredState>)
      requires Valid()
      modifies this
      ensures Valid()
      ensures weights == LoadedWeights(old(weights), stored)
      ensures holesByShape == LoadedHoles(old(holesByShape), stored)
      ensures totalTrackedMistakes == LoadedMistakes(old(totalTrackedMistakes), stored)
      ensures sessionHolesByShape == old(sessionHolesByShape) && recentHighlights == old(recentHighlights)
      ensures lastMetrics == old(lastMetrics)
    {
      if stored.None? {
        return;
      }
      var parsed := stored.value;
      if parsed.weights.Some? && |parsed.weights.value| == numShapes {
        weights := ApplyStoredWeights(weights, parsed.weights.value);
      }
      if parsed.holesByShape.Some? && |parsed.holesByShape.value| == numShapes {
        holesByShape := ApplyStoredHoles(holesByShape, parsed.holesByShape.value);
      }
      var t := parsed.totalTrackedMistakes;
      if t.Some? && t.value.Finite? && t.value.value >= 0.0 {
        totalTrackedMistakes := t.value.value;
      }
    }

    /** `resetForNewGame`: fresh metrics of the given board, no highlights, session counters 0. */
    method ResetForNewGame(board: array<seq<int>>)
      requires Valid() && Board.WellFormed(board[..])
      modifies this
      ensures Valid()
      ensures lastMetrics == Some(Board.MetricsOf(board[..]))
      ensures recentHighlights == [] && sessionHolesByShape == seq(numShapes, _ => 0)
      ensures weights == old(weights) && holesByShape == old(holesByShape)
      ensures totalTrackedMistakes == old(totalTrackedMistakes)
    {
      var m := Board.ComputeMetrics(board);
      lastMetrics := Some(m);
      recentHighlights := [];
      sessionHolesByShape := seq(numShapes, _ => 0);
    }

    /**
     * `selectShapeIndex`, given the threshold `Math.random() * totalWeight`
     * (a value in [0, total)): the first shape whose prefix sum of weights
     * reaches the threshold.
     */
    method SelectShapeIndex(threshold: real) returns (i: int)
      requires Valid() && 0.0 <= threshold && (numShapes > 0 ==> threshold < Total(weights))
      ensures numShapes == 0 ==> i == 0
      ensures numShapes > 0 ==> 0 <= i < numShapes
      ensures numShapes > 0 ==> (i > 0 ==> Prefix(weights, i) < threshold) && threshold <= Prefix(weights, i + 1)
    {
      var totalWeight := Total(weights);
      if totalWeight <= 0.0 {
        if numShapes > 0 {
          // Positive weights have a positive total.
          EveryShapeSelectable(weights, 0);
          assert false;
        }
        // `Math.floor(Math.random() * numShapes)` with no shapes at all.
        i := 0;
        return;
      }
      var remaining := threshold;
      i := 0;
      while i < |weights|
        invariant 0 <= i <= |weights|
        invariant remaining == threshold - Prefix(weights, i)
        invariant i > 0 ==> Prefix(weights, i) < threshold
      {
        remaining := remaining - weights[i];
        if remaining <= 0.0 {
          return;
        }
        i := i + 1;
      }
      // The threshold is below the total, so the loop has always returned.
      assert false;
      i := |weights| - 1;
    }

    /**
     * `registerPlacement`. Missing metrics make it a no-op. Otherwise only the
     * weight of `shapeIndex` changes, the hole counters grow by the new holes, a
     * highlight is recorded exactly when there is a reason for one, and the
     * after-metrics become the last metrics.
     */
    method RegisterPlacement(shapeIndex: int, before: Option<Board.Metrics>, after: Option<Board.Metrics>, linesCleared: int)
      requires Valid() && 0 <= shapeIndex < numShapes
      modifies this
      ensures Valid()
      ensures before.None? || after.None? ==>
        weights == old(weights) && holesByShape == old(holesByShape) &&
        sessionHolesByShape == old(sessionHolesByShape) && totalTrackedMistakes == old(totalTrackedMistakes) &&
        recentHighlights == old(recentHighlights) && lastMetrics == old(lastMetrics)
      ensures before.Some? && after.Some? ==>
        var holesDelta := after.value.totalHoles - before.value.totalHoles;
        var maxHeightDelta := after.value.maxHeight - before.value.maxHeight;
        var gained := if holesDelta > 0 then holesDelta else 0;
        var reasons := Reasons(before.value, after.value);
        weights == old(weights)[shapeIndex := UpdatedWeight(old(weights)[shapeIndex], holesDelta, maxHeightDelta, linesCleared)] &&
        holesByShape == old(holesByShape)[shapeIndex := old(holesByShape)[shapeIndex] + gained as real] &&
        sessionHolesByShape == old(sessionHolesByShape)[shapeIndex := old(sessionHolesByShape)[shapeIndex] + gained] &&
        totalTrackedMistakes == old(totalTrackedMistakes) + gained as real &&
        recentHighlights == (if reasons == [] then old(recentHighlights)
          else PushHighlight(old(recentHighlights), Highlight(shapeIndex, reasons, after.value.maxHeight, after.value.totalHoles, after.value.heights))) &&
        (reasons != [] ==> LiveHint() == Pressure(shapeIndex, reasons)) &&
        lastMetrics == after
    {
      if before.None? || after.None? {
        return;
      }
      Observe(shapeIndex, before.value, after.value, linesCleared);
    }

    /** `registerPlacement` once both metrics are present. */
    method Observe(shapeIndex: int, b: Board.Metrics, a: Board.Metrics, linesCleared: int)
      requires Valid() && 0 <= shapeIndex < numShapes
      modifies this
      ensures Valid()
      ensures weights == old(weights)[shapeIndex := UpdatedWeight(old(weights)[shapeIndex], a.totalHoles - b.totalHoles, a.maxHeight - b.maxHeight, linesCleared)]
      ensures var gained := if a.totalHoles > b.totalHoles then a.totalHoles - b.totalHoles else 0;
        holesByShape == old(holesByShape)[shapeIndex := old(holesByShape)[shapeIndex] + gained as real] &&
        sessionHolesByShape == old(sessionHolesByShape)[shapeIndex := old(sessionHolesByShape)[shapeIndex] + gained] &&
        totalTrackedMistakes == old(totalTrackedMistakes) + gained as real
      ensures var reasons := Reasons(b, a);
        recentHighlights == (if reasons == [] then old(recentHighlights)
          else PushHighlight(old(recentHighlights), Highlight(shapeIndex, reasons, a.maxHeight, a.totalHoles, a.heights))) &&
        (reasons != [] ==> LiveHint() == Pressure(shapeIndex, reasons))
      ensures lastMetrics == Some(a)
    {
      var holesDelta := a.totalHoles - b.totalHoles;
      var maxHeightDelta := a.maxHeight - b.maxHeight;
      var w := AdjustWeight(weights[shapeIndex], holesDelta, maxHeightDelta, linesCleared);
      UpdatedWeightInRange(weights[shapeIndex], holesDelta, maxHeightDelta, linesCleared);
      weights := weights[shapeIndex := w];
      if holesDelta > 0 {
        holesByShape := holesByShape[shapeIndex := holesByShape[shapeIndex] + holesDelta as real];
        sessionHolesByShape := sessionHolesByShape[shapeIndex := sessionHolesByShape[shapeIndex] + holesDelta];
        totalTrackedMistakes := totalTrackedMistakes + holesDelta as real;
      }
      var insightReasons := Reasons(b, a);
      if insightReasons != [] {
        recentHighlights := recentHighlights + [Highlight(shapeIndex, insightReasons, a.maxHeight, a.totalHoles, a.heights)];
        if |recentHighlights| > MaxHighlights {
          recentHighlights := recentHighlights[1..];
        }
      }
      lastMetrics := Some(a);
    }

    /** `getLiveHint`: observing until the first highlight, then the latest highlight's shape and reasons. */
    function LiveHint(): (h: Hint)
      reads this
      ensures h == Observing <==> recentHighlights == []
      ensures h.Pressure? ==> h.shapeIndex == recentHighlights[|recentHighlights| - 1].shapeIndex
    {
      if recentHighlights == [] then Observing
      else
        var latest := recentHighlights[|recentHighlights| - 1];
        Pressure(latest.shapeIndex, latest.reasons)
    }
  }

  // ---------------------------------------------------------------------
  // The ranking behind `getSummary`

  /** One shape's session hole count. */
  datatype RankEntry = RankEntry(index: int, value: int)

  predicate RankedDescending(r: seq<RankEntry>)
  {
    forall i, j :: 0 <= i < j < |r| ==> r[i].value >= r[j].value
  }

  /** `map((value, index) => ({ index, value })).filter(entry => entry.value > 0)` over the first n counts. */
  function PositiveEntries(counts: seq<int>, n: int): (r: seq<RankEntry>)
    requires 0 <= n <= |counts|
    ensures forall e :: e in r <==> 0 <= e.index < n && counts[e.index] > 0 && e.value == counts[e.index]
    ensures forall i :: 0 <= i < |r| ==> r[i].value > 0
  {
    if n == 0 then []
    else PositiveEntries(counts, n - 1) + (if counts[n - 1] > 0 then [RankEntry(n - 1, counts[n - 1])] else [])
  }

  /** Insert before the first entry whose value is not larger (keeps equal values in their original order). */
  function InsertRank(e: RankEntry, s: seq<RankEntry>): (r: seq<RankEntry>)
    ensures multiset(r) == multiset(s) + multiset{e}
  {
    if s == [] || s[0].value <= e.value then [e] + s
    else
      assert s == [s[0]] + s[1..];
      [s[0]] + InsertRank(e, s[1..])
  }

  lemma InsertedRank(e: RankEntry, s: seq<RankEntry>, k: int)
    requires 0 <= k < |InsertRank(e, s)|
    ensures InsertRank(e, s)[k] == e || InsertRank(e, s)[k] in s
  {
    assert InsertRank(e, s)[k] in multiset(InsertRank(e, s));
  }

  lemma {:induction false} InsertRankSorted(e: RankEntry, s: seq<RankEntry>)
    requires RankedDescending(s)
    ensures RankedDescending(InsertRank(e, s))
  {
    if s != [] && s[0].value > e.value {
      var tail := s[1..];
      InsertRankSorted(e, tail);
      var t := InsertRank(e, tail);
      forall k | 0 <= k < |t|
        ensures s[0].value >= t[k].value
      {
        InsertedRank(e, tail, k);
      }
      assert InsertRank(e, s) == [s[0]] + t;
    }
  }

  /** `sort((a, b) => b.value - a.value)`. */
  function SortRanks(s: seq<RankEntry>): (r: seq<RankEntry>)
    ensures multiset(r) == multiset(s) && RankedDescending(r)
  {
    if s == [] then []
    else
      assert s == [s[0]] + s[1..];
      var t := SortRanks(s[1..]);
      InsertRankSorted(s[0], t);
      InsertRank(s[0], t)
  }

  /** The shapes that trapped holes this session, most holes first. */
  function RankedShapes(counts: seq<int>): seq<RankEntry>
  {
    SortRanks(PositiveEntries(counts, |counts|))
  }

  /** The ranking lists exactly the shapes with a positive session count, each with its count. */
  lemma RankedShapesMembers(counts: seq<int>)
    ensures forall e :: e in RankedShapes(counts) <==> 0 <= e.index < |counts| && counts[e.index] > 0 && e.value == counts[e.index]
  {
    var p := PositiveEntries(counts, |counts|);
    var r := RankedShapes(counts);
    forall e
      ensures e in r <==> e in p
    {
      assert e in r <==> e in multiset(r);
      assert e in p <==> e in multiset(p);
    }
  }

  /**
   * The ranking is in descending order of count, so its first entry, the shape
   * the summary names first, has the largest session count.
   */
  lemma RankedShapesFirstIsLargest(counts: seq<int>)
    ensures RankedDescending(RankedShapes(counts))
    ensures RankedShapes(counts) != [] ==> forall i :: 0 <= i < |counts| ==> counts[i] <= RankedShapes(counts)[0].value
  {
    var r := RankedShapes(counts);
    if r != [] {
      RankedShapesMembers(counts);
      forall i | 0 <= i < |counts|
        ensures counts[i] <= r[0].value
      {
        if counts[i] > 0 {
          var e := RankEntry(i, counts[i]);
          assert e in r;
          var k :| 0 <= k < |r| && r[k] == e;
          assert k == 0 || r[0].value >= r[k].value;
        }
      }
    }
  }
}
