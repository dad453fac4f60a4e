/** The fit of a roll and a time scale to the tape (calibration.py), over exact reals. */
module RollFit {
  import opened Wrappers
  import opened Plans
  import opened RollModel

  datatype FitPoint = FitPoint(fraction: real, measuredCm: real, height: real)

  datatype FitResult = FitResult(roll: real, scale: real, residuals: seq<real>, points: nat)

  datatype FitError = NoMeasurement | BadMeasurement

  predicate Measurable(p: FitPoint) {
    p.height > 0.0 && 0.0 < p.fraction <= 1.0 && 0.0 <= p.measuredCm <= p.height
  }

  /** The refusals, in the source's order: no point at all before a point that cannot be. */
  function CheckPoints(points: seq<FitPoint>): Option<FitError> {
    if points == [] then Some(NoMeasurement)
    else if exists i :: 0 <= i < |points| && !Measurable(points[i]) then Some(BadMeasurement)
    else None
  }

  function Residual(d: Direction, roll: real, scale: real, p: FitPoint): real {
    PredictCm(d, roll, scale, p.fraction, p.height) - p.measuredCm
  }

  function Residuals(d: Direction, roll: real, scale: real, points: seq<FitPoint>): (r: seq<real>)
    ensures |r| == |points| && forall i :: 0 <= i < |r| ==> r[i] == Residual(d, roll, scale, points[i])
  {
    if points == [] then [] else [Residual(d, roll, scale, points[0])] + Residuals(d, roll, scale, points[1..])
  }

  function SumOfSquares(d: Direction, roll: real, scale: real, points: seq<FitPoint>): real {
    if points == [] then 0.0
    else
      var v := Residual(d, roll, scale, points[0]);
      v * v + SumOfSquares(d, roll, scale, points[1..])
  }

  // ---------------------------------------------------------------- one point: the bisection

  function Halved(w: real, n: nat): real {
    if n == 0 then w else Halved(w, n - 1) / 2.0
  }

  /** Within half the width of the last bracket, the roll at which the prediction crosses the tape: every roll
      of the range below that predicts above the tape, every one above it at or below the tape. */
  ghost predicate Brackets(d: Direction, p: FitPoint, low0: real, high0: real, roll: real) {
    && low0 <= roll <= high0
    && (forall k :: low0 <= k && k < roll - Halved(high0 - low0, 61) ==>
          PredictCm(d, k, 1.0, p.fraction, p.height) > p.measuredCm)
    && (forall k :: k <= high0 && k > roll + Halved(high0 - low0, 61) ==>
          PredictCm(d, k, 1.0, p.fraction, p.height) <= p.measuredCm)
  }

  /** The middle of the range after `n` halvings towards where the prediction crosses the tape. */
  function Crossing(d: Direction, p: FitPoint, low: real, high: real, n: nat): real
    decreases n
  {
    var middle := (low + high) / 2.0;
    if n == 0 then middle
    else if PredictCm(d, middle, 1.0, p.fraction, p.height) > p.measuredCm then Crossing(d, p, middle, high, n - 1)
    else Crossing(d, p, low, middle, n - 1)
  }

  function RollOfOne(d: Direction, p: FitPoint, low: real, high: real): real { Crossing(d, p, low, high, 60) }

  /** Sixty halvings of the range. */
  method FitRollOnly(d: Direction, point: FitPoint, low0: real, high0: real) returns (roll: real)
    requires low0 <= high0 && point.height >= 0.0
    ensures roll == RollOfOne(d, point, low0, high0)
    ensures Brackets(d, point, low0, high0, roll)
  {
    hide PredictCm, Brackets;
    var low, high := low0, high0;
    var n := 0;
    while n < 60
      invariant 0 <= n <= 60
      invariant Crossing(d, point, low, high, 60 - n) == Crossing(d, point, low0, high0, 60)
    {
      var middle := (low + high) / 2.0;
      if PredictCm(d, middle, 1.0, point.fraction, point.height) > point.measuredCm {
        low := middle;
      } else {
        high := middle;
      }
      n := n + 1;
    }
    roll := (low + high) / 2.0;
    OneIsBracketed(d, point, low0, high0);
  }

  lemma OneIsBracketed(d: Direction, p: FitPoint, low0: real, high0: real)
    requires low0 <= high0 && p.height >= 0.0
    ensures Brackets(d, p, low0, high0, RollOfOne(d, p, low0, high0))
  {
    hide Brackets, Crossing;
    assert Halved(high0 - low0, 0) == high0 - low0;
    CrossingIsBracketed(d, p, low0, high0, low0, high0, 60);
  }

  lemma {:induction false} CrossingIsBracketed(d: Direction, p: FitPoint, low0: real, high0: real, low: real,
                                               high: real, n: nat)
    requires n <= 60 && low0 <= low <= high <= high0 && p.height >= 0.0
    requires high - low == Halved(high0 - low0, 60 - n)
    requires low == low0 || PredictCm(d, low, 1.0, p.fraction, p.height) > p.measuredCm
    requires high == high0 || PredictCm(d, high, 1.0, p.fraction, p.height) <= p.measuredCm
    ensures Brackets(d, p, low0, high0, Crossing(d, p, low, high, n))
    decreases n
  {
    hide PredictCm, Brackets;
    var middle := (low + high) / 2.0;
    if n == 0 {
      MiddleIsBracketed(d, p, low0, high0, low, high);
    } else {
      assert Halved(high0 - low0, 60 - (n - 1)) == Halved(high0 - low0, 60 - n) / 2.0;
      if PredictCm(d, middle, 1.0, p.fraction, p.height) > p.measuredCm {
        CrossingIsBracketed(d, p, low0, high0, middle, high, n - 1);
      } else {
        CrossingIsBracketed(d, p, low0, high0, low, middle, n - 1);
      }
    }
  }

  lemma MiddleIsBracketed(d: Direction, p: FitPoint, low0: real, high0: real, low: real, high: real)
    requires low0 <= low <= high <= high0 && p.height >= 0.0 && high - low == Halved(high0 - low0, 60)
    requires low == low0 || PredictCm(d, low, 1.0, p.fraction, p.height) > p.measuredCm
    requires high == high0 || PredictCm(d, high, 1.0, p.fraction, p.height) <= p.measuredCm
    ensures Brackets(d, p, low0, high0, (low + high) / 2.0)
  {
    hide PredictCm, Halved;
    HalvedAgain(high0 - low0, 60);
    Bracketed(d, p, low0, high0, low, high);
  }

  lemma HalvedAgain(w: real, n: nat)
    ensures Halved(w, n + 1) == Halved(w, n) / 2.0
  {
  }

  lemma Bracketed(d: Direction, p: FitPoint, low0: real, high0: real, low: real, high: real)
    requires low0 <= low <= high <= high0 && p.height >= 0.0
    requires low == low0 || PredictCm(d, low, 1.0, p.fraction, p.height) > p.measuredCm
    requires high == high0 || PredictCm(d, high, 1.0, p.fraction, p.height) <= p.measuredCm
    ensures forall k :: low0 <= k < low ==> PredictCm(d, k, 1.0, p.fraction, p.height) > p.measuredCm
    ensures forall k :: high < k <= high0 ==> PredictCm(d, k, 1.0, p.fraction, p.height) <= p.measuredCm
  {
    hide PredictCm;
    forall k | low0 <= k < low ensures PredictCm(d, k, 1.0, p.fraction, p.height) > p.measuredCm {
      PredictionFallsWithRoll(d, k, low, 1.0, p.fraction, p.height);
    }
    forall k | high < k <= high0 ensures PredictCm(d, k, 1.0, p.fraction, p.height) <= p.measuredCm {
      PredictionFallsWithRoll(d, high, k, 1.0, p.fraction, p.height);
    }
  }

  // ---------------------------------------------------------------- more points: the shrinking grid

  /** A box of rolls and scales, sampled at thirteen by thirteen places. */
  datatype Box = Box(lowRoll: real, highRoll: real, lowScale: real, highScale: real)

  function At(low: real, high: real, i: nat): real { low + (high - low) * i as real / 12.0 }

  function RollAt(b: Box, cell: nat): real { At(b.lowRoll, b.highRoll, cell / 13) }

  function ScaleAt(b: Box, cell: nat): real { At(b.lowScale, b.highScale, cell % 13) }

  function ErrorAt(d: Direction, points: seq<FitPoint>, b: Box, cell: nat): real {
    SumOfSquares(d, RollAt(b, cell), ScaleAt(b, cell), points)
  }

  /** The first cell with the least error among the first `n` of a box, rolls outside, scales inside. */
  function BestOf(d: Direction, points: seq<FitPoint>, b: Box, n: nat): (best: nat)
    requires n > 0
    ensures best < n
    ensures forall c :: 0 <= c < n ==> ErrorAt(d, points, b, best) <= ErrorAt(d, points, b, c)
  {
    if n == 1 then 0
    else
      var best := BestOf(d, points, b, n - 1);
      if ErrorAt(d, points, b, n - 1) < ErrorAt(d, points, b, best) then n - 1 else best
  }

  /** The next box: a step of this one to each side of the cell, clamped to the outermost bounds. */
  function Narrowed(bounds: Box, b: Box, cell: nat): Box {
    var roll, scale := RollAt(b, cell), ScaleAt(b, cell);
    var rollStep, scaleStep := (b.highRoll - b.lowRoll) / 12.0, (b.highScale - b.lowScale) / 12.0;
    Box(Max(bounds.lowRoll, roll - rollStep), Min(bounds.highRoll, roll + rollStep),
        Max(bounds.lowScale, scale - scaleStep), Min(bounds.highScale, scale + scaleStep))
  }

  /** The box of round `n`, from 0. */
  function BoxOf(d: Direction, points: seq<FitPoint>, bounds: Box, n: nat): Box {
    if n == 0 then bounds
    else
      var b := BoxOf(d, points, bounds, n - 1);
      Narrowed(bounds, b, BestOf(d, points, b, 169))
  }

  function RollOfRound(d: Direction, points: seq<FitPoint>, bounds: Box, n: nat): real {
    var b := BoxOf(d, points, bounds, n);
    RollAt(b, BestOf(d, points, b, 169))
  }

  function ScaleOfRound(d: Direction, points: seq<FitPoint>, bounds: Box, n: nat): real {
    var b := BoxOf(d, points, bounds, n);
    ScaleAt(b, BestOf(d, points, b, 169))
  }

  /** The search of the source: five rounds over thirteen rolls by thirteen scales, the box redrawn around
      the best cell of each. */
  method SearchTheGrid(d: Direction, points: seq<FitPoint>, bounds: Box) returns (roll: real, scale: real)
    ensures roll == RollOfRound(d, points, bounds, 4) && scale == ScaleOfRound(d, points, bounds, 4)
  {
    hide BestOf, RollAt, ScaleAt, BoxOf;
    var lowRoll, highRoll, lowScale, highScale := bounds.lowRoll, bounds.highRoll, bounds.lowScale, bounds.highScale;
    roll, scale := lowRoll, lowScale;
    FirstBox(d, points, bounds);
    var n := 0;
    while n < 5
      invariant 0 <= n <= 5
      invariant Box(lowRoll, highRoll, lowScale, highScale) == BoxOf(d, points, bounds, n)
      invariant n > 0 ==>
                  roll == RollOfRound(d, points, bounds, n - 1) && scale == ScaleOfRound(d, points, bounds, n - 1)
    {
      ghost var b := Box(lowRoll, highRoll, lowScale, highScale);
      roll, scale := BestCell(d, points, lowRoll, highRoll, lowScale, highScale);
      var rollStep, scaleStep := (highRoll - lowRoll) / 12.0, (highScale - lowScale) / 12.0;
      lowRoll, highRoll := Max(bounds.lowRoll, roll - rollStep), Min(bounds.highRoll, roll + rollStep);
      lowScale, highScale := Max(bounds.lowScale, scale - scaleStep), Min(bounds.highScale, scale + scaleStep);
      assert Box(lowRoll, highRoll, lowScale, highScale) == Narrowed(bounds, b, BestOf(d, points, b, 169));
      NextBoxOf(d, points, bounds, n);
      n := n + 1;
    }
  }

  lemma FirstBox(d: Direction, points: seq<FitPoint>, bounds: Box)
    ensures BoxOf(d, points, bounds, 0) == bounds
  {
  }

  lemma NextBoxOf(d: Direction, points: seq<FitPoint>, bounds: Box, n: nat)
    ensures var b := BoxOf(d, points, bounds, n);
            BoxOf(d, points, bounds, n + 1) == Narrowed(bounds, b, BestOf(d, points, b, 169))
  {
    hide BestOf, Narrowed;
  }

  method BestCell(d: Direction, points: seq<FitPoint>, lowRoll: real, highRoll: real, lowScale: real, highScale: real)
      returns (roll: real, scale: real)
    ensures var b := Box(lowRoll, highRoll, lowScale, highScale);
            roll == RollAt(b, BestOf(d, points, b, 169)) && scale == ScaleAt(b, BestOf(d, points, b, 169))
  {
    hide BestOf, SumOfSquares, ErrorAt, At, RollAt, ScaleAt, Winning;
    ghost var b := Box(lowRoll, highRoll, lowScale, highScale);
    var bestError: Option<real> := None;
    roll, scale := lowRoll, lowScale;
    NothingYet(d, points, b, roll, scale);
    for i := 0 to 13
      invariant Winning(d, points, b, 13 * i, bestError, roll, scale)
    {
      var rollHere := At(lowRoll, highRoll, i);
      for j := 0 to 13
        invariant Winning(d, points, b, 13 * i + j, bestError, roll, scale)
      {
        var scaleHere := At(lowScale, highScale, j);
        var error := SumOfSquares(d, rollHere, scaleHere, points);
        OneMoreCell(d, points, b, i, j, bestError, roll, scale);
        if bestError.None? || error < bestError.value { bestError, roll, scale := Some(error), rollHere, scaleHere; }
      }
    }
    AllCells(d, points, b, bestError, roll, scale);
  }

  /** The best of the first `n` cells, if there is one yet. */
  ghost predicate Winning(d: Direction, points: seq<FitPoint>, b: Box, n: nat, error: Option<real>, roll: real,
                          scale: real) {
    if n == 0 then error == None
    else
      var best := BestOf(d, points, b, n);
      error == Some(ErrorAt(d, points, b, best)) && roll == RollAt(b, best) && scale == ScaleAt(b, best)
  }

  lemma NothingYet(d: Direction, points: seq<FitPoint>, b: Box, roll: real, scale: real)
    ensures Winning(d, points, b, 0, None, roll, scale)
  {
  }

  lemma AllCells(d: Direction, points: seq<FitPoint>, b: Box, error: Option<real>, roll: real, scale: real)
    requires Winning(d, points, b, 169, error, roll, scale)
    ensures roll == RollAt(b, BestOf(d, points, b, 169)) && scale == ScaleAt(b, BestOf(d, points, b, 169))
  {
    hide BestOf, RollAt, ScaleAt, ErrorAt;
  }

  lemma OneMoreCell(d: Direction, points: seq<FitPoint>, b: Box, i: nat, j: nat, error: Option<real>, roll: real,
                    scale: real)
    requires j < 13 && Winning(d, points, b, 13 * i + j, error, roll, scale)
    ensures var roll1, scale1 := At(b.lowRoll, b.highRoll, i), At(b.lowScale, b.highScale, j);
            var error1 := SumOfSquares(d, roll1, scale1, points);
            if error.None? || error1 < error.value
            then Winning(d, points, b, 13 * i + j + 1, Some(error1), roll1, scale1)
            else Winning(d, points, b, 13 * i + j + 1, error, roll, scale)
  {
    hide SumOfSquares, At;
    CellOf(i, j);
  }

  lemma CellOf(i: nat, j: nat)
    requires j < 13
    ensures (13 * i + j) / 13 == i && (13 * i + j) % 13 == j
  {
  }

  // ---------------------------------------------------------------- the winner is on the next grid

  /** The box lies a whole number of its own steps inside the bounds, at both ends. */
  ghost predicate Aligned(low0: real, high0: real, low: real, high: real, m: nat, n: nat) {
    && low <= high
    && 12.0 * (low - low0) == m as real * (high - low)
    && 12.0 * (high0 - high) == n as real * (high - low)
  }

  /** Clamping never cuts a step in two: the next box is aligned again, and the winner is one of its samples. */
  lemma NarrowingKeepsTheWinner(low0: real, high0: real, low: real, high: real, m: nat, n: nat, i: nat)
      returns (m1: nat, n1: nat, j: nat)
    requires Aligned(low0, high0, low, high, m, n) && i <= 12
    ensures var x, step := At(low, high, i), (high - low) / 12.0;
            var low1, high1 := Max(low0, x - step), Min(high0, x + step);
            Aligned(low0, high0, low1, high1, m1, n1) && j <= 12 && At(low1, high1, j) == x
            && low0 <= x <= high0
  {
    var step := (high - low) / 12.0;
    var x := At(low, high, i);
    InSteps(low0, high0, low, high, m, n, i, step);
    m1, n1, j := NextBox(low0, high0, x, step, m + i, n + 12 - i);
  }

  lemma InSteps(low0: real, high0: real, low: real, high: real, m: nat, n: nat, i: nat, step: real)
    requires Aligned(low0, high0, low, high, m, n) && i <= 12 && step == (high - low) / 12.0
    ensures At(low, high, i) - low0 == (m + i) as real * step
    ensures high0 - At(low, high, i) == (n + 12 - i) as real * step
  {
    StepsAdd(m, i, step);
    StepsAdd(n, 12 - i, step);
    StepsAdd(i, 12 - i, step);
    assert low - low0 == m as real * step && high0 - high == n as real * step;
    assert At(low, high, i) == low + i as real * step;
  }

  lemma StepsAdd(a: nat, b: nat, step: real)
    ensures (a + b) as real * step == a as real * step + b as real * step
  {
  }

  lemma NextBox(low0: real, high0: real, x: real, step: real, below: nat, above: nat) returns (m1: nat, n1: nat, j: nat)
    requires step >= 0.0 && x - low0 == below as real * step && high0 - x == above as real * step && below + above >= 12
    ensures var low1, high1 := Max(low0, x - step), Min(high0, x + step);
            Aligned(low0, high0, low1, high1, m1, n1) && j <= 12 && At(low1, high1, j) == x
            && low0 <= x <= high0
  {
    hide Aligned, At;
    StepsSign(below, step);
    StepsSign(above, step);
    if above > 0 { StepsAtLeast(above, step); }
    if below > 0 { StepsAtLeast(below, step); }
    if below == 0 {
      m1, n1, j := 0, 12 * (above - 1), 0;
      LowestBox(x, high0, step, above - 1);
    } else if above == 0 {
      m1, n1, j := 12 * (below - 1), 0, 12;
      HighestBox(low0, x, step, below - 1);
    } else {
      m1, n1, j := 6 * (below - 1), 6 * (above - 1), 6;
      MiddleBox(low0, high0, x, step, below - 1, above - 1);
    }
  }

  lemma LowestBox(x: real, high0: real, step: real, above: nat)
    requires step >= 0.0 && high0 - x - step == above as real * step
    ensures Aligned(x, high0, x, x + step, 0, 12 * above) && At(x, x + step, 0) == x
  {
    Steps12(above, step);
  }

  lemma HighestBox(low0: real, x: real, step: real, below: nat)
    requires step >= 0.0 && x - low0 - step == below as real * step
    ensures Aligned(low0, x, x - step, x, 12 * below, 0) && At(x - step, x, 12) == x
  {
    Steps12(below, step);
  }

  lemma MiddleBox(low0: real, high0: real, x: real, step: real, below: nat, above: nat)
    requires step >= 0.0 && x - low0 - step == below as real * step && high0 - x - step == above as real * step
    ensures Aligned(low0, high0, x - step, x + step, 6 * below, 6 * above) && At(x - step, x + step, 6) == x
  {
    Steps6(above, step);
    Steps6(below, step);
  }

  lemma StepsSign(c: nat, step: real)
    requires step >= 0.0
    ensures c as real * step >= 0.0
    ensures c == 0 ==> c as real * step == 0.0
  {
  }

  lemma StepsAtLeast(c: nat, step: real)
    requires step >= 0.0 && c >= 1
    ensures c as real * step >= step && c as real * step - step == (c - 1) as real * step
  {
    GrowsOrStays(1.0, c as real, step);
  }

  lemma Steps12(c: nat, step: real)
    ensures 12.0 * (c as real * step) == (12 * c) as real * step
  {
  }

  lemma Steps6(c: nat, step: real)
    ensures 12.0 * (c as real * step) == (6 * c) as real * (2.0 * step)
  {
  }

  // ---------------------------------------------------------------- five rounds

  predicate IsBox(b: Box) { b.lowRoll <= b.highRoll && b.lowScale <= b.highScale }

  lemma {:induction false} RoundsAlign(d: Direction, points: seq<FitPoint>, bounds: Box, n: nat)
      returns (mr: nat, nr: nat, ms: nat, ns: nat)
    requires IsBox(bounds)
    ensures var b := BoxOf(d, points, bounds, n);
            Aligned(bounds.lowRoll, bounds.highRoll, b.lowRoll, b.highRoll, mr, nr)
            && Aligned(bounds.lowScale, bounds.highScale, b.lowScale, b.highScale, ms, ns)
  {
    hide BestOf, At;
    if n == 0 { mr, nr, ms, ns := 0, 0, 0, 0; }
    else {
      mr, nr, ms, ns := RoundsAlign(d, points, bounds, n - 1);
      hide Aligned;
      var b := BoxOf(d, points, bounds, n - 1);
      var best := BestOf(d, points, b, 169);
      var jr, js;
      mr, nr, jr := NarrowingKeepsTheWinner(bounds.lowRoll, bounds.highRoll, b.lowRoll, b.highRoll, mr, nr, best / 13);
      ms, ns, js := NarrowingKeepsTheWinner(bounds.lowScale, bounds.highScale, b.lowScale, b.highScale, ms, ns,
                                            best % 13);
    }
  }

  /** The winner of a round is one of the 169 cells of the next. */
  lemma WinnerOnTheNextGrid(d: Direction, points: seq<FitPoint>, bounds: Box, n: nat) returns (cell: nat)
    requires IsBox(bounds)
    ensures cell < 169
    ensures var next := BoxOf(d, points, bounds, n + 1);
            RollAt(next, cell) == RollOfRound(d, points, bounds, n)
            && ScaleAt(next, cell) == ScaleOfRound(d, points, bounds, n)
    ensures bounds.lowRoll <= RollOfRound(d, points, bounds, n) <= bounds.highRoll
    ensures bounds.lowScale <= ScaleOfRound(d, points, bounds, n) <= bounds.highScale
  {
    hide BestOf, At;
    var mr, nr, ms, ns := RoundsAlign(d, points, bounds, n);
    hide Aligned;
    var b := BoxOf(d, points, bounds, n);
    var best := BestOf(d, points, b, 169);
    var m1, n1, jr := NarrowingKeepsTheWinner(bounds.lowRoll, bounds.highRoll, b.lowRoll, b.highRoll, mr, nr,
                                              best / 13);
    var m2, n2, js := NarrowingKeepsTheWinner(bounds.lowScale, bounds.highScale, b.lowScale, b.highScale, ms, ns,
                                              best % 13);
    cell := 13 * jr + js;
    CellOf(jr, js);
  }

  function ErrorOfRound(d: Direction, points: seq<FitPoint>, bounds: Box, n: nat): real {
    SumOfSquares(d, RollOfRound(d, points, bounds, n), ScaleOfRound(d, points, bounds, n), points)
  }

  lemma NextRoundIsNoWorse(d: Direction, points: seq<FitPoint>, bounds: Box, n: nat)
    requires IsBox(bounds)
    ensures ErrorOfRound(d, points, bounds, n + 1) <= ErrorOfRound(d, points, bounds, n)
  {
    var cell := WinnerOnTheNextGrid(d, points, bounds, n);
    hide BoxOf, RollAt, ScaleAt, SumOfSquares;
    var next := BoxOf(d, points, bounds, n + 1);
    assert ErrorAt(d, points, next, BestOf(d, points, next, 169)) <= ErrorAt(d, points, next, cell);
  }

  lemma {:induction false} LaterRoundsAreNoWorse(d: Direction, points: seq<FitPoint>, bounds: Box, n: nat, m: nat)
    requires IsBox(bounds) && n <= m
    ensures ErrorOfRound(d, points, bounds, m) <= ErrorOfRound(d, points, bounds, n)
  {
    hide ErrorOfRound;
    if n < m {
      LaterRoundsAreNoWorse(d, points, bounds, n, m - 1);
      NextRoundIsNoWorse(d, points, bounds, m - 1);
    }
  }

  /** What the search answers lies inside both bounds and is no worse than any of the 845 pairs it tried. */
  lemma SearchIsLeast(d: Direction, points: seq<FitPoint>, bounds: Box, n: nat, cell: nat)
    requires IsBox(bounds) && n <= 4 && cell < 169
    ensures bounds.lowRoll <= RollOfRound(d, points, bounds, 4) <= bounds.highRoll
    ensures bounds.lowScale <= ScaleOfRound(d, points, bounds, 4) <= bounds.highScale
    ensures SumOfSquares(d, RollOfRound(d, points, bounds, 4), ScaleOfRound(d, points, bounds, 4), points)
            <= SumOfSquares(d, RollAt(BoxOf(d, points, bounds, n), cell), ScaleAt(BoxOf(d, points, bounds, n), cell),
                            points)
  {
    var c := WinnerOnTheNextGrid(d, points, bounds, 4);
    LaterRoundsAreNoWorse(d, points, bounds, n, 4);
    hide BoxOf, RollAt, ScaleAt, SumOfSquares;
    var b := BoxOf(d, points, bounds, n);
    assert ErrorAt(d, points, b, BestOf(d, points, b, 169)) <= ErrorAt(d, points, b, cell);
  }

  // ---------------------------------------------------------------- the fit of a direction

  const DEFAULT_SCALES: (real, real) := (0.7, 1.3)
  const FIXED_SCALES: (real, real) := (1.0, 1.0)

  /** What a fit is worth. One point: its own crossing, at scale 1. More: a pair in both bounds, with its own
      residuals, whose sum of squares is no worse than that of any pair tried in the five rounds. */
  ghost predicate BestFit(d: Direction, fit: FitResult, points: seq<FitPoint>, rolls: (real, real),
                          scales: (real, real)) {
    && fit.points == |points| > 0 && rolls.0 <= fit.roll <= rolls.1
    && (|points| == 1 ==>
          fit.scale == 1.0 && fit.residuals == [] && Brackets(d, points[0], rolls.0, rolls.1, fit.roll))
    && (|points| > 1 ==>
          && scales.0 <= fit.scale <= scales.1
          && fit.residuals == Residuals(d, fit.roll, fit.scale, points)
          && (forall n, cell | 0 <= n <= 4 && 0 <= cell < 169 ::
                SumOfSquares(d, fit.roll, fit.scale, points)
                <= ErrorAt(d, points, BoxOf(d, points, Box(rolls.0, rolls.1, scales.0, scales.1), n), cell)))
  }

  /** The fit of points that are measurements. */
  function FitOf(d: Direction, points: seq<FitPoint>, rolls: (real, real), scales: (real, real)): FitResult
    requires points != []
  {
    if |points| == 1 then FitResult(RollOfOne(d, points[0], rolls.0, rolls.1), 1.0, [], 1)
    else
      var bounds := Box(rolls.0, rolls.1, scales.0, scales.1);
      var roll, scale := RollOfRound(d, points, bounds, 4), ScaleOfRound(d, points, bounds, 4);
      FitResult(roll, scale, Residuals(d, roll, scale, points), |points|)
  }

  method FitDirection(d: Direction, points: seq<FitPoint>, rolls: (real, real), scales: (real, real))
      returns (r: Result<FitResult, FitError>)
    requires rolls.0 <= rolls.1 && scales.0 <= scales.1
    ensures r.Failure? <==> CheckPoints(points).Some?
    ensures r.Failure? ==> CheckPoints(points) == Some(r.error)
    ensures r.Success? ==> r.value == FitOf(d, points, rolls, scales)
    ensures r.Success? ==> BestFit(d, r.value, points, rolls, scales)
  {
    hide BestFit, Brackets, BoxOf, RollOfRound, ScaleOfRound, RollOfOne;
    if points == [] { return Failure(NoMeasurement); }
    for i := 0 to |points|
      invariant forall j :: 0 <= j < i ==> Measurable(points[j])
    {
      if !Measurable(points[i]) { return Failure(BadMeasurement); }
    }
    var fit;
    if |points| == 1 {
      var roll := FitRollOnly(d, points[0], rolls.0, rolls.1);
      fit := FitResult(roll, 1.0, [], 1);
    } else {
      var roll, scale := SearchTheGrid(d, points, Box(rolls.0, rolls.1, scales.0, scales.1));
      fit := FitResult(roll, scale, Residuals(d, roll, scale, points), |points|);
    }
    assert fit == FitOf(d, points, rolls, scales);
    FitIsBest(d, points, rolls, scales);
    return Success(fit);
  }

  lemma FitIsBest(d: Direction, points: seq<FitPoint>, rolls: (real, real), scales: (real, real))
    requires rolls.0 <= rolls.1 && scales.0 <= scales.1 && CheckPoints(points).None?
    ensures BestFit(d, FitOf(d, points, rolls, scales), points, rolls, scales)
  {
    hide Brackets, BoxOf, RollOfRound, ScaleOfRound, SumOfSquares, RollAt, ScaleAt, RollOfOne;
    if |points| == 1 { OneIsBracketed(d, points[0], rolls.0, rolls.1); OneIsWithin(d, points[0], rolls.0, rolls.1); }
    else {
      var bounds := Box(rolls.0, rolls.1, scales.0, scales.1);
      var roll, scale := RollOfRound(d, points, bounds, 4), ScaleOfRound(d, points, bounds, 4);
      forall n, cell | 0 <= n <= 4 && 0 <= cell < 169
        ensures SumOfSquares(d, roll, scale, points) <= ErrorAt(d, points, BoxOf(d, points, bounds, n), cell)
      {
        SearchIsLeast(d, points, bounds, n, cell);
      }
      SearchIsLeast(d, points, bounds, 0, 0);
    }
  }

  lemma OneIsWithin(d: Direction, p: FitPoint, low: real, high: real)
    requires Brackets(d, p, low, high, RollOfOne(d, p, low, high))
    ensures low <= RollOfOne(d, p, low, high) <= high
  {
    hide RollOfOne;
  }

  // ---------------------------------------------------------------- from motor seconds, and back

  /** The seconds of a run that move the bar. */
  function Moving(d: Direction, seconds: real, slat: real): real {
    if d.Close? then seconds else Max(0.0, seconds - slat)
  }

  /** The share of a curtain time that a run moved the bar for, and no more than all of it. */
  function ShareOf(moving: real, curtain: real): real
    requires curtain > 0.0
  {
    Min(1.0, moving / curtain)
  }

  function PointOf(d: Direction, runTime: real, slat: real, reading: (real, real), height: real): FitPoint {
    FitPoint(ShareOf(Moving(d, reading.0, slat), Max(MIN_CURTAIN_TIME, runTime - slat)), reading.1, height)
  }

  datatype DirectionFit = DirectionFit(direction: Direction, fit: FitResult, slat: real, runTime: real,
                                       points: seq<FitPoint>)

  /** `corrected_run_time`: the slat phase and the curtain time the scale corrects. */
  function CorrectedRunTime(runTime: real, slat: real, scale: real): real
    requires scale > 0.0
  {
    slat + Max(0.0, runTime - slat) / scale
  }

  function PointsOf(d: Direction, runTime: real, slat: real, readings: seq<(real, real)>, height: real)
    : (r: seq<FitPoint>)
    ensures |r| == |readings|
    ensures forall i :: 0 <= i < |readings| ==> r[i] == PointOf(d, runTime, slat, readings[i], height)
  {
    seq(|readings|, i requires 0 <= i < |readings| => PointOf(d, runTime, slat, readings[i], height))
  }

  /** The fit of readings that are measurements. */
  function FitOfRun(d: Direction, runTime: real, slat: real, readings: seq<(real, real)>, height: real,
                    rolls: (real, real), scales: (real, real)): DirectionFit
    requires readings != []
  {
    var points := PointsOf(d, runTime, slat, readings, height);
    DirectionFit(d, FitOf(d, points, rolls, scales), slat, runTime, points)
  }

  method FitFromRun(d: Direction, runTime: real, slat: real, readings: seq<(real, real)>, height: real,
                    rolls: (real, real), scales: (real, real)) returns (r: Result<DirectionFit, FitError>)
    requires rolls.0 <= rolls.1 && scales.0 <= scales.1
    ensures r.Success? ==> readings != [] && r.value == FitOfRun(d, runTime, slat, readings, height, rolls, scales)
    ensures r.Success? ==>
              && r.value.direction == d && r.value.slat == slat && r.value.runTime == runTime
              && |r.value.points| == |readings| > 0
              && (forall i :: 0 <= i < |readings| ==>
                    r.value.points[i] == PointOf(d, runTime, slat, readings[i], height))
              && BestFit(d, r.value.fit, r.value.points, rolls, scales)
    ensures r.Failure? && r.error == NoMeasurement <==> readings == []
    ensures r.Failure? && r.error == BadMeasurement
            <==> exists i :: 0 <= i < |readings| && !Measurable(PointOf(d, runTime, slat, readings[i], height))
  {
    hide BestFit, CheckPoints, Measurable, FitOf;
    var curtain := Max(MIN_CURTAIN_TIME, runTime - slat);
    var points: seq<FitPoint> := [];
    for i := 0 to |readings|
      invariant |points| == i
      invariant forall j :: 0 <= j < i ==> points[j] == PointOf(d, runTime, slat, readings[j], height)
    {
      var moving := if d.Close? then readings[i].0 else Max(0.0, readings[i].0 - slat);
      points := points + [FitPoint(Min(1.0, moving / curtain), readings[i].1, height)];
    }
    var fit := FitDirection(d, points, rolls, scales);
    Refused(points);
    assert forall i :: 0 <= i < |readings| ==> points[i] == PointOf(d, runTime, slat, readings[i], height);
    assert points == PointsOf(d, runTime, slat, readings, height);
    match fit
    case Success(f) => return Success(DirectionFit(d, f, slat, runTime, points));
    case Failure(e) => return Failure(e);
  }

  lemma Refused(points: seq<FitPoint>)
    ensures CheckPoints(points) == Some(NoMeasurement) <==> points == []
    ensures CheckPoints(points) == Some(BadMeasurement) <==> exists i :: 0 <= i < |points| && !Measurable(points[i])
  {
  }

  /** How far above the model's estimate the bar ended. */
  function DeviationCm(d: Direction, roll: real, height: real, runTime: real, slat: real, seconds: real,
                       cm: real): real {
    cm - PredictCm(d, roll, 1.0, ShareOf(Moving(d, seconds, slat), Max(MIN_CURTAIN_TIME, runTime - slat)), height)
  }

  lemma PredictedByShare(d: Direction, roll: real, scale: real, f: real, height: real)
    ensures PredictCm(d, roll, scale, f, height) == PredictCm(d, roll, 1.0, Clamp01(Stretched(f, scale)), height)
  {
  }

  lemma PredictedOnce(d: Direction, roll: real, f: real, height: real)
    ensures PredictCm(d, roll, 1.0, f, height) == PredictCm(d, roll, 1.0, Clamp01(f), height)
  {
    PredictedByShare(d, roll, 1.0, f, height);
  }

  /** Over a curtain time `c` at scale `s`, and over `c / s` at scale 1: the same share of the travel exactly
      when the run was no longer than the curtain time, or the correction shortens it. */
  lemma SameShareOfTheRun(moving: real, c: real, s: real, c1: real)
    requires c > 0.0 && s > 0.0 && c1 > 0.0 && c1 * s == c
    ensures Clamp01(Stretched(ShareOf(moving, c), s)) == Clamp01(ShareOf(moving, c1)) <==> moving <= c || s >= 1.0
  {
    var q := moving / c;
    Undivided(moving, c);
    Divides(q * s, moving, c1) by { assert (q * s) * c1 == q * (c1 * s); }
    if q > 1.0 { Grows(1.0, q, c); Grows(1.0, q, s); }
    else { GrowsOrStays(q, 1.0, c); GrowsOrStays(q, 1.0, s); }
  }

  /** The model that is stored means what the fit meant: predicted with the corrected run time, each reading
      deviates by exactly minus its residual, if and only if its run was no longer than the configured
      curtain time or the scale is at least 1. */
  lemma CorrectedModelKeepsTheFit(d: Direction, roll: real, scale: real, runTime: real, slat: real,
                                  reading: (real, real), height: real)
    requires height > 0.0 && scale > 0.0
    requires runTime - slat >= MIN_CURTAIN_TIME && (runTime - slat) / scale >= MIN_CURTAIN_TIME
    ensures Residual(d, roll, scale, PointOf(d, runTime, slat, reading, height))
            == -DeviationCm(d, roll, height, CorrectedRunTime(runTime, slat, scale), slat, reading.0, reading.1)
            <==> Moving(d, reading.0, slat) <= runTime - slat || scale >= 1.0
  {
    var c := runTime - slat;
    Undivided(c, scale);
    CorrectedModelAt(d, roll, scale, runTime, slat, reading, height, c, c / scale,
                     CorrectedRunTime(runTime, slat, scale));
  }

  /** A reading it is false of: after 20 s of a close configured for 10 s, with a scale of 0.8 and a roll of 1,
      the fit has the bar 20 cm up and the stored model has it down. */
  lemma LongRunsPartTheModels(cm: real)
    ensures Residual(Close, 1.0, 0.8, PointOf(Close, 10.0, 0.0, (20.0, cm), 100.0)) == 20.0 - cm
    ensures DeviationCm(Close, 1.0, 100.0, CorrectedRunTime(10.0, 0.0, 0.8), 0.0, 20.0, cm) == cm
  {
  }

  lemma CorrectedModelAt(d: Direction, roll: real, scale: real, runTime: real, slat: real, reading: (real, real),
                         height: real, c: real, c1: real, run1: real)
    requires height > 0.0 && scale > 0.0 && c == runTime - slat && c >= MIN_CURTAIN_TIME
    requires c1 * scale == c && c1 >= MIN_CURTAIN_TIME && run1 - slat == c1
    ensures Residual(d, roll, scale, PointOf(d, runTime, slat, reading, height))
            == -DeviationCm(d, roll, height, run1, slat, reading.0, reading.1)
            <==> Moving(d, reading.0, slat) <= c || scale >= 1.0
  {
    hide Residual, DeviationCm, PointOf, PredictCm, Moving, Clamp01, ShareOf, Stretched;
    SameShareOfTheRun(Moving(d, reading.0, slat), c, scale, c1);
    ResidualByShare(d, roll, scale, runTime, slat, reading, height, c);
    DeviationByShare(d, roll, height, run1, slat, reading.0, reading.1, c1);
    AtShareTells(d, roll, height, Stretched(ShareOf(Moving(d, reading.0, slat), c), scale),
                 ShareOf(Moving(d, reading.0, slat), c1));
    hide AtShare;
    OppositeWhenEqual(Residual(d, roll, scale, PointOf(d, runTime, slat, reading, height)),
                      DeviationCm(d, roll, height, run1, slat, reading.0, reading.1),
                      AtShare(d, roll, height, Stretched(ShareOf(Moving(d, reading.0, slat), c), scale)),
                      AtShare(d, roll, height, ShareOf(Moving(d, reading.0, slat), c1)), reading.1);
  }

  /** A share of the configured time as a share of the true one. */
  function Stretched(share: real, scale: real): real { share * scale }

  /** The prediction at a share of the curtain time, as far as there is a curtain. */
  function AtShare(d: Direction, roll: real, height: real, share: real): real {
    PredictCm(d, roll, 1.0, Clamp01(share), height)
  }

  lemma AtShareTells(d: Direction, roll: real, height: real, x: real, y: real)
    requires height > 0.0
    ensures AtShare(d, roll, height, x) == AtShare(d, roll, height, y) <==> Clamp01(x) == Clamp01(y)
  {
    PredictionTellsFractions(d, roll, height, Clamp01(x), Clamp01(y));
  }

  lemma OppositeWhenEqual(residual: real, deviation: real, a: real, b: real, cm: real)
    requires residual == a - cm && deviation == cm - b
    ensures residual == -deviation <==> a == b
  {
  }

  lemma ResidualByShare(d: Direction, roll: real, scale: real, runTime: real, slat: real, reading: (real, real),
                        height: real, c: real)
    requires c == runTime - slat && c >= MIN_CURTAIN_TIME
    ensures Residual(d, roll, scale, PointOf(d, runTime, slat, reading, height))
            == AtShare(d, roll, height, Stretched(ShareOf(Moving(d, reading.0, slat), c), scale)) - reading.1
  {
    hide PointOf, Moving, ShareOf, Residual, AtShare, Stretched;
    PointIs(d, runTime, slat, reading, height, c);
    ResidualIs(d, roll, scale, ShareOf(Moving(d, reading.0, slat), c), reading.1, height);
  }

  lemma PointIs(d: Direction, runTime: real, slat: real, reading: (real, real), height: real, c: real)
    requires c == runTime - slat && c >= MIN_CURTAIN_TIME
    ensures PointOf(d, runTime, slat, reading, height)
            == FitPoint(ShareOf(Moving(d, reading.0, slat), c), reading.1, height)
  {
    hide Moving, ShareOf;
    CurtainIs(runTime, slat, c);
  }

  lemma ResidualIs(d: Direction, roll: real, scale: real, f: real, cm: real, height: real)
    ensures Residual(d, roll, scale, FitPoint(f, cm, height)) == AtShare(d, roll, height, Stretched(f, scale)) - cm
  {
    PredictedByShare(d, roll, scale, f, height);
    hide PredictCm, Clamp01;
  }

  lemma DeviationByShare(d: Direction, roll: real, height: real, runTime: real, slat: real, seconds: real, cm: real,
                         c: real)
    requires c == runTime - slat && c >= MIN_CURTAIN_TIME
    ensures DeviationCm(d, roll, height, runTime, slat, seconds, cm)
            == cm - AtShare(d, roll, height, ShareOf(Moving(d, seconds, slat), c))
  {
    hide Moving, PredictCm, Clamp01, ShareOf;
    CurtainIs(runTime, slat, c);
    PredictedOnce(d, roll, ShareOf(Moving(d, seconds, slat), c), height);
  }

  lemma CurtainIs(runTime: real, slat: real, c: real)
    requires c == runTime - slat && c >= MIN_CURTAIN_TIME
    ensures Max(MIN_CURTAIN_TIME, runTime - slat) == c
  {
  }
}
