/** From what a conversation measured to the model it stores (calibration_measure.py). */
module Measurements {
  import opened Wrappers
  import opened Plans
  import opened RollModel
  import opened RollFit
  import S = Session

  const ROLLS: (real, real) := (MIN_ROLL, MAX_ROLL)

  /** The slat phase that goes into the fit: that of the accepted opening, else of the lift-off alone, else none. */
  function SlatTime(m: S.Measured): real {
    if m.opening.Some? && m.opening.value.slat.Some? then m.opening.value.slat.value else m.slatSeconds.GetOr(0.0)
  }

  function ScalesFor(m: S.Measured): (real, real) { if m.timesAdopted then FIXED_SCALES else DEFAULT_SCALES }

  function RunOf(t: Option<S.Timing>): real { if t.Some? then t.value.run else 0.0 }

  /** A fit that stands: of that run, that slat phase and those readings, and the best one in the sense of
      `BestFit`, over the physical rolls and the scales a press may be out by, or none for an adopted time. */
  ghost predicate Stands(f: DirectionFit, run: real, slat: real, readings: seq<(real, real)>, height: real,
                         adopted: bool) {
    && f.runTime == run && f.slat == slat && |f.points| == |readings| > 0
    && (forall i :: 0 <= i < |readings| ==> f.points[i] == PointOf(f.direction, run, slat, readings[i], height))
    && BestFit(f.direction, f.fit, f.points, ROLLS, if adopted then FIXED_SCALES else DEFAULT_SCALES)
  }

  /** The numbers a standing fit is made of. */
  lemma StandsWithin(f: DirectionFit, run: real, slat: real, readings: seq<(real, real)>, height: real, adopted: bool)
    requires Stands(f, run, slat, readings, height, adopted)
    ensures MIN_ROLL <= f.fit.roll <= MAX_ROLL && 0.7 <= f.fit.scale <= 1.3 && (adopted ==> f.fit.scale == 1.0)
  {
    hide Brackets, SumOfSquares, BoxOf, ErrorAt, PointOf, Residuals;
  }

  /** A reading that is no measurement for that run and slat phase. */
  predicate Spoilt(d: Direction, run: real, slat: real, readings: seq<(real, real)>, height: real) {
    readings == [] || exists i :: 0 <= i < |readings| && !Measurable(PointOf(d, run, slat, readings[i], height))
  }

  function RunIn(m: S.Measured, d: Direction): real { RunOf(if d.Close? then m.closing else m.opening) }

  function ReadingsIn(m: S.Measured, d: Direction): seq<(real, real)> { if d.Close? then m.descent else m.ascent }

  /** The fit of one direction of a conversation on a slat phase. */
  function FitOn(m: S.Measured, slat: real, d: Direction): DirectionFit
    requires ReadingsIn(m, d) != []
  {
    FitOfRun(d, RunIn(m, d), slat, ReadingsIn(m, d), m.height.GetOr(0.0), ROLLS, ScalesFor(m))
  }

  predicate SpoiltOn(m: S.Measured, slat: real) {
    exists d :: Spoilt(d, RunIn(m, d), slat, ReadingsIn(m, d), m.height.GetOr(0.0))
  }

  /** The fits of both directions, of one slat phase; refused exactly when one of them has no reading, or a reading
      that is no measurement. */
  method FitBoth(m: S.Measured, slat: real) returns (r: Result<(DirectionFit, DirectionFit), FitError>)
    ensures r.Failure? <==> SpoiltOn(m, slat)
    ensures r.Failure? && m.descent != [] && m.ascent != [] ==> r.error == BadMeasurement
    ensures r.Success? ==> m.descent != [] && m.ascent != [] && r.value == (FitOn(m, slat, Close), FitOn(m, slat, Open))
    ensures r.Success? ==> Stands(r.value.0, RunOf(m.closing), slat, m.descent, m.height.GetOr(0.0), m.timesAdopted)
                           && Stands(r.value.1, RunOf(m.opening), slat, m.ascent, m.height.GetOr(0.0), m.timesAdopted)
                           && r.value.0.direction == Close && r.value.1.direction == Open
  {
    hide PointOf, BestFit, Measurable, FitOfRun;
    assert SpoiltOn(m, slat) <==> Spoilt(Close, RunOf(m.closing), slat, m.descent, m.height.GetOr(0.0))
                                  || Spoilt(Open, RunOf(m.opening), slat, m.ascent, m.height.GetOr(0.0))
      by { SpoiltEither(m, slat); }
    var height := m.height.GetOr(0.0);
    var down := FitFromRun(Close, RunOf(m.closing), slat, m.descent, height, ROLLS, ScalesFor(m));
    if down.Failure? { return Failure(down.error); }
    var up := FitFromRun(Open, RunOf(m.opening), slat, m.ascent, height, ROLLS, ScalesFor(m));
    if up.Failure? { return Failure(up.error); }
    return Success((down.value, up.value));
  }

  lemma SpoiltEither(m: S.Measured, slat: real)
    ensures SpoiltOn(m, slat) <==> Spoilt(Close, RunOf(m.closing), slat, m.descent, m.height.GetOr(0.0))
                                   || Spoilt(Open, RunOf(m.opening), slat, m.ascent, m.height.GetOr(0.0))
  {
    hide Spoilt;
    assert RunIn(m, Close) == RunOf(m.closing) && RunIn(m, Open) == RunOf(m.opening);
    if Spoilt(Close, RunOf(m.closing), slat, m.descent, m.height.GetOr(0.0)) {
      assert Spoilt(Close, RunIn(m, Close), slat, ReadingsIn(m, Close), m.height.GetOr(0.0));
    }
    if Spoilt(Open, RunOf(m.opening), slat, m.ascent, m.height.GetOr(0.0)) {
      assert Spoilt(Open, RunIn(m, Open), slat, ReadingsIn(m, Open), m.height.GetOr(0.0));
    }
  }

  function CurtainTime(f: DirectionFit): real
    requires f.fit.scale > 0.0
  {
    Max(0.0, f.runTime - f.slat) / f.fit.scale
  }

  /** `raw` corrected by the tape, where there is a tape to correct it with; None is the refusal of the roll model. */
  function SlatFromGap(m: S.Measured, raw: real, roll: real, height: Option<real>, curtain: real): (r: Option<real>)
    ensures r.Some? && r.value != raw && m.liftRun.GetOr(0.0) >= 0.0 ==> 0.0 <= r.value <= m.liftRun.GetOr(0.0)
    ensures m.liftGap.None? || m.liftRun.None? || curtain <= 0.0 ==> r == Some(raw)
    ensures r.None? ==> height.GetOr(0.0) < 0.0
  {
    if m.liftGap.None? || m.liftRun.None? then Some(raw)
    else if height.GetOr(0.0) == 0.0 || curtain <= 0.0 then Some(raw)
    else SlatTimeFromGap(m.liftRun.value, m.liftGap.value, roll, height.value, curtain)
  }

  predicate Fittable(m: S.Measured) {
    m.opening.Some? && m.closing.Some? && m.height.GetOr(0.0) != 0.0 && m.descent != [] && m.ascent != []
  }

  // ---------------------------------------------------------------- the slat phase the fits stand on

  lemma FitsStand(m: S.Measured, slat: real, d: Direction)
    requires ReadingsIn(m, d) != [] && !SpoiltOn(m, slat)
    ensures Stands(FitOn(m, slat, d), RunIn(m, d), slat, ReadingsIn(m, d), m.height.GetOr(0.0), m.timesAdopted)
    ensures m.height.GetOr(0.0) > 0.0
  {
    hide PointOf, BestFit, Measurable, FitOf;
    var height, readings := m.height.GetOr(0.0), ReadingsIn(m, d);
    var points := PointsOf(d, RunIn(m, d), slat, readings, height);
    assert !Spoilt(d, RunIn(m, d), slat, readings, height);
    forall i | 0 <= i < |points| ensures Measurable(points[i]) {
      assert Measurable(PointOf(d, RunIn(m, d), slat, readings[i], height));
    }
    FitIsBest(d, points, ROLLS, ScalesFor(m));
    HeightOfPoint(d, RunIn(m, d), slat, readings[0], height);
  }

  lemma HeightOfPoint(d: Direction, run: real, slat: real, reading: (real, real), height: real)
    ensures Measurable(PointOf(d, run, slat, reading, height)) ==> height > 0.0
  {
  }

  /** The slat phase of the second fit: the first fit's opening roll and curtain time put the gap into seconds. */
  function RefinedSlat(m: S.Measured): real
    requires Fittable(m) && !SpoiltOn(m, SlatTime(m))
  {
    var raw := SlatTime(m);
    FitsStand(m, raw, Open);
    var up := FitOn(m, raw, Open);
    StandsWithin(up, RunIn(m, Open), raw, m.ascent, m.height.GetOr(0.0), m.timesAdopted);
    SlatFromGap(m, raw, up.fit.roll, m.height, CurtainTime(up)).value
  }

  /** What the taped gap is put into seconds with: the run of the lift-off, and the roll and curtain time of the ascent
      as it was first fitted, on the slat phase of the accepted opening or else of the lift-off alone. */
  lemma GapRefinesTheAscent(m: S.Measured)
    requires Fittable(m) && !SpoiltOn(m, SlatTime(m))
    ensures var raw := if m.opening.value.slat.Some? then m.opening.value.slat.value else m.slatSeconds.GetOr(0.0);
            var up := FitOn(m, raw, Open);
            && SlatTime(m) == raw && up.fit.scale > 0.0 && m.height.Some?
            && var curtain := Max(0.0, m.opening.value.run - raw) / up.fit.scale;
               if m.liftGap.None? || m.liftRun.None? || curtain <= 0.0 then RefinedSlat(m) == raw
               else Some(RefinedSlat(m)) == SlatTimeFromGap(m.liftRun.value, m.liftGap.value, up.fit.roll,
                                                            m.height.value, curtain)
  {
    hide FitOn, SpoiltOn, Stands, SlatTimeFromGap;
    var raw := SlatTime(m);
    FitsStand(m, raw, Open);
    StandsOn(FitOn(m, raw, Open), RunIn(m, Open), raw, m.ascent, m.height.GetOr(0.0), m.timesAdopted);
  }

  lemma ShareSign(moving: real, curtain: real)
    requires curtain > 0.0
    ensures 0.0 < ShareOf(moving, curtain) <= 1.0 <==> moving > 0.0
  {
    if moving > 0.0 { RatioSign(moving, curtain); } else { NoRatio(moving, curtain); }
  }

  lemma NoRatio(moving: real, curtain: real)
    requires curtain > 0.0 && moving <= 0.0
    ensures moving / curtain <= 0.0
  {
  }

  /** What a change of the slat phase can spoil: an ascent that is over before the bar moves. */
  lemma SpoiltByTheSlat(m: S.Measured, slat: real, slat1: real)
    requires m.descent != [] && m.ascent != [] && !SpoiltOn(m, slat)
    ensures SpoiltOn(m, slat1) <==> exists i :: 0 <= i < |m.ascent| && m.ascent[i].0 <= slat1
  {
    hide ShareOf, PointOf, Measurable;
    SpoiltEither(m, slat);
    SpoiltEither(m, slat1);
    hide SpoiltOn;
    var h := m.height.GetOr(0.0);
    forall i | 0 <= i < |m.descent| ensures Measurable(PointOf(Close, RunOf(m.closing), slat1, m.descent[i], h)) {
      SamePoint(Close, RunOf(m.closing), slat, slat1, m.descent[i], h);
    }
    forall i | 0 <= i < |m.ascent|
      ensures Measurable(PointOf(Open, RunOf(m.opening), slat1, m.ascent[i], h)) <==> m.ascent[i].0 > slat1
    {
      SamePoint(Open, RunOf(m.opening), slat, slat1, m.ascent[i], h);
    }
  }

  lemma SamePoint(d: Direction, run: real, slat: real, slat1: real, reading: (real, real), height: real)
    requires Measurable(PointOf(d, run, slat, reading, height))
    ensures Measurable(PointOf(d, run, slat1, reading, height)) <==> d.Close? || reading.0 > slat1
  {
    hide ShareOf;
    ShareSign(Moving(d, reading.0, slat), Max(MIN_CURTAIN_TIME, run - slat));
    ShareSign(Moving(d, reading.0, slat1), Max(MIN_CURTAIN_TIME, run - slat1));
  }

  /** Two fits in turn: on the press's slat phase, and where a gap was taped again on the one it refines that to. The
      answer is missing exactly when something to fit is; refused exactly when a reading is no measurement on
      the first slat phase, or an ascent is over before the second; and otherwise it is the pair of fits on the
      second, each the best of its readings. */
  method Fits(m: S.Measured) returns (r: Result<Option<(DirectionFit, DirectionFit)>, FitError>)
    ensures r.Success? && r.value.None? <==> !Fittable(m)
    ensures r.Failure? <==> Fittable(m) && (SpoiltOn(m, SlatTime(m))
                                            || exists i :: 0 <= i < |m.ascent| && m.ascent[i].0 <= RefinedSlat(m))
    ensures r.Failure? ==> r.error == BadMeasurement
    ensures r.Success? && r.value.Some? ==>
              var (down, up) := r.value.value;
              && down == FitOn(m, RefinedSlat(m), Close) && up == FitOn(m, RefinedSlat(m), Open)
              && Stands(down, m.closing.value.run, up.slat, m.descent, m.height.value, m.timesAdopted)
              && Stands(up, m.opening.value.run, up.slat, m.ascent, m.height.value, m.timesAdopted)
              && up.slat == RefinedSlat(m)
              && (up.slat == SlatTime(m)
                  || (m.liftGap.Some? && m.liftRun.Some?
                      && (m.liftRun.value >= 0.0 ==> 0.0 <= up.slat <= m.liftRun.value)))
  {
    hide Stands, SpoiltOn, FitOn, SlatFromGap;
    if !Fittable(m) { return Success(None); }
    var raw := SlatTime(m);
    var both := FitBoth(m, raw);
    if both.Failure? { return Failure(both.error); }
    FitsStand(m, raw, Close);
    FitsStand(m, raw, Open);
    var (down, up) := both.value;
    StandsOn(up, RunIn(m, Open), raw, m.ascent, m.height.value, m.timesAdopted);
    var refined := SlatFromGap(m, up.slat, up.fit.roll, m.height, CurtainTime(up));
    SpoiltByTheSlat(m, raw, refined.value);
    if refined.value != up.slat {
      both := FitBoth(m, refined.value);
      if both.Failure? { return Failure(both.error); }
      FitsStand(m, refined.value, Close);
      FitsStand(m, refined.value, Open);
    }
    StandsOn(both.value.1, RunIn(m, Open), refined.value, m.ascent, m.height.value, m.timesAdopted);
    return Success(Some(both.value));
  }

  lemma StandsOn(f: DirectionFit, run: real, slat: real, readings: seq<(real, real)>, height: real, adopted: bool)
    requires Stands(f, run, slat, readings, height, adopted)
    ensures f.slat == slat && f.runTime == run && f.fit.scale > 0.0
  {
    StandsWithin(f, run, slat, readings, height, adopted);
    hide BestFit, PointOf;
  }

  /** Adopted times come out as they went in, as long as the run is no shorter than its slat phase. */
  lemma AdoptedTimesAreKept(f: DirectionFit, run: real, slat: real, readings: seq<(real, real)>, height: real)
    requires Stands(f, run, slat, readings, height, true)
    ensures f.fit.scale > 0.0 && CorrectedRunTime(f.runTime, f.slat, f.fit.scale) == Max(run, slat)
  {
    StandsWithin(f, run, slat, readings, height, true);
    hide PointOf, BestFit;
  }

  /** A fit that stands is stored as a model that keeps its meaning: each reading whose run was no longer
      than the configured curtain time deviates from the stored model by exactly minus its residual. */
  lemma StoredFitMeansTheSame(f: DirectionFit, run: real, slat: real, readings: seq<(real, real)>, height: real,
                              adopted: bool, i: nat)
    requires Stands(f, run, slat, readings, height, adopted) && i < |readings| && height > 0.0
    requires run - slat >= 1.3 * MIN_CURTAIN_TIME
    ensures f.fit.scale > 0.0
    ensures Residual(f.direction, f.fit.roll, f.fit.scale, f.points[i])
            == -DeviationCm(f.direction, f.fit.roll, height, CorrectedRunTime(f.runTime, f.slat, f.fit.scale), slat,
                            readings[i].0, readings[i].1)
            <==> Moving(f.direction, readings[i].0, slat) <= run - slat || f.fit.scale >= 1.0
  {
    StandsWithin(f, run, slat, readings, height, adopted);
    hide Residual, DeviationCm, PointOf, Moving, CorrectedRunTime, BestFit;
    LongEnough(run - slat, f.fit.scale);
    CorrectedModelKeepsTheFit(f.direction, f.fit.roll, f.fit.scale, run, slat, readings[i], height);
  }

  lemma LongEnough(c: real, scale: real)
    requires c >= 1.3 * MIN_CURTAIN_TIME && 0.7 <= scale <= 1.3
    ensures c >= MIN_CURTAIN_TIME && c / scale >= MIN_CURTAIN_TIME
  {
    var q := c / scale;
    Undivided(c, scale);
    if q < MIN_CURTAIN_TIME {
      Grows(q, MIN_CURTAIN_TIME, scale);
      GrowsOrStays(scale, 1.3, MIN_CURTAIN_TIME);
    }
  }
}
