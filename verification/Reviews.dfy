/** The review of a session that has come to its summary, and the save it promises. */
module Reviews {
  import opened Wrappers
  import opened Plans
  import opened Screens
  import opened Session
  import opened SessionInvariant
  import opened SessionTurns
  import opened Revisions
  import opened Safety
  import F = RollFit
  import M = Measurements
  import R = Resolution
  import C = CalibrationStores
  import T = StoredRecords

  // ---------------------------------------------------------------- the result

  /** Rounds the number of a key for the record. */
  type Rounding = (T.Key, real) -> real

  /** A fit of both directions as the numbers of a record. */
  function FittedNumbers(down: F.DirectionFit, up: F.DirectionFit, round: Rounding): map<T.Key, real>
    requires down.fit.scale > 0.0 && up.fit.scale > 0.0
  {
    map[T.OpeningTime := round(T.OpeningTime, F.CorrectedRunTime(up.runTime, up.slat, up.fit.scale)),
        T.ClosingTime := round(T.ClosingTime, F.CorrectedRunTime(down.runTime, down.slat, down.fit.scale)),
        T.SlatTime := round(T.SlatTime, up.slat),
        T.OpeningRoll := round(T.OpeningRoll, up.fit.roll),
        T.ClosingRoll := round(T.ClosingRoll, down.fit.roll)]
  }

  /** What a save would write of a conversation whose readings come to `fitted`. Where nothing could be fitted the
      times alone are stored, with a slat phase worked out elsewhere. */
  function ResultOf(path: Route, m: Measured, fitted: Option<(F.DirectionFit, F.DirectionFit)>, slat: real,
                    round: Rounding): R.Result
    requires fitted.Some? ==> fitted.value.0.fit.scale > 0.0 && fitted.value.1.fit.scale > 0.0
  {
    if path.Profile? then R.Result(None, map[], true)
    else if fitted.Some? then
      var values := FittedNumbers(fitted.value.0, fitted.value.1, round);
      if path.First? then
        R.Result(Some(T.ProfileNumbers(m.height.GetOr(0.0), values[T.OpeningTime], values[T.ClosingTime],
                                       values[T.SlatTime], values[T.OpeningRoll], values[T.ClosingRoll])),
                 values, false)
      else if m.timesAdopted then
        R.Result(None, map[T.OpeningRoll := values[T.OpeningRoll], T.ClosingRoll := values[T.ClosingRoll]], false)
      else R.Result(None, values, false)
    else
      R.Result(None, map[T.OpeningTime := round(T.OpeningTime, M.RunOf(m.opening)),
                         T.ClosingTime := round(T.ClosingTime, M.RunOf(m.closing)),
                         T.SlatTime := round(T.SlatTime, slat)], false)
  }

  /** What fitting the readings came to: nothing where something to fit is missing, else the two fits on the
      refined slat phase. */
  ghost predicate Fitted(m: Measured, fitted: Option<(F.DirectionFit, F.DirectionFit)>) {
    if M.Fittable(m) then
      && !M.SpoiltOn(m, M.SlatTime(m)) && !M.SpoiltOn(m, M.RefinedSlat(m))
      && fitted == Some((M.FitOn(m, M.RefinedSlat(m), Close), M.FitOn(m, M.RefinedSlat(m), Open)))
    else fitted.None?
  }

  /** The record keys of the two directions. */
  function TimeKey(d: Direction): T.Key { if d.Open? then T.OpeningTime else T.ClosingTime }

  function RollKey(d: Direction): T.Key { if d.Open? then T.OpeningRoll else T.ClosingRoll }

  /** What the fits of a conversation put into its result, the same for both directions: the roll fitted to the tape
      readings of that direction, and its own run with the curtain part of it divided by the scale fitted to
      them, next to the slat phase both fits stand on. */
  predicate FromItsFit(m: Measured, numbers: map<T.Key, real>, round: Rounding, d: Direction)
    requires M.Fittable(m) && !M.SpoiltOn(m, M.SlatTime(m)) && M.FitOn(m, M.RefinedSlat(m), d).fit.scale > 0.0
  {
    var slat, fit := M.RefinedSlat(m), M.FitOn(m, M.RefinedSlat(m), d).fit;
    var run := if d.Open? then m.opening.value.run else m.closing.value.run;
    && (RollKey(d) in numbers ==> numbers[RollKey(d)] == round(RollKey(d), fit.roll))
    && (TimeKey(d) in numbers ==>
          numbers[TimeKey(d)] == round(TimeKey(d), slat + (if run > slat then (run - slat) / fit.scale else 0.0)))
    && (T.SlatTime in numbers ==> numbers[T.SlatTime] == round(T.SlatTime, slat))
  }

  function PathOf(t: Talk): Route { t.choice.path.GetOr(First) }

  /** `r` is the result of the conversation, with some rounding and some slat phase for times alone. */
  ghost predicate IsResult(t: Talk, r: R.Result) {
    exists fitted, slat, round :: ResultFrom(t, r, fitted, slat, round)
  }

  ghost predicate ResultFrom(t: Talk, r: R.Result, fitted: Option<(F.DirectionFit, F.DirectionFit)>, slat: real,
                             round: Rounding)
  {
    && Fitted(t.measured, fitted)
    && (fitted.Some? ==> fitted.value.0.fit.scale > 0.0 && fitted.value.1.fit.scale > 0.0)
    && r == ResultOf(PathOf(t), t.measured, fitted, slat, round)
  }

  /** Which numbers a result holds and where they come from. Path B writes none and follows its profile. A fitted
      conversation writes for each direction what its own readings and its own run came to, the times not where
      they were adopted, and path A makes the same numbers a profile of the height the tape read; where
      nothing could be fitted the two runs are written as they are, with a slat phase worked out elsewhere. */
  predicate ResultSays(path: Route, m: Measured, r: R.Result, slat: real, round: Rounding)
    requires M.Fittable(m) ==> !M.SpoiltOn(m, M.SlatTime(m))
                               && forall d :: M.FitOn(m, M.RefinedSlat(m), d).fit.scale > 0.0
  {
    if path.Profile? then r == R.Result(None, map[], true)
    else
      && !r.followsProfile
      && (r.profile.Some? <==> path.First? && M.Fittable(m))
      && (r.profile.Some? ==>
            var p := r.profile.value;
            && r.overrides.Keys == {T.OpeningTime, T.ClosingTime, T.SlatTime, T.OpeningRoll, T.ClosingRoll}
            && p.opening == r.overrides[T.OpeningTime] && p.closing == r.overrides[T.ClosingTime]
            && p.slat == r.overrides[T.SlatTime] && p.openingRoll == r.overrides[T.OpeningRoll]
            && p.closingRoll == r.overrides[T.ClosingRoll] && Some(p.referenceHeight) == m.height)
      && (if M.Fittable(m) then
            && r.overrides.Keys == (if m.timesAdopted && !path.First? then {T.OpeningRoll, T.ClosingRoll}
                                    else {T.OpeningTime, T.ClosingTime, T.SlatTime, T.OpeningRoll, T.ClosingRoll})
            && FromItsFit(m, r.overrides, round, Open) && FromItsFit(m, r.overrides, round, Close)
          else
            var up := if m.opening.Some? then m.opening.value.run else 0.0;
            var down := if m.closing.Some? then m.closing.value.run else 0.0;
            r.overrides == map[T.OpeningTime := round(T.OpeningTime, up), T.ClosingTime := round(T.ClosingTime, down),
                               T.SlatTime := round(T.SlatTime, slat)])
  }

  lemma NumbersComeFromTheirFits(t: Talk, r: R.Result, fitted: Option<(F.DirectionFit, F.DirectionFit)>, slat: real,
                                 round: Rounding)
    requires ResultFrom(t, r, fitted, slat, round)
    ensures M.Fittable(t.measured) ==> !M.SpoiltOn(t.measured, M.SlatTime(t.measured))
                                       && forall d :: M.FitOn(t.measured, M.RefinedSlat(t.measured), d).fit.scale > 0.0
    ensures ResultSays(PathOf(t), t.measured, r, slat, round)
  {
    hide M.FitOn, M.SpoiltOn, M.RefinedSlat, M.SlatTime, F.CorrectedRunTime;
    var m := t.measured;
    if M.Fittable(m) {
      FitsOfTheirRuns(m);
      var down, up := M.FitOn(m, M.RefinedSlat(m), Close), M.FitOn(m, M.RefinedSlat(m), Open);
      forall d ensures M.FitOn(m, M.RefinedSlat(m), d).fit.scale > 0.0 { assert d == Close || d == Open; }
      TimeIs(down, m.closing.value.run, M.RefinedSlat(m));
      TimeIs(up, m.opening.value.run, M.RefinedSlat(m));
    }
  }

  lemma FitsOfTheirRuns(m: Measured)
    requires M.Fittable(m) && !M.SpoiltOn(m, M.SlatTime(m)) && !M.SpoiltOn(m, M.RefinedSlat(m))
    ensures var slat := M.RefinedSlat(m);
            var down, up := M.FitOn(m, slat, Close), M.FitOn(m, slat, Open);
            && down.slat == up.slat == slat && down.fit.scale > 0.0 && up.fit.scale > 0.0
            && down.runTime == m.closing.value.run && up.runTime == m.opening.value.run
  {
    hide M.FitOn, M.SpoiltOn, M.Stands, M.RefinedSlat, M.SlatTime;
    var slat := M.RefinedSlat(m);
    M.FitsStand(m, slat, Close);
    M.FitsStand(m, slat, Open);
    M.StandsOn(M.FitOn(m, slat, Close), M.RunIn(m, Close), slat, m.descent, m.height.GetOr(0.0), m.timesAdopted);
    M.StandsOn(M.FitOn(m, slat, Open), M.RunIn(m, Open), slat, m.ascent, m.height.GetOr(0.0), m.timesAdopted);
  }

  lemma TimeIs(f: F.DirectionFit, run: real, slat: real)
    requires f.fit.scale > 0.0 && f.runTime == run && f.slat == slat
    ensures F.CorrectedRunTime(f.runTime, f.slat, f.fit.scale)
            == slat + (if run > slat then (run - slat) / f.fit.scale else 0.0)
  {
  }

  /** The conversation as the review and the save read it. */
  function ConclusionOf(t: Talk, r: R.Result): R.Conclusion {
    R.Conclusion(PathOf(t), t.choice.name, t.choice.profile, t.measured, r)
  }

  lemma ResultIsSound(t: Talk, r: R.Result)
    requires IsResult(t, r) && (t.choice.path == Some(First) ==> t.choice.profile == None) && t.choice.path.Some?
    ensures R.Sound(ConclusionOf(t, r))
  {
    hide M.FitOn, M.SpoiltOn, M.RefinedSlat, M.SlatTime, F.CorrectedRunTime;
    var fitted, slat, round :| ResultFrom(t, r, fitted, slat, round);
  }

  // ---------------------------------------------------------------- the review of a run

  /** A live session on its summary, with the result it was built from. */
  ghost predicate Reviewing(s: State, r: R.Result) {
    !s.life.ended && s.talk.shown.step.Summing? && IsResult(s.talk, r)
  }

  /** Over every run: on the summary of a live session, whatever the fit, the store and the file, the numbers the
      review shows for the first exit on offer are those the cover has once that exit has been saved. */
  lemma ReachableReviewIsCommit(w: World, client: string, path: Option<Route>, profile: Option<string>,
                                turns: seq<(World, Event)>, r: R.Result, c: C.Contents, cover: string, kept: R.Kept,
                                file: map<string, T.ProfileConfig>, device: R.Device, scale: R.Scaling)
    requires R.Validated(device) && Reviewing(LifeOf(w, client, path, profile, turns), r)
    ensures var t := LifeOf(w, client, path, profile, turns).talk;
            R.Reviewed(ConclusionOf(t, r), c, cover, file, device, scale)
            == R.Committed(ConclusionOf(t, r), c, cover, Targets(t)[0], kept, file, device, scale)
    ensures var t := LifeOf(w, client, path, profile, turns).talk;
            R.RunsOn(ConclusionOf(t, r), Targets(t)[0], R.StoredFor(c, cover), device, scale,
                     R.Reviewed(ConclusionOf(t, r), c, cover, file, device, scale))
  {
    hide LifeOf, Inv, IsResult, Settled, R.Reviewed, R.Committed, R.Sound, R.RunsOn, R.Validated, R.StoredFor;
    var s := LifeOf(w, client, path, profile, turns);
    LifeIsKept(w, client, path, profile, turns);
    LiveIsSettled(s);
    PathAtTheSummary(s);
    ResultIsSound(s.talk, r);
    R.PreviewIsCommit(ConclusionOf(s.talk, r), c, cover, kept, file, device, scale);
  }

  lemma PathAtTheSummary(s: State)
    requires Settled(s) && s.talk.shown.step.Summing?
    ensures s.talk.choice.path.Some? && (s.talk.choice.path == Some(First) ==> s.talk.choice.profile == None)
    ensures Targets(s.talk) != [] && Targets(s.talk)[0] == R.MainTarget(PathOf(s.talk))
  {
    hide TasksKept, TrustKept, LifeKept, JobsKept, MovingKept, ReadingsKept, AimKept, NothingToFit, WellFormed;
  }

  // ---------------------------------------------------------------- the save

  /** The exits a path has: path A's profile, under a name a profile may have, or its own numbers for this cover alone;
      path B's profile; path C's numbers. */
  predicate MaySave(t: Talk, target: Target) {
    match t.choice.path
    case Some(First) => target.CoverOnly? || IsAName(t.choice.name.GetOr(""))
    case Some(Profile) => target.ProfileTarget?
    case _ => target.CoverOnly?
  }

  /** A save is taken up exactly where the summary of a live session stands at that revision, nobody else holds it, and
      the exit is one of its path; then it waits for the store and changes nothing else of the conversation, and
      refused it changes nothing at all. */
  lemma SaveGetsThrough(s: State, w: World, client: string, revision: nat, target: Target)
    requires Inv(s)
    ensures var r := Turn(s, w, Save(client, revision, target));
            var held := s.life.owner.Some? && s.life.owner != Some(client) && w.now - s.life.ownerSeen < 45.0;
            if !s.life.ended && !held && s.talk.shown.step.Summing? && revision == s.life.revision
               && MaySave(s.talk, target) then
              && r.life.saves == s.life.saves + [target] && r.life.owner == Some(client) && !r.life.ended
              && r.life.revision == s.life.revision && r.talk == s.talk && r.engine == s.engine && r.place == s.place
            else r == s
  {
    hide Inv, IsAName, Settled;
    if !s.life.ended && s.talk.shown.step.Summing? {
      LiveIsSettled(s);
      SummaryIsReviewed(s);
    }
  }

  lemma SummaryIsReviewed(s: State)
    requires Settled(s) && s.talk.shown.step.Summing?
    ensures s.talk.review.Some? && (s.talk.choice.path == Some(First) ==> s.talk.choice.profile == None)
  {
    hide TasksKept, TrustKept, LifeKept, JobsKept, MovingKept, ReadingsKept, AimKept, NothingToFit, WellFormed,
      PlanKept;
  }

  // ---------------------------------------------------------------- as long as it is shown

  /** Nothing the result is made of, nor the review, changes. */
  predicate SameConclusion(t: Talk, r: Talk) {
    r.choice == t.choice && r.measured == t.measured && r.review == t.review
  }

  lemma ThoroughLeaves(s: State, w: World)
    requires PlanKept(s.talk) && s.talk.shown.step.Summing?
    ensures Do(s, w, GoThorough).talk.shown.step == TapeBriefing
  {
    hide Reordered;
    assert PLAN_PRECISE[0] == PLAN_PRECISE_TRAVEL[0] == TapeBrief;
  }

  lemma ActOnTheSummary(s: State, w: World, client: string, revision: nat, a: Action, v: Value)
    requires Inv(s) && !s.life.ended && s.talk.shown.step.Summing?
    ensures var r := TurnAct(s, w, client, revision, a, v); !r.talk.shown.step.Summing? || r == s
  {
    hide Inv, Settled, Taken, Do, Pump, GuardAct, Offered, PlanKept;
    LiveIsSettled(s);
    OnTheSummary(s);
    if GuardAct(s, w, client, revision, a).None? {
      OnlyThorough(s, w, client, revision, a);
      var s1 := Taken(s, w, client);
      TakenCounts(s, w, client);
      ThoroughLeaves(s1, w);
      PumpCounts(Do(s1, w, a));
    }
  }

  lemma OnlyThorough(s: State, w: World, client: string, revision: nat, a: Action)
    requires s.talk.shown.step.Summing? && s.talk.shown.notice != Some(ReadingStale)
    requires GuardAct(s, w, client, revision, a).None?
    ensures a == GoThorough
  {
  }

  lemma OnTheSummary(s: State)
    requires Settled(s) && s.talk.shown.step.Summing?
    ensures PlanKept(s.talk) && s.talk.shown.notice != Some(ReadingStale) && NoLiveJob(s.engine)
  {
    StillIsIdle(s.talk, s.engine, s.place.at);
    hide TasksKept, TrustKept, LifeKept, JobsKept, MovingKept, ReadingsKept, PathKept, PlanKept, NoLiveJob;
  }

  lemma TaskOnTheSummary(s: State, w: World, which: nat, answer: Answer)
    requires NoLiveJob(s.engine) && which < |s.engine.tasks|
    ensures SameConclusion(s.talk, RunTask(s, w, which, answer).talk)
  {
    hide Conclude, Launch;
  }

  lemma AsyncEndConcludes(s: State, w: World, reason: EndReason, stop: bool)
    ensures var r := AsyncEnd(s, w, reason, stop); r.life.ended || SameConclusion(s.talk, r.talk)
  {
    hide End;
    if !s.life.ended { EndGoes(NextGeneration(s), w, reason); }
  }

  lemma StopOnTheSummary(s: State, w: World, client: string, answer: Answer)
    requires s.talk.shown.step.Summing?
    ensures var r := TurnStop(s, w, client, answer); SameConclusion(s.talk, r.talk) || !r.talk.shown.step.Summing?
  {
    hide OwnedByAnother;
  }

  lemma VerbOnTheSummary(s: State, w: World, e: Event)
    requires s.talk.shown.step.Summing?
    requires e.Stop? || e.Attach? || e.Heartbeat? || e.Save? || e.PressTimer? || e.CoverMoves? || e.CoverRests?
    ensures SameConclusion(s.talk, Turn(s, w, e).talk) || !Turn(s, w, e).talk.shown.step.Summing?
  {
    hide GuardSave, TurnAct, RunTask, TurnStop, OwnedByAnother, ShowProblem;
    match e
    case Stop(client, answer) => StopOnTheSummary(s, w, client, answer);
    case PressTimer =>
      ProblemLeaves(s.(engine := Overtake(s.engine).(pressTimer := None, press := None, movement := None)), w, Timeout);
    case CoverRests(_) =>
      ProblemLeaves(s.(engine := Overtake(s.engine).(movement := None, press := None, pressTimer := None),
                       place := s.place.(at := None)), w, Interrupted);
    case _ =>
  }

  lemma ProblemLeaves(s: State, w: World, reason: Reason)
    ensures ShowProblem(s, w, reason).talk.shown.step.Problem?
  {
  }

  /** A turn that leaves a live session on its summary leaves what the review was made of: the result it was built
      with is still the result of the conversation when a save comes. */
  lemma SummaryStands(s: State, w: World, e: Event)
    requires Inv(s) && !s.life.ended && s.talk.shown.step.Summing?
    ensures var r := Turn(s, w, e); r.life.ended || !r.talk.shown.step.Summing? || SameConclusion(s.talk, r.talk)
  {
    LiveIsSettled(s);
    OnTheSummary(s);
    hide Inv, Settled, PlanKept, NoLiveJob, TurnAct, RunTask, TurnStop, TurnSave, TurnPressTimer, External, End, Finish,
      AsyncEnd, AnythingMeasured;
    match e
    case Act(client, revision, action, value) => ActOnTheSummary(s, w, client, revision, action, value);
    case TaskTurn(which, answer) => if which < |s.engine.tasks| { TaskOnTheSummary(s, w, which, answer); }
    case Leave(_) | Cancel(_, _) | SaveReturns(_, _) | LeaseTimer | Unload | EndingReturns(_) =>
      EndingOnTheSummary(s, w, e);
      hide Turn;
    case _ => VerbOnTheSummary(s, w, e); hide Turn;
  }

  lemma EndingOnTheSummary(s: State, w: World, e: Event)
    requires !s.life.ended
    requires e.Leave? || e.Cancel? || e.SaveReturns? || e.LeaseTimer? || e.Unload? || e.EndingReturns?
    ensures var r := Turn(s, w, e); r.life.ended || SameConclusion(s.talk, r.talk)
  {
    hide TurnAct, RunTask, End, Finish, AsyncEnd, AnythingMeasured;
    match e
    case Leave(_) => EndGoes(s, w, Left);
    case Cancel(client, _) => AsyncEndConcludes(Take(s, w, client), w, Cancelled, false);
    case SaveReturns(which, _) =>
      if which < |s.life.saves| { EndGoes(s.(life := s.life.(saves := Without(s.life.saves, which))), w, Saved); }
    case LeaseTimer => AsyncEndConcludes(s.(life := s.life.(lease := None)), w, Expired, true);
    case Unload => AsyncEndConcludes(s, w, Unloaded, true);
    case EndingReturns(which) =>
      if which < |s.life.endings| {
        EndGoes(s.(life := s.life.(endings := Without(s.life.endings, which))), w, s.life.endings[which]);
      }
  }
}
