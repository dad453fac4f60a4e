/** Where the readings come from: every entry of a list, at every moment, was read off the tape after a run of
    one stage of the plan, and that stage still stands in the plan as the one the entry counts for. */
module Readings {
  import opened Wrappers
  import opened Plans
  import opened Screens
  import opened Session
  import opened SessionInvariant
  import opened SessionProof
  import opened SessionTurns
  import opened SessionEffects
  import opened Revisions
  import opened Endings
  import opened Safety
  import opened Steps

  // ---------------------------------------------------------------- what a turn does to the walk

  /** The walk of the plan, its readings and the report of the last run are untouched. */
  predicate SameWalk(t: Talk, r: Talk) {
    && r.plan == t.plan && r.index == t.index && r.report == t.report
    && r.measured.descent == t.measured.descent && r.measured.ascent == t.measured.ascent
  }

  /** The walk went on, and every fitting stage up to where it was is where it was. */
  ghost predicate Onward(t: Talk, r: Talk) {
    && OnPlan(t) && OnPlan(r) && t.index.value <= r.index.value
    && forall j :: 0 <= j <= t.index.value && (j < t.index.value || Movable(t.plan[j])) ==> r.plan[j] == t.plan[j]
  }

  /** No reading is new, what remains of the readings remains over the same walk, and a report remains only
      with the stage it was made for. */
  ghost predicate Walked(t: Talk, r: Talk) {
    && r.measured.descent <= t.measured.descent && r.measured.ascent <= t.measured.ascent
    && (r.measured.descent != [] || r.measured.ascent != [] ==> Onward(t, r))
    && (r.report.Some? ==> r.report == t.report && r.plan == t.plan && r.index == t.index)
  }

  lemma SameIsWalked(t: Talk, r: Talk)
    requires PlanKept(t) && SameWalk(t, r)
    ensures Walked(t, r)
  {
    hide WellFormed, Sits;
  }

  // ---------------------------------------------------------------- screens that leave the walk alone

  lemma ShowWalks(s: State, w: World, step: Screen, error: Option<FormError>, notice: Option<Notice>, reason: Reason)
    ensures SameWalk(s.talk, ShowWith(s, w, step, error, notice).talk)
    ensures SameWalk(s.talk, ShowProblem(s, w, reason).talk)
  {
  }

  lemma MovementWalks(s: State, w: World, step: Screen, kind: Kind, direction: Direction,
                      p: Primitive, next: Next, notice: Option<Notice>)
    ensures SameWalk(s.talk, BeginMovement(s, w, step, kind, direction, p, next, notice).talk)
  {
  }

  lemma LiftWalks(s: State, w: World)
    ensures SameWalk(s.talk, LiftMeasured(s, w).talk)
  {
  }

  lemma GotoWalks(s: State, w: World, next: Next, notice: Option<Notice>)
    ensures SameWalk(s.talk, Goto(s, w, next, notice).talk)
  {
    hide LiftMeasured, BeginMovement, ShowWith;
    match next
    case ToTheLift => LiftWalks(s, w);
    case ToTheRun =>
      var (direction, fraction) := s.talk.aim.pending.GetOr((Close, 0.5));
      MovementWalks(s, w, TapeRun, Fraction, direction, RunTo(direction, fraction), ToScreen(s.talk.aim.form), None);
    case ToScreen(screen) =>
      ShowWalks(s, w, screen, None, notice, Unknown);
      var press := if screen == OpenLift then LiftOffPress else EndStopPress;
      ShowWalks(ArmPress(s, w, press), w, screen, None, None, Unknown);
  }

  lemma HomingWalks(s: State, w: World, step: Screen, d: Direction, next: Next)
    ensures SameWalk(s.talk, BeginHoming(s, w, step, d, next).talk)
  {
    hide Goto, BeginMovement;
    GotoWalks(Rested(s), w, next, None);
    MovementWalks(s.(talk := s.talk.(homeAnyway := false)), w, step, Homing, d, Home(d), next, None);
  }

  lemma RunWalks(s: State, w: World, brief: Screen)
    ensures SameWalk(s.talk, TimedRun(s, w, brief).talk)
  {
  }

  lemma PressWalks(s: State, w: World, d: Direction)
    ensures SameWalk(s.talk, PressStopped(s, w, d).talk)
  {
    hide ShowWith, ShowProblem, SameWalk, TimedOut;
    ShowWalks(s, w, OpenTop, None, None, Timeout);
    UnpressedWalks(s, w);
    if !TimedOut(s, w) && s.talk.instants.motorStart.Some? {
      var run := w.now - s.talk.instants.motorStart.value;
      var slat := s.talk.measured.slatSeconds.GetOr(0.0);
      var m := if d == Open then s.talk.measured.(opening := Some(Timing(Some(slat), run)))
               else s.talk.measured.(closing := Some(Timing(None, run)));
      AcceptedWalks(s, w, d, m,
                    if d == Close then CloseResult else if m.liftGap.Some? then OpenResultGap else OpenResult);
    }
  }

  lemma UnpressedWalks(s: State, w: World)
    ensures SameWalk(s.talk, Escape(Unpressed(s)).talk)
    ensures SameWalk(s.talk, ShowProblem(Unpressed(s), w, BadPoint).talk)
  {
    hide ShowProblem;
    ShowWalks(Unpressed(s), w, OpenTop, None, None, BadPoint);
  }

  lemma AcceptedWalks(s: State, w: World, d: Direction, m: Measured, step: Screen)
    requires m.descent == s.talk.measured.descent && m.ascent == s.talk.measured.ascent
    ensures SameWalk(s.talk, Show(s.(talk := s.talk.(measured := m),
                                     engine := s.engine.(press := None, pressTimer := None, movement := None),
                                     place := Place(Some(d), s.place.trace + [Reached(d)])), w, step).talk)
  {
  }

  lemma LiftedWalks(s: State, w: World)
    ensures SameWalk(s.talk, PressLiftedOff(s, w).talk)
  {
  }

  // ---------------------------------------------------------------- entering a stage

  /** The stage of `t` entered: its report cleared, and nothing up to it dealt again. */
  ghost predicate Entered(t: Talk, r: Talk) {
    && r.index == t.index && r.report == None && |r.plan| == |t.plan|
    && r.measured.descent == t.measured.descent && r.measured.ascent == t.measured.ascent
    && (OnPlan(t) ==> forall j :: 0 <= j <= t.index.value ==> r.plan[j] == t.plan[j])
  }

  lemma StageEnters(s: State, w: World)
    requires OnPlan(s.talk) && WellFormed(s.talk.plan) && s.talk.report.None?
    ensures Entered(s.talk, EnterStage(s, w, s.talk.plan[s.talk.index.value]).talk)
  {
    hide WellFormed, EnterStage;
    var stage := s.talk.plan[s.talk.index.value];
    if stage.TapeBrief? { TapeBriefEnters(s, w); } else { StageWalks(s, w, stage); }
  }

  lemma TapeBriefEnters(s: State, w: World)
    requires OnPlan(s.talk) && WellFormed(s.talk.plan) && s.talk.report.None?
    ensures Entered(s.talk, EnterStage(s, w, TapeBrief).talk)
  {
    hide WellFormed, Reordered, ShowWith;
    var plan := Reordered(s.talk.plan, s.talk.index.value + 1, s.place.at);
    ReorderingKeeps(s.talk.plan, s.talk.index.value + 1, s.place.at);
    ShowWalks(s.(talk := s.talk.(plan := plan)), w, TapeBriefing, None, None, Unknown);
  }

  lemma StageWalks(s: State, w: World, stage: Stage)
    requires !stage.TapeBrief?
    ensures SameWalk(s.talk, EnterStage(s, w, stage).talk)
  {
    hide BeginHoming, FractionStage, ShowWith, ShowProblem, VariantOf;
    match stage
    case HomeClosed => HomingWalks(s, w, Positioning(HomeClosed), Close, ToScreen(HomeClosedDone));
    case OpenTimed =>
      HomingWalks(s.(talk := WithoutTheAscent(s.talk)), w, Positioning(OpenTimed), Close, ToScreen(OpenBrief));
    case HeightRead =>
      HomingWalks(if s.talk.stopFirst then s.(talk := s.talk.(measured := WithoutTheTravel(s.talk.measured))) else s,
                  w, Positioning(HeightRead), Open, ToScreen(HeightForm));
    case CloseTimed => HomingWalks(s, w, Positioning(CloseTimed), Open, ToScreen(CloseBrief));
    case VerifyOffer => ShowWalks(s, w, VerifyOffering, None, None, Unknown);
    case ProfileName => ShowWalks(s, w, NameForm, None, None, Unknown);
    case Summary => SummaryWalks(s, w); hide EnterStage;
    case VerifyB =>
      ShowWalks(s, w, NameForm, None, None, BadPoint);
      if w.halfTravel.Some? { FractionWalks(s, w, VerifyB, w.halfTravel.value); }
    case _ => FractionWalks(s, w, stage, FractionOf(stage));
  }

  lemma SummaryWalks(s: State, w: World)
    ensures SameWalk(s.talk, EnterStage(s, w, Summary).talk)
  {
  }

  lemma FractionWalks(s: State, w: World, stage: Stage, fraction: real)
    ensures SameWalk(s.talk, FractionStage(s, w, stage, fraction).talk)
  {
    hide BeginHoming;
    var d := RunDirection(stage);
    var aim := Aim(None, Some((d, fraction)), stage == VerifyB, FormAfter(stage));
    HomingWalks(s.(talk := s.talk.(aim := aim, check := None)), w, Positioning(stage), OtherEnd(d), ToTheRun);
  }

  lemma Enters(s: State, w: World, talk: Talk)
    requires OnPlan(talk) && WellFormed(talk.plan)
    ensures Entered(talk, EnterWith(s, w, talk).talk)
  {
    hide EnterStage, WellFormed;
    StageEnters(s.(talk := talk.(error := None, report := None, review := None)), w);
  }

  /** Entered from a talk that walked on from `t`. */
  lemma EnteredIsWalked(t: Talk, t1: Talk, r: Talk)
    requires Entered(t1, r) && OnPlan(t1)
    requires t1.measured.descent <= t.measured.descent && t1.measured.ascent <= t.measured.ascent
    requires t1.measured.descent != [] || t1.measured.ascent != [] ==> Onward(t, t1)
    ensures Walked(t, r)
  {
  }

  // ---------------------------------------------------------------- the actions

  lemma RunActionWalks(s: State, w: World, a: Action)
    requires !a.Submit? && !ChoosesAPlan(a) && !WalksThePlan(a)
    ensures SameWalk(s.talk, Do(s, w, a).talk)
  {
    hide PressStopped, PressLiftedOff, TimedRun, BeginHoming, ShowWith, ShowProblem;
    match a
    case ConfirmClosedAgain => ShowWalks(s, w, OpenFullBrief, None, None, Unknown);
    case StartOpening => RunWalks(s, w, OpenBrief);
    case StartFullOpening => RunWalks(s, w, OpenFullBrief);
    case StartClosing => RunWalks(s, w, CloseBrief);
    case LiftedOff => LiftedWalks(s, w);
    case LiftAccept => HomingWalks(s, w, OpenHomeAgain, Close, ToScreen(ClosedAgain));
    case LiftByTape => ShowWalks(s, w, LiftGap, None, None, Unknown);
    case StoppedOpen => PressWalks(s, w, Open);
    case StoppedClosed => PressWalks(s, w, Close);
    case RepeatMeasure =>
      ShowWalks(s.(talk := s.talk.(measured := WithoutTheTravel(s.talk.measured))), w, HeightForm, None, None, Unknown);
  }

  lemma WalkActionWalks(s: State, w: World, a: Action)
    requires Settled(s) && Idle(s) && Offered(s.talk, w, a) && WalksThePlan(a)
    ensures Walked(s.talk, Do(s, w, a).talk)
  {
    hide Settled, Idle, TalkKept, Walked, Onward, EnterWith, WellFormed, Grafted, Advance, WithoutTheReading, Offered,
      Offers;
    SettledHas(s);
    WalkScreens(s.talk, w, a);
    var t := s.talk;
    if a.RepeatTape? || a.TapeNotRight? {
      TapeAgainWalks(s, w, a);
    } else if a.RepeatStep? || a.NotRight? || a.LiftTooEarly? {
      StepAgainWalks(s, w, a);
    } else {
      AcceptScreen(t, a);
      if a.VerifyNow? { GraftWalks(s, w); } else { AdvanceWalks(s, w); }
    }
  }

  lemma TapeAgainWalks(s: State, w: World, a: Action)
    requires TalkKept(s.talk) && (a.RepeatTape? || a.TapeNotRight?)
    requires var now := s.talk.shown.step; now.TapeResult? || now.VerifyResult? || IsTapeForm(now)
    ensures Walked(s.talk, Do(s, w, a).talk)
  {
    hide TalkKept, Walked, Enter, WithoutTheReading;
    var t := s.talk;
    TapeAgainScreen(t);
    ReadingTakenBack(t);
    AgainWalks(s, w, if a.RepeatTape? then WithoutTheReading(t)
                     else WithoutTheReading(t).(stopFirst := true, homeAnyway := true));
  }

  lemma StepAgainWalks(s: State, w: World, a: Action)
    requires Settled(s) && Offers(s.talk.shown.step, a) && (a.RepeatStep? || a.NotRight? || a.LiftTooEarly?)
    ensures Walked(s.talk, Do(s, w, a).talk)
  {
    hide MovingKept, JobsKept, TasksKept, TrustKept, LifeKept, TalkKept, Walked, Enter;
    var t := s.talk;
    if t.shown.step.Problem? { ProblemIsOnPlan(t); }
    AgainScreen(t, a);
    assert EnterWith(s, w, t) == Enter(s, w) by { EntersItself(s, w); }
    AgainWalks(s, w, if a.RepeatStep? then t.(homeAnyway := true)
                     else if a.NotRight? then t.(stopFirst := true, homeAnyway := true) else t);
  }

  lemma EntersItself(s: State, w: World)
    ensures EnterWith(s, w, s.talk) == Enter(s, w)
  {
  }

  lemma ReadingTakenBack(t: Talk)
    ensures var m := WithoutTheReading(t).measured;
            m.descent <= t.measured.descent && m.ascent <= t.measured.ascent
    ensures WithoutTheReading(t).plan == t.plan && WithoutTheReading(t).index == t.index
  {
    hide WithoutLast;
    var m := t.measured;
    LastTakenBack(m.descent);
    LastTakenBack(m.ascent);
    if t.aim.tapeTarget == Some(Close) {
      assert WithoutTheReading(t).measured == m.(descent := WithoutLast(m.descent));
    } else if t.aim.tapeTarget == Some(Open) {
      assert WithoutTheReading(t).measured == m.(ascent := WithoutLast(m.ascent));
    } else {
      assert WithoutTheReading(t) == t;
    }
  }

  lemma LastTakenBack(xs: seq<(real, real)>)
    ensures WithoutLast(xs) <= xs
  {
  }

  lemma AgainWalks(s: State, w: World, t1: Talk)
    requires TalkKept(s.talk) && OnPlan(s.talk) && t1.plan == s.talk.plan && t1.index == s.talk.index
    requires t1.measured.descent <= s.talk.measured.descent && t1.measured.ascent <= s.talk.measured.ascent
    ensures Walked(s.talk, EnterWith(s, w, t1).talk)
  {
    hide EnterWith, Entered, Fitted, NothingToFit, PathKept, ReadingsKept, AimKept;
    Enters(s, w, t1);
    EnteredIsWalked(s.talk, t1, EnterWith(s, w, t1).talk);
  }

  lemma AdvanceWalks(s: State, w: World)
    requires TalkKept(s.talk) && OnPlan(s.talk) && !s.talk.plan[s.talk.index.value].Summary?
    ensures Walked(s.talk, Advance(s, w).talk)
  {
    hide EnterWith, Entered, Fitted, NothingToFit, PathKept, ReadingsKept, AimKept;
    var t1 := s.talk.(index := Some(s.talk.index.value + 1));
    Enters(s, w, t1);
    EnteredIsWalked(s.talk, t1, EnterWith(s, w, t1).talk);
  }

  lemma GraftWalks(s: State, w: World)
    requires TalkKept(s.talk) && OnPlan(s.talk) && s.talk.shown.step.VerifyOffering?
    ensures Walked(s.talk, Do(s, w, VerifyNow).talk)
  {
    hide EnterWith, Entered, TalkKept, Grafted, WellFormed, Onward, Walked;
    GraftGoesOn(s.talk);
    var talk := s.talk.(plan := Grafted(s.talk.plan, s.talk.index.value));
    var t1 := talk.(index := Some(s.talk.index.value + 1));
    Enters(s.(talk := talk), w, t1);
    EnteredIsWalked(s.talk, t1, EnterWith(s.(talk := talk), w, t1).talk);
  }

  lemma GraftGoesOn(t: Talk)
    requires TalkKept(t) && OnPlan(t) && t.shown.step.VerifyOffering?
    ensures var t1 := t.(plan := Grafted(t.plan, t.index.value), index := Some(t.index.value + 1));
            OnPlan(t1) && WellFormed(t1.plan) && Onward(t, t1)
  {
    hide Fitted, NothingToFit, PathKept, ReadingsKept, AimKept, Grafted;
    GraftTalk(t);
    GraftKeeps(t.plan, t.index.value);
  }

  lemma StartedWalks(s: State, w: World, t1: Talk)
    requires OnPlan(t1) && WellFormed(t1.plan) && t1.measured.descent == [] && t1.measured.ascent == []
    ensures Walked(s.talk, EnterWith(s, w, t1).talk)
  {
    hide EnterWith, Entered, WellFormed;
    Enters(s, w, t1);
    EnteredIsWalked(s.talk, t1, EnterWith(s, w, t1).talk);
  }

  lemma ThoroughOnward(t: Talk, plan: seq<Stage>)
    requires PlanKept(t) && WellFormed(plan) && t.shown.step.Summing?
    ensures var t1 := t.(measured := t.measured.(precise := true), plan := t.plan[..Least(Index(t), |t.plan|)] + plan);
            OnPlan(t1) && WellFormed(t1.plan) && Onward(t, t1)
  {
    TailKeeps(t.plan, t.index.value, plan);
  }

  lemma ThoroughWalks(s: State, w: World)
    requires PlanKept(s.talk) && s.talk.shown.step.Summing?
    ensures Walked(s.talk, Do(s, w, GoThorough).talk)
  {
    ThePlans();
    var t := s.talk;
    var plan := if HeightKnown(t.measured) then PLAN_PRECISE else PLAN_PRECISE_TRAVEL;
    hide EnterWith, Entered, WellFormed, PlanKept, Walked, Onward, Least;
    ThoroughOnward(t, plan);
    var t1 := t.(measured := t.measured.(precise := true), plan := t.plan[..Least(Index(t), |t.plan|)] + plan);
    Enters(s, w, t1);
    EnteredIsWalked(t, t1, EnterWith(s, w, t1).talk);
  }

  lemma ChooseWalks(s: State, w: World, a: Action)
    requires a.ChooseFirst? || a.ChooseProfile? || a.ChooseRefine?
    ensures SameWalk(s.talk, Do(s, w, a).talk)
  {
  }

  lemma ScopeWalks(s: State, w: World, a: Action)
    requires s.talk.measured.descent == [] && s.talk.measured.ascent == []
    requires a.DoTimesOnly? || a.DoTimesAndRolls? || (a.DoPointsOnly? && w.inUse.Some?)
    ensures Walked(s.talk, Do(s, w, a).talk)
  {
    hide Enter, Walked, WellFormed;
    ThePlans();
    var t := s.talk;
    match a
    case DoTimesOnly => StartedWalks(s, w, Scoped(t, TimesOnly).(plan := PLAN_TIMES, index := Some(0)));
    case DoTimesAndRolls =>
      StartedWalks(s, w, Scoped(t, TimesAndRolls).(plan := PLAN_TIMES_AND_ROLLS, index := Some(0)));
    case DoPointsOnly =>
      var u := w.inUse.value;
      var m := t.measured.(opening := Some(Timing(Some(u.slat), u.opening)),
                           closing := Some(Timing(None, u.closing)), timesAdopted := true, precise := true);
      StartedWalks(s, w, Scoped(t, PointsOnly).(measured := m, index := Some(0),
                         plan := if HeightKnown(m) then PLAN_PRECISE else PLAN_PRECISE_TRAVEL));
  }

  lemma BeginWalks(s: State, w: World)
    ensures Walked(s.talk, Do(s, w, Begin).talk)
  {
    hide Enter, Walked, WellFormed;
    ThePlans();
    StartedWalks(s, w, Chose(s.talk, First).(measured := NOTHING_MEASURED, plan := PLAN_FULL, index := Some(0)));
  }

  lemma PlanActionWalks(s: State, w: World, a: Action)
    requires Settled(s) && Offered(s.talk, w, a) && ChoosesAPlan(a) && !EndsTheSession(w, a)
    ensures Walked(s.talk, Do(s, w, a).talk)
  {
    PlanScreens(s.talk, w, a);
    hide MovingKept, JobsKept, TasksKept, TrustKept, LifeKept, Walked, Do, Offered, PathKept, ReadingsKept, AimKept;
    if a.GoThorough? { ThoroughWalks(s, w); }
    else if a.Begin? { BeginWalks(s, w); }
    else if a.ChooseFirst? || a.ChooseProfile? || a.ChooseRefine? {
      ChooseWalks(s, w, a);
      SameIsWalked(s.talk, Do(s, w, a).talk);
    } else {
      ScopeReadings(s.talk);
      ScopeWalks(s, w, a);
    }
  }

  lemma DoWalks(s: State, w: World, a: Action)
    requires Settled(s) && Idle(s) && Offered(s.talk, w, a) && !a.Submit? && !EndsTheSession(w, a)
    ensures Walked(s.talk, Do(s, w, a).talk)
  {
    hide Idle, Walked, Do, Offered, EndsTheSession;
    if ChoosesAPlan(a) { PlanActionWalks(s, w, a); }
    else if WalksThePlan(a) { WalkActionWalks(s, w, a); }
    else {
      RunActionWalks(s, w, a);
      SettledTalk(s);
      SameIsWalked(s.talk, Do(s, w, a).talk);
    }
  }

  lemma SettledTalk(s: State)
    requires Settled(s)
    ensures PlanKept(s.talk) && TalkKept(s.talk)
  {
    hide PlanKept, PathKept, ReadingsKept, AimKept, MovingKept, JobsKept, TasksKept, TrustKept, LifeKept;
  }

  // ---------------------------------------------------------------- the forms

  lemma HeightWalks(s: State, w: World, v: Value)
    ensures SameWalk(s.talk, SubmitHeight(s, w, v).talk)
  {
  }

  lemma GapWalks(s: State, w: World, v: Value)
    ensures SameWalk(s.talk, SubmitGap(s, w, v).talk)
  {
    hide BeginHoming, ShowWith;
    var s1 := s.(talk := s.talk.(measured := s.talk.measured.(liftGap := if v.Number? then Some(v.n) else None)));
    HomingWalks(s, w, OpenHomeAgain, Close, ToScreen(ClosedAgain));
    HomingWalks(s1, w, OpenHomeAgain, Close, ToScreen(ClosedAgain));
    ShowWalks(s, w, LiftGap, Some(NotANumber), None, Unknown);
    ShowWalks(s, w, LiftGap, Some(OutOfRange), None, Unknown);
    ShowWalks(s, w, LiftEarly, None, None, Unknown);
  }

  lemma NameWalks(s: State, w: World, name: string)
    requires Settled(s) && s.talk.shown.step.NameForm?
    ensures Walked(s.talk, SubmitName(s, w, name).talk)
  {
    hide EnterWith, Entered, Fitted, NothingToFit, PathKept, ReadingsKept, AimKept, MovingKept, JobsKept, TasksKept,
      TrustKept, LifeKept, IsAName, ShowWith;
    if IsAName(name) {
      FormStage(s.talk);
      var t := s.talk.(choice := s.talk.choice.(name := Some(name)));
      var t1 := t.(index := Some(t.index.value + 1));
      Enters(s.(talk := t), w, t1);
      EnteredIsWalked(s.talk, t1, EnterWith(s.(talk := t), w, t1).talk);
    } else {
      ShowWalks(s, w, NameForm, Some(InvalidName), None, Unknown);
      SameIsWalked(s.talk, SubmitName(s, w, name).talk);
    }
  }

  lemma ProfileWalks(s: State, w: World, name: string)
    ensures Walked(s.talk, SubmitProfile(s, w, name).talk)
  {
    hide Enter, WellFormed;
    ThePlans();
    if s.talk.choice.path != Some(Refine) {
      StartedWalks(s, w, s.talk.(choice := s.talk.choice.(profile := Some(name)), measured := NOTHING_MEASURED,
                                 plan := PLAN_PROFILE, index := Some(0)));
    }
  }

  lemma VerifiedWalks(s: State, w: World, cm: real)
    ensures SameWalk(s.talk, Verified(s, w, cm).talk)
  {
  }

  // ---------------------------------------------------------------- runs and tapes

  /** The run of the reading at the index comes back in this turn and reports `seconds`. */
  predicate Ran(s: State, e: Event, seconds: real) {
    && OnPlan(s.talk) && IsReading(s.talk.plan[s.talk.index.value])
    && e.TaskTurn? && e.which < |s.engine.tasks| && s.engine.tasks[e.which].Driving?
    && var job := s.engine.tasks[e.which].job;
       && !Overtaken(s, job) && job.primitive.RunTo?
       && RunsFor(s.talk.plan[s.talk.index.value], (job.primitive.way, job.primitive.fraction))
       && e.answer.Done? && e.answer.first == seconds
  }

  /** In this turn the tape of the fitting stage at the index is read, after a run that reported `point.0`; it
      is the entry that stage counts for. */
  predicate Takes(s: State, w: World, e: Event, d: Direction, point: (real, real)) {
    && OnPlan(s.talk) && Movable(s.talk.plan[s.talk.index.value]) && RunDirection(s.talk.plan[s.talk.index.value]) == d
    && Fitted(s.talk.plan, d, s.talk.index.value) == |ReadingsOf(s.talk.measured, d)|
    && e.Act? && e.action == Submit && GuardAct(s, w, e.client, e.revision, Submit).None?
    && s.talk.shown.step == FormAfter(s.talk.plan[s.talk.index.value])
    && s.talk.report == Some(point.0) && e.value == Number(point.1)
  }

  /** What one turn of a session that lives through it does to its readings. */
  ghost predicate Stepped(s: State, w: World, e: Event, r: State) {
    || Walked(s.talk, r.talk)
    || (exists seconds :: Ran(s, e, seconds) && SameWalk(s.talk.(report := Some(seconds)), r.talk))
    || (exists d, point :: Takes(s, w, e, d, point) && Grown(s.talk, r.talk, d, point))
  }

  /** One more reading in the list of `d`, and nothing else of the walk. */
  predicate Grown(t: Talk, r: Talk, d: Direction, point: (real, real)) {
    && r.plan == t.plan && r.index == t.index && r.report == t.report
    && ReadingsOf(r.measured, d) == ReadingsOf(t.measured, d) + [point]
    && ReadingsOf(r.measured, OtherEnd(d)) == ReadingsOf(t.measured, OtherEnd(d))
  }

  lemma ReadingTakes(s: State, w: World, v: Value)
    requires s.talk.shown.step.MeasureDescent? || s.talk.shown.step.MeasureAscent?
    ensures var r := SubmitReading(s, w, v).talk;
            if IsAReading(s.talk, v)
            then Grown(s.talk, r, if s.talk.shown.step.MeasureDescent? then Close else Open, (s.talk.report.value, v.n))
            else SameWalk(s.talk, r)
  {
    hide Read, SubmitReading;
    ReadingIsRead(s, w, v);
    ReadingKeepsTheReport(s, w, v);
    ReadSays(s.talk, SubmitReading(s, w, v).talk, v, if s.talk.shown.step.MeasureDescent? then Close else Open);
  }

  lemma ReadSays(t: Talk, r: Talk, v: Value, d: Direction)
    requires Read(t, r, v, d) && r.report == t.report
    ensures if IsAReading(t, v) then Grown(t, r, d, (t.report.value, v.n)) else SameWalk(t, r)
  {
  }

  lemma ReadingKeepsTheReport(s: State, w: World, v: Value)
    ensures SubmitReading(s, w, v).talk.report == s.talk.report
  {
    hide Verified;
    if v.Number? { VerifiedWalks(s, w, v.n); }
  }

  // ---------------------------------------------------------------- every turn

  lemma SameSteps(s: State, w: World, e: Event, r: State)
    requires Inv(s) && !s.life.ended && SameWalk(s.talk, r.talk)
    ensures Stepped(s, w, e, r)
  {
    hide SameWalk;
    LiveIsSettled(s);
    SettledTalk(s);
    SameIsWalked(s.talk, r.talk);
    hide *;
    assert Stepped(s, w, e, r) by { WalkedSteps(s, w, e, r); }
  }

  lemma WalkedSteps(s: State, w: World, e: Event, r: State)
    requires Walked(s.talk, r.talk)
    ensures Stepped(s, w, e, r)
  {
    hide Walked;
  }

  lemma PumpedSteps(s: State, w: World, e: Event, c: State)
    requires Stepped(s, w, e, c)
    ensures Stepped(s, w, e, Pump(c))
  {
    PumpQueues(c);
    hide Pump, Walked, SameWalk, Grown, Takes, Ran;
  }

  lemma ReadingSteps(s: State, w: World, client: string, revision: nat, v: Value)
    requires Inv(s) && GuardAct(s, w, client, revision, Submit).None?
    requires s.talk.shown.step.MeasureDescent? || s.talk.shown.step.MeasureAscent?
    ensures Stepped(s, w, Act(client, revision, Submit, v), SubmitReading(Taken(s, w, client), w, v))
  {
    hide SubmitReading, Taken, Inv, GuardAct, Fitted, SameWalk, Grown, Stepped, Offered;
    GuardsStand(s, w, client, revision, Submit);
    FormIsAtItsStage(s);
    var s1 := Taken(s, w, client);
    TakenCounts(s, w, client);
    assert s1.talk == s.talk;
    ReadingTakes(s1, w, v);
    var e := Act(client, revision, Submit, v);
    var r := SubmitReading(s1, w, v);
    if IsAReading(s.talk, v) {
      var d := RunDirection(s.talk.plan[s.talk.index.value]);
      var point := (s.talk.report.value, v.n);
      assert Takes(s, w, e, d, point);
      hide Takes;
      GrownSteps(s, w, e, r, d, point);
    } else {
      SameSteps(s, w, e, r);
    }
  }

  lemma GrownSteps(s: State, w: World, e: Event, r: State, d: Direction, point: (real, real))
    requires Takes(s, w, e, d, point) && Grown(s.talk, r.talk, d, point)
    ensures Stepped(s, w, e, r)
  {
    hide Takes, Grown;
  }

  lemma GuardsStand(s: State, w: World, client: string, revision: nat, a: Action)
    requires GuardAct(s, w, client, revision, a).None?
    ensures !s.life.ended && Offered(s.talk, w, a) && revision == s.life.revision
  {
  }

  /** Every form but the two of the readings. */
  lemma SubmitWalks(s: State, w: World, field: Field, v: Value)
    requires Settled(s) && FormOf(s.talk.shown.step) == Some(field)
    requires !s.talk.shown.step.MeasureDescent? && !s.talk.shown.step.MeasureAscent?
    ensures Walked(s.talk, DoSubmit(s, w, field, v).talk)
  {
    SettledTalk(s);
    hide Settled, PlanKept, TalkKept, Walked, SameWalk, SubmitHeight, SubmitGap, SubmitName, SubmitProfile,
      SubmitReading;
    match field
    case HeightField => HeightWalks(s, w, v); SameIsWalked(s.talk, SubmitHeight(s, w, v).talk);
    case GapField => GapWalks(s, w, v); SameIsWalked(s.talk, SubmitGap(s, w, v).talk);
    case NameField => NameWalks(s, w, Written(v));
    case ProfileField => ProfileWalks(s, w, Written(v));
    case ReadingField => VerifyWalks(s, w, v); SameIsWalked(s.talk, SubmitReading(s, w, v).talk);
  }

  lemma SubmitSteps(s: State, w: World, client: string, revision: nat, v: Value)
    requires Inv(s) && GuardAct(s, w, client, revision, Submit).None?
    ensures Stepped(s, w, Act(client, revision, Submit, v), Carried(Taken(s, w, client), w, Submit, v))
  {
    hide Settled, Idle, Taken, Inv, GuardAct, Stepped, Walked, DoSubmit, SubmitReading;
    GuardsStand(s, w, client, revision, Submit);
    var s1 := Taken(s, w, client);
    TakenCounts(s, w, client);
    LiveIsSettled(s);
    TakenKeeps(s, w, client);
    if s.talk.shown.step.MeasureDescent? || s.talk.shown.step.MeasureAscent? {
      ReadingSteps(s, w, client, revision, v);
      assert DoSubmit(s1, w, ReadingField, v) == SubmitReading(s1, w, v) by { ReadingForm(s1, w, v); }
    } else {
      SubmitWalks(s1, w, FormOf(s.talk.shown.step).value, v);
      WalkedSteps(s, w, Act(client, revision, Submit, v), Carried(s1, w, Submit, v));
    }
  }

  lemma ReadingForm(s: State, w: World, v: Value)
    ensures DoSubmit(s, w, ReadingField, v) == SubmitReading(s, w, v)
  {
  }

  lemma VerifyWalks(s: State, w: World, v: Value)
    requires s.talk.shown.step.MeasureVerify?
    ensures SameWalk(s.talk, SubmitReading(s, w, v).talk)
  {
    hide Verified, ShowWith;
    ShowWalks(s, w, MeasureVerify, Some(NotANumber), None, Unknown);
    ShowWalks(s, w, MeasureVerify, Some(OutOfRange), None, Unknown);
    ShowWalks(s, w, MeasureVerify, Some(AboveTheTravel), None, Unknown);
    if v.Number? { VerifiedWalks(s, w, v.n); }
  }

  lemma ActSteps(s: State, w: World, client: string, revision: nat, a: Action, v: Value)
    requires Inv(s) && !s.life.ended
    ensures var r := TurnAct(s, w, client, revision, a, v);
            r.life.ended || Stepped(s, w, Act(client, revision, a, v), r)
  {
    var e := Act(client, revision, a, v);
    var r := TurnAct(s, w, client, revision, a, v);
    TakenCounts(s, w, client);
    hide Inv, Taken, GuardAct, Stepped, Walked, NamesNoProfile, Do, DoSubmit, Pump, AsyncEnd;
    if GuardAct(s, w, client, revision, a).Some? { SameSteps(s, w, e, s); }
    else if NamesNoProfile(s.talk, w, a, v) { SameSteps(s, w, e, Taken(s, w, client)); }
    else {
      var s1 := Taken(s, w, client);
      var c := Carried(s1, w, a, v);
      GuardsStand(s, w, client, revision, a);
      LiveIsSettled(s);
      OfferedIsIdle(s, w, a);
      TakenKeeps(s, w, client);
      hide Settled, Idle, Offered;
      if a.Submit? { SubmitSteps(s, w, client, revision, v); }
      else if EndsTheSession(w, a) {
        PointsOnlyAdopts(s1, w);
        EndingWalks(s1, w);
        if !c.life.ended { SameSteps(s, w, e, c); }
      } else {
        DoWalks(s1, w, a);
        WalkedSteps(s, w, e, c);
      }
      PumpQueues(c);
      if !c.life.ended { PumpedSteps(s, w, e, c); }
    }
  }

  lemma EndingWalks(s: State, w: World)
    requires w.inUse.None?
    ensures var r := AdoptTheTimes(s, w); r.life.ended || SameWalk(s.talk, r.talk)
  {
    hide End;
    if !s.life.ended { EndGoes(NextGeneration(s.(talk := Scoped(s.talk, PointsOnly))), w, CoverGone); }
  }

  lemma AsyncEndWalks(s: State, w: World, reason: EndReason, stop: bool)
    ensures var r := AsyncEnd(s, w, reason, stop); r.life.ended || SameWalk(s.talk, r.talk)
  {
    hide End;
    if !s.life.ended { EndGoes(NextGeneration(s), w, reason); }
  }

  lemma VerbWalks(s: State, w: World, e: Event)
    requires e.Stop? || e.Attach? || e.Heartbeat? || e.Save? || e.PressTimer? || e.CoverMoves? || e.CoverRests?
    ensures SameWalk(s.talk, Turn(s, w, e).talk)
  {
    hide GuardSave, TurnAct, RunTask, OwnedByAnother, IsTapeForm, External, TurnStop, ShowProblem;
    match e
    case Stop(client, answer) => StopWalks(s, w, client, answer);
    case CoverMoves(_) => ExternalWalks(s, w);
    case PressTimer =>
      ShowWalks(s.(engine := Overtake(s.engine).(pressTimer := None, press := None, movement := None)), w, OpenBrief,
                None, None, Timeout);
    case CoverRests(_) =>
      ShowWalks(s.(engine := Overtake(s.engine).(movement := None, press := None, pressTimer := None),
                   place := s.place.(at := None)), w, OpenBrief, None, None, Interrupted);
    case _ =>
  }

  lemma StopWalks(s: State, w: World, client: string, answer: Answer)
    ensures SameWalk(s.talk, TurnStop(s, w, client, answer).talk)
  {
    hide OwnedByAnother, StopRefused;
  }

  lemma ExternalWalks(s: State, w: World)
    ensures SameWalk(s.talk, External(s, w).talk)
  {
    hide IsTapeForm, ModeOf;
  }

  lemma OtherTurnWalks(s: State, w: World, e: Event)
    requires !s.life.ended && !e.Act? && !e.TaskTurn?
    ensures var r := Turn(s, w, e); r.life.ended || SameWalk(s.talk, r.talk)
  {
    hide TurnAct, RunTask, End, Finish, AsyncEnd, AnythingMeasured, TurnStop, TurnSave, External;
    match e
    case Stop(_, _) | Attach(_, _) | Heartbeat(_) | Save(_, _, _) | PressTimer | CoverMoves(_) | CoverRests(_) =>
      VerbWalks(s, w, e);
      hide Turn;
    case Leave(_) => EndGoes(s, w, Left);
    case Cancel(client, _) => AsyncEndWalks(Take(s, w, client), w, Cancelled, false);
    case SaveReturns(which, _) =>
      if which < |s.life.saves| { EndGoes(s.(life := s.life.(saves := Without(s.life.saves, which))), w, Saved); }
    case LeaseTimer => AsyncEndWalks(s.(life := s.life.(lease := None)), w, Expired, true);
    case Unload => AsyncEndWalks(s, w, Unloaded, true);
    case EndingReturns(which) =>
      if which < |s.life.endings| {
        EndGoes(s.(life := s.life.(endings := Without(s.life.endings, which))), w, s.life.endings[which]);
      }
  }

  // ---------------------------------------------------------------- the pump

  /** A task turn leaves the walk alone, or it is the run of a reading that comes back. */
  ghost predicate Drove(s: State, e: Event, r: State) {
    || SameWalk(s.talk, r.talk)
    || exists seconds :: Ran(s, e, seconds) && SameWalk(s.talk.(report := Some(seconds)), r.talk)
  }

  lemma ConcludeWalks(s: State, w: World, job: Job, answer: Answer, error: Option<Reason>)
    ensures var r := Conclude(s, w, job, answer, error);
            r.life.ended
            || SameWalk(if error.None? && answer.Done? && job.primitive.RunTo?
                        then s.talk.(report := Some(answer.first)) else s.talk, r.talk)
  {
    hide Goto, AsyncEnd, ShowProblem;
    if error.None? && answer.Done? {
      var s1 := Settle(s, job.primitive, answer);
      var goesOn := job.next.ToScreen? && IsPress(job.next.screen);
      GotoWalks(if goesOn then s1 else s1.(engine := s1.engine.(movement := None)), w, job.next, job.notice);
    } else {
      var s1 := s.(engine := s.engine.(movement := None));
      if error == Some(UnknownCover) { AsyncEndWalks(s1, w, CoverGone, true); }
      else { ShowWalks(s1, w, OpenBrief, None, None, error.GetOr(Unknown)); }
    }
  }

  lemma CompleteWalks(s: State, w: World, which: nat, job: Job, answer: Answer)
    requires which < |s.engine.tasks|
    ensures var r := Complete(s, w, which, job, answer);
            r.life.ended || SameWalk(s.talk, r.talk)
            || (!Overtaken(s, job) && answer.Done? && job.primitive.RunTo?
                && SameWalk(s.talk.(report := Some(answer.first)), r.talk))
  {
    hide Conclude;
    var error := if answer.Done? then s.talk.error else ErrorOf(answer);
    var s1 := TaskBecomes(s, which, Looping).(talk := s.talk.(error := error));
    ConcludeWalks(s1, w, job, answer, error);
  }

  lemma LaunchWalks(s: State, w: World, which: nat, job: Job)
    requires which < |s.engine.tasks|
    ensures var r := Launch(s, w, which, job); r.life.ended || SameWalk(s.talk, r.talk)
  {
    hide Complete;
    CompleteWalks(s, w, which, job, Failed(UnknownCover));
  }

  lemma StartWalks(s: State, w: World, which: nat, job: Job)
    requires which < |s.engine.tasks|
    ensures var r := StartJob(s, w, which, job); r.life.ended || SameWalk(s.talk, r.talk)
  {
    hide Launch;
    LaunchWalks(s.(talk := s.talk.(error := None, stopFirst := false), place := s.place.(at := None)), w, which, job);
  }

  lemma RunOfTheStage(s: State, which: nat)
    requires Inv(s) && !s.life.ended && which < |s.engine.tasks| && s.engine.tasks[which].Driving?
    requires !Overtaken(s, s.engine.tasks[which].job) && s.engine.tasks[which].job.primitive.RunTo?
    ensures OnPlan(s.talk) && IsReading(s.talk.plan[s.talk.index.value])
    ensures var p := s.engine.tasks[which].job.primitive;
            RunsFor(s.talk.plan[s.talk.index.value], (p.way, p.fraction))
  {
    TaskNext(s, which);
    hide PathKept, ReadingsKept, MovingKept, JobsKept, TasksKept, TrustKept, LifeKept, WellFormed, NothingToFit;
  }

  lemma TaskDrives(s: State, w: World, which: nat, answer: Answer)
    requires Inv(s) && !s.life.ended && which < |s.engine.tasks|
    ensures var r := RunTask(s, w, which, answer); r.life.ended || Drove(s, TaskTurn(which, answer), r)
  {
    hide Inv, Complete, Launch, StartJob, SameWalk;
    match s.engine.tasks[which]
    case Looping =>
      if s.engine.queued.Some? {
        StartWalks(s.(engine := s.engine.(queued := None)), w, which, s.engine.queued.value);
      } else { SameAgain(s.talk); }
    case Stopping(job) =>
      if answer.FailedOtherwise? { CompleteWalks(s, w, which, job, answer); }
      else if Overtaken(s, job) { SameAgain(s.talk); }
      else { LaunchWalks(s, w, which, job); }
    case Driving(job) =>
      CompleteWalks(s, w, which, job, answer);
      if !Overtaken(s, job) && answer.Done? && job.primitive.RunTo? {
        RunOfTheStage(s, which);
        assert Ran(s, TaskTurn(which, answer), answer.first);
      }
  }

  lemma SameAgain(t: Talk)
    ensures SameWalk(t, t)
  {
  }

  /** Every turn a session lives through takes no reading but the one of the fitting stage it is at, from the
      tape and after its run, and keeps no report but that of the stage it is at. */
  lemma TurnSteps(s: State, w: World, e: Event)
    requires Inv(s) && !s.life.ended && !Turn(s, w, e).life.ended
    ensures Stepped(s, w, e, Turn(s, w, e))
  {
    hide Inv, TurnAct, RunTask, Stepped, SameWalk, Drove;
    match e
    case Act(client, revision, action, value) => ActSteps(s, w, client, revision, action, value);
    case TaskTurn(which, answer) =>
      if which < |s.engine.tasks| {
        TaskDrives(s, w, which, answer);
        DroveSteps(s, w, e, RunTask(s, w, which, answer));
      } else {
        SameAgain(s.talk);
        SameSteps(s, w, e, s);
      }
    case _ =>
      OtherTurnWalks(s, w, e);
      SameSteps(s, w, e, Turn(s, w, e));
      hide Turn;
  }

  lemma DroveSteps(s: State, w: World, e: Event, r: State)
    requires Inv(s) && !s.life.ended && Drove(s, e, r)
    ensures Stepped(s, w, e, r)
  {
    hide Inv, SameWalk, Walked, Takes, Ran, Grown;
    if SameWalk(s.talk, r.talk) { SameSteps(s, w, e, r); }
  }

  // ---------------------------------------------------------------- whole runs

  /** The state a run was in before its turn `k`. */
  function Before(s: State, turns: seq<(World, Event)>, k: nat): State
    requires k <= |turns|
  {
    Run(s, turns[..k])
  }

  /** The report `seconds` is that of a run in turn `k`, of the stage the plan was at then and is at in `t`. */
  predicate Reported(s: State, turns: seq<(World, Event)>, k: nat, t: Talk, seconds: real) {
    && k < |turns| && Ran(Before(s, turns, k), turns[k].1, seconds)
    && t.plan == Before(s, turns, k).talk.plan && t.index == Before(s, turns, k).talk.index
  }

  /** Entry `i` of the readings of `d` was taken in turn `k`, after a run of the same stage in turn `run`; and
      that stage, with every fitting stage before it, still stands where it stood. */
  ghost predicate CameFrom(s: State, turns: seq<(World, Event)>, run: nat, k: nat, d: Direction, i: nat,
                           point: (real, real), now: Talk) {
    && run < k < |turns|
    && var b := Before(s, turns, k);
       && Takes(b, turns[k].0, turns[k].1, d, point) && |ReadingsOf(b.talk.measured, d)| == i
       && Reported(s, turns, run, b.talk, point.0)
       && Onward(b.talk, now)
  }

  ghost predicate AllReported(s: State, turns: seq<(World, Event)>, t: Talk) {
    t.report.Some? ==> exists k: nat :: Reported(s, turns, k, t, t.report.value)
  }

  ghost predicate Came(s: State, turns: seq<(World, Event)>, d: Direction, i: nat, t: Talk)
    requires i < |ReadingsOf(t.measured, d)|
  {
    exists run: nat, k: nat :: CameFrom(s, turns, run, k, d, i, ReadingsOf(t.measured, d)[i], t)
  }

  ghost predicate AllCame(s: State, turns: seq<(World, Event)>, t: Talk) {
    forall d, i: nat :: i < |ReadingsOf(t.measured, d)| ==> Came(s, turns, d, i, t)
  }

  lemma SameBefore(s: State, turns: seq<(World, Event)>, k: nat)
    requires turns != [] && k < |turns|
    ensures Before(s, turns[..|turns| - 1], k) == Before(s, turns, k)
    ensures k < |turns| - 1 ==> turns[..|turns| - 1][k] == turns[k]
  {
    hide Run;
    assert turns[..|turns| - 1][..k] == turns[..k];
  }

  lemma ReportedOn(s: State, turns: seq<(World, Event)>, k: nat, t: Talk, t1: Talk, seconds: real)
    requires turns != [] && Reported(s, turns[..|turns| - 1], k, t, seconds) && t1.plan == t.plan && t1.index == t.index
    ensures Reported(s, turns, k, t1, seconds)
  {
    SameBefore(s, turns, k);
    hide Before, Ran;
  }

  lemma OnwardTwice(t: Talk, t1: Talk, t2: Talk)
    requires Onward(t, t1) && Onward(t1, t2)
    ensures Onward(t, t2)
  {
  }

  lemma CameOn(s: State, turns: seq<(World, Event)>, run: nat, k: nat, d: Direction, i: nat,
               point: (real, real), t: Talk, t1: Talk)
    requires turns != [] && CameFrom(s, turns[..|turns| - 1], run, k, d, i, point, t) && Onward(t, t1)
    ensures CameFrom(s, turns, run, k, d, i, point, t1)
  {
    hide Onward, Reported, Before, Takes;
    SameBefore(s, turns, k);
    var b := Before(s, turns, k);
    ReportedOn(s, turns, run, b.talk, b.talk, point.0);
    OnwardTwice(b.talk, t, t1);
  }

  lemma OnwardSame(t: Talk, t1: Talk)
    requires OnPlan(t) && t1.plan == t.plan && t1.index == t.index
    ensures Onward(t, t1)
  {
  }

  /** The readings there were and still are. */
  lemma OldOnes(s: State, turns: seq<(World, Event)>, t: Talk, t1: Talk, d: Direction, i: nat)
    requires turns != [] && AllCame(s, turns[..|turns| - 1], t) && Onward(t, t1)
    requires i < |ReadingsOf(t1.measured, d)| && i < |ReadingsOf(t.measured, d)|
    requires ReadingsOf(t1.measured, d)[i] == ReadingsOf(t.measured, d)[i]
    ensures Came(s, turns, d, i, t1)
  {
    hide CameFrom, Onward;
    assert Came(s, turns[..|turns| - 1], d, i, t);
    var point := ReadingsOf(t.measured, d)[i];
    var run: nat, k: nat :| CameFrom(s, turns[..|turns| - 1], run, k, d, i, point, t);
    CameOn(s, turns, run, k, d, i, point, t, t1);
  }

  lemma WalkedOn(s: State, turns: seq<(World, Event)>, t: Talk, t1: Talk)
    requires turns != [] && AllReported(s, turns[..|turns| - 1], t) && AllCame(s, turns[..|turns| - 1], t)
    requires Walked(t, t1)
    ensures AllReported(s, turns, t1) && AllCame(s, turns, t1)
  {
    hide CameFrom, Reported, Onward, Came;
    if t1.report.Some? {
      var k: nat :| Reported(s, turns[..|turns| - 1], k, t, t.report.value);
      ReportedOn(s, turns, k, t, t1, t.report.value);
    }
    forall d, i: nat | i < |ReadingsOf(t1.measured, d)|
      ensures Came(s, turns, d, i, t1)
    {
      assert ReadingsOf(t1.measured, d) <= ReadingsOf(t.measured, d);
      OldOnes(s, turns, t, t1, d, i);
    }
  }

  lemma RanOn(s: State, turns: seq<(World, Event)>, t1: Talk, seconds: real)
    requires turns != []
    requires var n := |turns| - 1; var b := Before(s, turns, n);
             && AllCame(s, turns[..n], b.talk) && Ran(b, turns[n].1, seconds)
             && SameWalk(b.talk.(report := Some(seconds)), t1)
    ensures AllReported(s, turns, t1) && AllCame(s, turns, t1)
  {
    var n := |turns| - 1;
    var b := Before(s, turns, n);
    OnwardSame(b.talk, t1);
    hide CameFrom, Onward, Before, Ran;
    assert Reported(s, turns, n, t1, seconds);
    hide Reported, Came;
    forall d, i: nat | i < |ReadingsOf(t1.measured, d)|
      ensures Came(s, turns, d, i, t1)
    {
      OldOnes(s, turns, b.talk, t1, d, i);
    }
  }

  lemma TakesThere(s: State, w: World, e: Event, d: Direction, point: (real, real))
    requires Takes(s, w, e, d, point)
    ensures OnPlan(s.talk) && s.talk.report == Some(point.0)
  {
  }

  lemma NewOne(s: State, turns: seq<(World, Event)>, t1: Talk, d: Direction, point: (real, real))
    requires turns != []
    requires var n := |turns| - 1; var b := Before(s, turns, n);
             && AllReported(s, turns[..n], b.talk)
             && Takes(b, turns[n].0, turns[n].1, d, point) && Grown(b.talk, t1, d, point)
    ensures AllReported(s, turns, t1) && Came(s, turns, d, |ReadingsOf(t1.measured, d)| - 1, t1)
  {
    hide Onward, Before, Takes, OnPlan;
    var n := |turns| - 1;
    var b := Before(s, turns, n);
    TakesThere(b, turns[n].0, turns[n].1, d, point);
    OnwardSame(b.talk, t1);
    var run: nat :| Reported(s, turns[..n], run, b.talk, point.0);
    ReportedOn(s, turns, run, b.talk, t1, point.0);
    ReportedOn(s, turns, run, b.talk, b.talk, point.0);
    assert run < n;
    hide Reported;
    var i := |ReadingsOf(b.talk.measured, d)|;
    assert ReadingsOf(t1.measured, d)[i] == point;
    assert CameFrom(s, turns, run, n, d, i, point, t1);
  }

  lemma TakenOn(s: State, turns: seq<(World, Event)>, t1: Talk, d: Direction, point: (real, real))
    requires turns != []
    requires var n := |turns| - 1; var b := Before(s, turns, n);
             && AllReported(s, turns[..n], b.talk) && AllCame(s, turns[..n], b.talk)
             && Takes(b, turns[n].0, turns[n].1, d, point) && Grown(b.talk, t1, d, point)
    ensures AllReported(s, turns, t1) && AllCame(s, turns, t1)
  {
    hide Onward, Before, Takes, OnPlan, AllReported, Came;
    var n := |turns| - 1;
    var b := Before(s, turns, n);
    TakesThere(b, turns[n].0, turns[n].1, d, point);
    OnwardSame(b.talk, t1);
    NewOne(s, turns, t1, d, point);
    forall d1, i: nat | i < |ReadingsOf(t1.measured, d1)| ensures Came(s, turns, d1, i, t1) {
      if d1 != d || i < |ReadingsOf(b.talk.measured, d)| { OldOnes(s, turns, b.talk, t1, d1, i); }
    }
  }

  lemma TurnProves(s: State, turns: seq<(World, Event)>)
    requires turns != []
    requires var n := |turns| - 1; var b := Before(s, turns, n);
             && AllReported(s, turns[..n], b.talk) && AllCame(s, turns[..n], b.talk)
             && Stepped(b, turns[n].0, turns[n].1, Turn(b, turns[n].0, turns[n].1))
    ensures var n := |turns| - 1; var t1 := Turn(Before(s, turns, n), turns[n].0, turns[n].1).talk;
            AllReported(s, turns, t1) && AllCame(s, turns, t1)
  {
    var n := |turns| - 1;
    var b := Before(s, turns, n);
    var r := Turn(b, turns[n].0, turns[n].1);
    hide Before, Turn, Walked, Ran, Takes, Grown, SameWalk, AllReported, AllCame;
    if Walked(b.talk, r.talk) { WalkedOn(s, turns, b.talk, r.talk); }
    else if exists seconds :: Ran(b, turns[n].1, seconds) && SameWalk(b.talk.(report := Some(seconds)), r.talk) {
      var seconds :| Ran(b, turns[n].1, seconds) && SameWalk(b.talk.(report := Some(seconds)), r.talk);
      RanOn(s, turns, r.talk, seconds);
    } else {
      var d, point :| Takes(b, turns[n].0, turns[n].1, d, point) && Grown(b.talk, r.talk, d, point);
      TakenOn(s, turns, r.talk, d, point);
    }
  }

  /** Over every run, from a session without readings: entry `i` of the readings of a direction was read off the
      tape by a client that got through, at the stage the plan was at, which is the fitting stage of that
      direction with `i` such before it; its seconds are those the primitive of that very stage's run came
      back with; and stage and count still stand in the plan, whatever was repeated, taken back, dealt again,
      grafted or replaced since. */
  lemma {:induction false} EveryReadingHasItsStage(s: State, turns: seq<(World, Event)>)
    requires Inv(s) && s.talk.report.None? && s.talk.measured.descent == [] && s.talk.measured.ascent == []
    requires !Run(s, turns).life.ended
    ensures AllReported(s, turns, Run(s, turns).talk) && AllCame(s, turns, Run(s, turns).talk)
    decreases |turns|
  {
    if turns != [] {
      var n := |turns| - 1;
      var b := Run(s, turns[..n]);
      RunInOne(s, turns);
      RunKeeps(s, turns[..n]);
      hide Inv, Turn, Run, Stepped, AllReported, AllCame;
      if b.life.ended { LiveBefore(b, turns[n].0, turns[n].1); }
      EveryReadingHasItsStage(s, turns[..n]);
      TurnSteps(b, turns[n].0, turns[n].1);
      TurnProves(s, turns);
    }
  }

  /** And so over every run of a session as `begin` publishes it. */
  lemma ReadingsHaveTheirStages(w: World, client: string, path: Option<Route>, profile: Option<string>,
                                turns: seq<(World, Event)>, d: Direction, i: nat)
    requires var s := LifeOf(w, client, path, profile, turns);
             !s.life.ended && i < |ReadingsOf(s.talk.measured, d)|
    ensures var t := LifeOf(w, client, path, profile, turns).talk;
            exists run: nat, k: nat ::
              CameFrom(Born(w, client, path, profile), turns, run, k, d, i, ReadingsOf(t.measured, d)[i], t)
  {
    BornKept(w, client, path, profile);
    BornUnread(w, client, path, profile);
    hide Born, Inv, CameFrom;
    EveryReadingHasItsStage(Born(w, client, path, profile), turns);
    assert Came(Born(w, client, path, profile), turns, d, i, LifeOf(w, client, path, profile, turns).talk);
  }

  lemma BornUnread(w: World, client: string, path: Option<Route>, profile: Option<string>)
    ensures var t := Born(w, client, path, profile).talk;
            t.report.None? && t.measured.descent == [] && t.measured.ascent == []
  {
  }
}
