/** Where the numbers of a run come from, over whole runs of a session: the part of its time a reading's run goes for,
    the start a press is timed from, and the press a slat phase is timed by. */
module Runs {
  import opened Wrappers
  import opened Plans
  import opened Screens
  import opened Session
  import opened SessionInvariant
  import opened SessionProof
  import opened SessionTurns
  import opened SessionEffects
  import opened Revisions
  import opened Endings
  import opened Safety
  import opened Steps
  import opened Readings

  // ---------------------------------------------------------------- what a turn does to them

  /** A screen of the reading at the index, from its homing to its verdict. */
  predicate AtAReading(step: Screen) { OnAReading(step) || step.VerifyResult? }

  /** A screen of the lift-off run before its press. */
  predicate BeforeTheLift(step: Screen) {
    step == Positioning(OpenTimed) || step.OpenBrief? || step.OpenStarting? || step.OpenLift?
  }

  predicate Clocked(step: Screen) { IsPress(step) || step.LiftStop? }

  /** None of those. */
  predicate Plain(step: Screen) { !AtAReading(step) && !Clocked(step) && !BeforeTheLift(step) }

  predicate SameAim(t: Talk, r: Talk) { r.plan == t.plan && r.index == t.index && r.aim.pending == t.aim.pending }

  predicate SameStart(t: Talk, r: Talk) {
    r.plan == t.plan && r.index == t.index && r.instants.motorStart == t.instants.motorStart
  }

  predicate SameRun(t: Talk, r: Talk) {
    SameAim(t, r) && SameStart(t, r) && r.instants.liftOff == t.instants.liftOff
  }

  /** A reading entered in a turn told `w` is aimed at the run that reading asks for then. */
  predicate Aimed(w: World, r: Talk) {
    && OnPlan(r) && (r.shown.step.Positioning? || r.shown.step.TapeRun?)
    && r.aim.pending.Some? && AsksFor(w, r.plan[r.index.value], r.aim.pending.value)
  }

  /** The free run of a press screen came back in this turn: its first answer is the start the press is timed from. */
  predicate Started(s: State, e: Event, r: Talk) {
    && IsPress(r.shown.step) && r.plan == s.talk.plan && r.index == s.talk.index
    && e.TaskTurn? && e.which < |s.engine.tasks| && s.engine.tasks[e.which].Driving? && e.answer.Done?
    && r.instants.motorStart == Some(e.answer.first)
    && var job := s.engine.tasks[e.which].job;
       && !Overtaken(s, job) && job.next == ToScreen(r.shown.step)
       && job.primitive == StartFree(if r.shown.step.CloseBottom? then Close else Open)
  }

  /** The press of the lift-off got through in this turn, and it is the instant the slat phase is timed by. */
  predicate Lifted(s: State, w: World, e: Event, r: Talk) {
    && r.shown.step.LiftStop? && s.talk.shown.step.OpenLift? && SameStart(s.talk, r)
    && e.Act? && e.action.LiftedOff? && GuardAct(s, w, e.client, e.revision, LiftedOff).None?
    && r.instants.liftOff == Some(s.talk.instants.liftOff.GetOr(w.now))
  }

  /** The screen a turn leaves is one of the same reading or run as before, or the first of a new one. */
  predicate Came(s: State, w: World, e: Event, r: Talk) {
    var step := r.shown.step;
    && (AtAReading(step) ==>
          (AtAReading(s.talk.shown.step) && SameAim(s.talk, r)) || (e.Act? && Aimed(w, r)))
    && (IsPress(step) ==> (s.talk.shown.step == step && SameStart(s.talk, r)) || Started(s, e, r))
    && (step.LiftStop? ==> (s.talk.shown.step == step && SameRun(s.talk, r)) || Lifted(s, w, e, r))
    && (BeforeTheLift(step) ==>
          r.instants.liftOff.None?
          || (BeforeTheLift(s.talk.shown.step) && r.instants.liftOff == s.talk.instants.liftOff))
  }

  // ---------------------------------------------------------------- screens

  lemma ShowRuns(s: State, w: World, step: Screen, error: Option<FormError>, notice: Option<Notice>, reason: Reason)
    ensures var r := ShowWith(s, w, step, error, notice).talk; SameRun(s.talk, r) && r.shown.step == step
    ensures var r := ShowProblem(s, w, reason).talk; SameRun(s.talk, r) && r.shown.step.Problem?
  {
  }

  lemma MovementRuns(s: State, w: World, step: Screen, kind: Kind, direction: Direction,
                     p: Primitive, next: Next, notice: Option<Notice>)
    ensures var r := BeginMovement(s, w, step, kind, direction, p, next, notice).talk;
            SameRun(s.talk, r) && r.shown.step == step
  {
  }

  lemma LiftRuns(s: State, w: World)
    ensures var r := LiftMeasured(s, w).talk;
            r.escaped || (SameRun(s.talk, r) && (r.shown.step.LiftCheck? || r.shown.step.LiftCheckLate?
                                                 || r.shown.step.Problem?))
  {
  }

  lemma GotoRuns(s: State, w: World, next: Next, notice: Option<Notice>)
    ensures var r := Goto(s, w, next, notice).talk;
            r.escaped
            || (SameRun(s.talk, r)
                && match next
                   case ToTheRun => r.shown.step.TapeRun?
                   case ToTheLift => Plain(r.shown.step)
                   case ToScreen(screen) => r.shown.step == screen)
  {
    hide LiftMeasured, BeginMovement, ShowWith, ArmPress, IsPress, Plain, SameRun;
    match next
    case ToTheLift => LiftRuns(s, w); LiftIsPlain(LiftMeasured(s, w).talk.shown.step);
    case ToTheRun =>
      var (direction, fraction) := s.talk.aim.pending.GetOr((Close, 0.5));
      MovementRuns(s, w, TapeRun, Fraction, direction, RunTo(direction, fraction), ToScreen(s.talk.aim.form), None);
    case ToScreen(screen) =>
      ShowRuns(s, w, screen, None, notice, Unknown);
      PressRuns(s, w, if screen == OpenLift then LiftOffPress else EndStopPress, screen);
  }

  lemma LiftIsPlain(step: Screen)
    ensures step.LiftCheck? || step.LiftCheckLate? || step.Problem? ==> Plain(step)
  {
  }

  lemma PressRuns(s: State, w: World, kind: Press, screen: Screen)
    ensures var r := Show(ArmPress(s, w, kind), w, screen).talk; SameRun(s.talk, r) && r.shown.step == screen
  {
  }

  lemma HomingRuns(s: State, w: World, step: Screen, d: Direction, next: Next)
    requires !next.ToTheLift?
    ensures var r := BeginHoming(s, w, step, d, next).talk;
            r.escaped
            || (SameRun(s.talk, r)
                && (r.shown.step == step
                    || if next.ToTheRun? then r.shown.step.TapeRun? else r.shown.step == next.screen))
  {
    hide Goto, BeginMovement;
    GotoRuns(Rested(s), w, next, None);
    MovementRuns(s.(talk := s.talk.(homeAnyway := false)), w, step, Homing, d, Home(d), next, None);
  }

  lemma TimedRuns(s: State, w: World, brief: Screen)
    ensures var r := TimedRun(s, w, brief).talk;
            && r.instants.liftOff == s.talk.instants.liftOff
            && (if brief.CloseBrief? then r.shown.step == Positioning(CloseTimed) || r.shown.step.CloseStarting?
                else if brief.OpenBrief? then r.shown.step == Positioning(OpenTimed) || r.shown.step.OpenStarting?
                else r.shown.step.OpenHomeAgain? || r.shown.step.OpenFullStarting?)
  {
    hide BeginMovement;
    var (way, homing, step, press) :=
      if brief.CloseBrief? then (Close, Positioning(CloseTimed), CloseStarting, CloseBottom)
      else if brief.OpenBrief? then (Open, Positioning(OpenTimed), OpenStarting, OpenLift)
      else (Open, OpenHomeAgain, OpenFullStarting, OpenTop);
    var from := OtherEnd(way);
    MovementShows(s, w, homing, Homing, from, Home(from), ToScreen(brief), Some(Rehomed));
    MovementShows(s.(talk := s.talk.(instants := s.talk.instants.(motorStart := None))), w, step, Free, way,
                  StartFree(way), ToScreen(press), None);
  }

  lemma MovementShows(s: State, w: World, step: Screen, kind: Kind, direction: Direction,
                      p: Primitive, next: Next, notice: Option<Notice>)
    ensures var r := BeginMovement(s, w, step, kind, direction, p, next, notice).talk;
            r.instants == s.talk.instants && r.shown.step == step
  {
  }

  lemma StoppedRuns(s: State, w: World, d: Direction)
    ensures var r := PressStopped(s, w, d).talk;
            r.escaped || r.shown.step.Problem? || r.shown.step.CloseResult? || r.shown.step.OpenResult?
            || r.shown.step.OpenResultGap?
  {
    hide ShowProblem, ShowWith, TimedOut;
    ProblemShows(s, w, Timeout);
    ProblemShows(Unpressed(s), w, BadPoint);
    if !TimedOut(s, w) && s.talk.instants.motorStart.Some? {
      var run := w.now - s.talk.instants.motorStart.value;
      var slat := s.talk.measured.slatSeconds.GetOr(0.0);
      var m := if d == Open then s.talk.measured.(opening := Some(Timing(Some(slat), run)))
               else s.talk.measured.(closing := Some(Timing(None, run)));
      AcceptedShows(s, w, d, m,
                    if d == Close then CloseResult else if m.liftGap.Some? then OpenResultGap else OpenResult);
    }
  }

  lemma LiftedRuns(s: State, w: World)
    ensures var r := PressLiftedOff(s, w).talk;
            r.shown.step.Problem?
            || (r.shown.step.LiftStop? && SameStart(s.talk, r)
                && r.instants.liftOff == Some(s.talk.instants.liftOff.GetOr(w.now)))
  {
  }

  // ---------------------------------------------------------------- entering a stage

  /** Of a stage just entered: a reading is aimed afresh, and nothing of a lift-off is left. */
  predicate Fresh(w: World, r: Talk) {
    && (AtAReading(r.shown.step) ==> Aimed(w, r)) && !Clocked(r.shown.step)
    && (BeforeTheLift(r.shown.step) ==> r.instants.liftOff.None?)
  }

  lemma PlainIsFresh(w: World, r: Talk)
    requires Plain(r.shown.step)
    ensures Fresh(w, r)
  {
  }

  lemma ReadingRuns(s: State, w: World, stage: Stage, fraction: real)
    requires OnPlan(s.talk) && s.talk.plan[s.talk.index.value] == stage && IsReading(stage)
    requires AsksFor(w, stage, (RunDirection(stage), fraction))
    ensures var r := FractionStage(s, w, stage, fraction).talk; r.escaped || Fresh(w, r)
  {
    hide BeginHoming, AsksFor;
    var d := RunDirection(stage);
    var aim := Aim(None, Some((d, fraction)), stage == VerifyB, FormAfter(stage));
    HomingRuns(s.(talk := s.talk.(aim := aim, check := None)), w, Positioning(stage), OtherEnd(d), ToTheRun);
  }

  lemma HomedIsFresh(s: State, w: World, stage: Stage, next: Next)
    requires next.ToScreen? && Plain(next.screen) && !IsReading(stage) && !stage.OpenTimed?
    ensures var r := BeginHoming(s, w, Positioning(stage), HomingEnd(stage), next).talk; r.escaped || Fresh(w, r)
  {
    hide BeginHoming;
    HomingRuns(s, w, Positioning(stage), HomingEnd(stage), next);
  }

  lemma AscentIsFresh(s: State, w: World)
    ensures var r := BeginHoming(s.(talk := WithoutTheAscent(s.talk)), w, Positioning(OpenTimed), Close,
                                 ToScreen(OpenBrief)).talk;
            r.escaped || Fresh(w, r)
  {
    hide BeginHoming;
    HomingRuns(s.(talk := WithoutTheAscent(s.talk)), w, Positioning(OpenTimed), Close, ToScreen(OpenBrief));
  }

  lemma ShownIsFresh(s: State, w: World, step: Screen, reason: Reason)
    requires Plain(step)
    ensures Fresh(w, Show(s, w, step).talk)
    ensures Fresh(w, ShowProblem(s, w, reason).talk)
  {
    hide ShowWith, ShowProblem;
    ShowRuns(s, w, step, None, None, reason);
  }

  lemma StageRuns(s: State, w: World, stage: Stage)
    requires OnPlan(s.talk) && s.talk.plan[s.talk.index.value] == stage
    ensures var r := EnterStage(s, w, stage).talk; r.escaped || Fresh(w, r)
  {
    hide BeginHoming, FractionStage, Show, ShowProblem, VariantOf, Reordered, Fresh, AsksFor;
    match stage
    case HomeClosed => HomedIsFresh(s, w, HomeClosed, ToScreen(HomeClosedDone));
    case OpenTimed => AscentIsFresh(s, w);
    case HeightRead =>
      HomedIsFresh(if s.talk.stopFirst then s.(talk := s.talk.(measured := WithoutTheTravel(s.talk.measured))) else s,
                   w, HeightRead, ToScreen(HeightForm));
    case CloseTimed => HomedIsFresh(s, w, CloseTimed, ToScreen(CloseBrief));
    case TapeBrief =>
      var plan := Reordered(s.talk.plan, Index(s.talk) + 1, s.place.at);
      ShownIsFresh(s.(talk := s.talk.(plan := plan)), w, TapeBriefing, Unknown);
    case VerifyOffer => ShownIsFresh(s, w, VerifyOffering, Unknown);
    case ProfileName => ShownIsFresh(s, w, NameForm, Unknown);
    case Summary =>
      ShownIsFresh(s, w, NameForm, BadPoint);
      if w.summary.Some? {
        var variant := VariantOf(s.talk);
        ShownIsFresh(s.(talk := s.talk.(review := Some(Card(variant, w.summary.value)))), w, Summing(variant), Unknown);
      }
    case _ => AskedRuns(s, w, stage);
  }

  lemma AskedRuns(s: State, w: World, stage: Stage)
    requires OnPlan(s.talk) && s.talk.plan[s.talk.index.value] == stage && IsReading(stage)
    ensures var r := EnterStage(s, w, stage).talk; r.escaped || Fresh(w, r)
  {
    hide FractionStage, ShowProblem, Fresh, AsksFor;
    if !stage.VerifyB? {
      FractionIsAsked(w, stage, FractionOf(stage));
      ReadingRuns(s, w, stage, FractionOf(stage));
    } else if w.halfTravel.Some? {
      FractionIsAsked(w, VerifyB, w.halfTravel.value);
      ReadingRuns(s, w, VerifyB, w.halfTravel.value);
    } else {
      ShownIsFresh(s, w, NameForm, BadPoint);
    }
  }

  lemma EnterRuns(s: State, w: World, talk: Talk)
    requires talk.index.Some?
    ensures var r := EnterWith(s, w, talk).talk; r.escaped || Fresh(w, r)
  {
    hide EnterStage;
    var t0 := talk.(error := None, report := None, review := None);
    if OnPlan(talk) { StageRuns(s.(talk := t0), w, talk.plan[talk.index.value]); }
  }

  // ---------------------------------------------------------------- the acts

  lemma PlanActionRuns(s: State, w: World, a: Action)
    requires ChoosesAPlan(a) && !EndsTheSession(w, a) && (a.GoThorough? ==> s.talk.index.Some?)
    ensures var r := Do(s, w, a).talk; r.escaped || Fresh(w, r)
  {
    hide EnterWith, EnterStage, Enter, Least;
    var t := s.talk;
    match a
    case ChooseFirst => PlainIsFresh(w, Do(s, w, a).talk);
    case ChooseProfile => PlainIsFresh(w, Do(s, w, a).talk);
    case ChooseRefine => PlainIsFresh(w, Do(s, w, a).talk);
    case Begin => EnterRuns(s, w, Chose(t, First).(measured := NOTHING_MEASURED, plan := PLAN_FULL, index := Some(0)));
    case DoTimesOnly => EnterRuns(s, w, Scoped(t, TimesOnly).(plan := PLAN_TIMES, index := Some(0)));
    case DoTimesAndRolls => EnterRuns(s, w, Scoped(t, TimesAndRolls).(plan := PLAN_TIMES_AND_ROLLS, index := Some(0)));
    case DoPointsOnly => AdoptionRuns(s, w);
    case GoThorough => ThoroughRuns(s, w);
  }

  lemma AdoptionRuns(s: State, w: World)
    requires w.inUse.Some?
    ensures var r := AdoptTheTimes(s, w).talk; r.escaped || Fresh(w, r)
  {
    hide EnterWith;
    var u := w.inUse.value;
    var m := s.talk.measured.(opening := Some(Timing(Some(u.slat), u.opening)),
                              closing := Some(Timing(None, u.closing)), timesAdopted := true, precise := true);
    EnterRuns(s, w, Scoped(s.talk, PointsOnly).(measured := m, index := Some(0),
                    plan := if HeightKnown(m) then PLAN_PRECISE else PLAN_PRECISE_TRAVEL));
  }

  lemma ThoroughRuns(s: State, w: World)
    requires s.talk.index.Some?
    ensures var r := Do(s, w, GoThorough).talk; r.escaped || Fresh(w, r)
  {
    hide EnterWith, Least;
    var t := s.talk;
    var plan := if HeightKnown(t.measured) then PLAN_PRECISE else PLAN_PRECISE_TRAVEL;
    EnterRuns(s, w, t.(measured := t.measured.(precise := true), plan := t.plan[..Least(Index(t), |t.plan|)] + plan));
  }

  lemma RunActionRuns(s: State, w: World, a: Action)
    requires Offers(s.talk.shown.step, a) && !a.Submit? && !ChoosesAPlan(a) && !WalksThePlan(a) && !a.LiftedOff?
    ensures var r := Do(s, w, a).talk;
            r.escaped || Fresh(w, r)
            || (s.talk.shown.step.OpenBrief? && (r.shown.step == Positioning(OpenTimed) || r.shown.step.OpenStarting?)
                && r.instants.liftOff == s.talk.instants.liftOff)
  {
    hide PressStopped, TimedRun, BeginHoming, Show, Fresh;
    match a
    case ConfirmClosedAgain => ShownIsFresh(s, w, OpenFullBrief, Unknown);
    case StartOpening => TimedRuns(s, w, OpenBrief);
    case StartFullOpening => TimedIsFresh(s, w, OpenFullBrief);
    case StartClosing => TimedIsFresh(s, w, CloseBrief);
    case LiftAccept => ClosingAgainIsFresh(s, w);
    case LiftByTape => ShownIsFresh(s, w, LiftGap, Unknown);
    case StoppedOpen => StoppedIsFresh(s, w, Open);
    case StoppedClosed => StoppedIsFresh(s, w, Close);
    case RepeatMeasure =>
      ShownIsFresh(s.(talk := s.talk.(measured := WithoutTheTravel(s.talk.measured))), w, HeightForm, Unknown);
  }

  lemma TimedIsFresh(s: State, w: World, brief: Screen)
    requires brief.OpenFullBrief? || brief.CloseBrief?
    ensures Fresh(w, TimedRun(s, w, brief).talk)
  {
    hide TimedRun;
    TimedRuns(s, w, brief);
  }

  lemma StoppedIsFresh(s: State, w: World, d: Direction)
    ensures var r := PressStopped(s, w, d).talk; r.escaped || Fresh(w, r)
  {
    hide PressStopped;
    StoppedRuns(s, w, d);
  }

  lemma WalkActionRuns(s: State, w: World, a: Action)
    requires WalksThePlan(a) && s.talk.index.Some?
    ensures var r := Do(s, w, a).talk; r.escaped || Fresh(w, r)
  {
    hide EnterWith, Enter, Advance, Grafted, WithoutTheReading, Fresh;
    match a
    case RepeatStep => AgainRuns(s, w);
    case NotRight => AgainRuns(s, w);
    case LiftTooEarly => AgainRuns(s, w);
    case RepeatTape => TapeAgainRuns(s, w);
    case TapeNotRight => TapeAgainRuns(s, w);
    case VerifyNow => AdvanceRuns(s.(talk := s.talk.(plan := Grafted(s.talk.plan, Index(s.talk)))), w);
    case _ => AdvanceRuns(s, w);
  }

  lemma AgainRuns(s: State, w: World)
    requires s.talk.index.Some?
    ensures forall a: Action :: a.RepeatStep? || a.NotRight? || a.LiftTooEarly? ==>
              var r := Do(s, w, a).talk; r.escaped || Fresh(w, r)
  {
    hide EnterWith, Enter, Fresh;
    EntersItself(s, w);
    EnterRuns(s, w, s.talk);
    EnterRuns(s, w, s.talk.(homeAnyway := true));
    EnterRuns(s, w, s.talk.(stopFirst := true, homeAnyway := true));
  }

  lemma TapeAgainRuns(s: State, w: World)
    requires s.talk.index.Some?
    ensures var r := EnterWith(s, w, WithoutTheReading(s.talk)).talk; r.escaped || Fresh(w, r)
    ensures var r := EnterWith(s, w, WithoutTheReading(s.talk).(stopFirst := true, homeAnyway := true)).talk;
            r.escaped || Fresh(w, r)
  {
    hide EnterWith, WithoutTheReading, Fresh;
    ReadingTakenBack(s.talk);
    EnterRuns(s, w, WithoutTheReading(s.talk));
    EnterRuns(s, w, WithoutTheReading(s.talk).(stopFirst := true, homeAnyway := true));
  }

  lemma AdvanceRuns(s: State, w: World)
    ensures var r := Advance(s, w).talk; r.escaped || Fresh(w, r)
  {
    hide EnterWith;
    EnterRuns(s, w, s.talk.(index := Some(Index(s.talk) + 1)));
  }

  // ---------------------------------------------------------------- the forms

  lemma HeightRuns(s: State, w: World, v: Value)
    ensures Fresh(w, SubmitHeight(s, w, v).talk)
  {
    hide ShowWith, Show, Fresh;
    ErrorIsFresh(s, w, HeightForm, NotANumber);
    ErrorIsFresh(s, w, HeightForm, OutOfRange);
    if v.Number? {
      var m := s.talk.measured.(height := Some(v.n), heightMeasured := true);
      ShownIsFresh(s.(talk := s.talk.(measured := m)), w, HeightResult, Unknown);
    }
  }

  lemma GapRuns(s: State, w: World, v: Value)
    ensures var r := SubmitGap(s, w, v).talk; r.escaped || Fresh(w, r)
  {
    hide BeginHoming, ShowWith, Fresh;
    ClosingAgainIsFresh(s, w);
    ClosingAgainIsFresh(
      s.(talk := s.talk.(measured := s.talk.measured.(liftGap := if v.Number? then Some(v.n) else None))), w);
    ErrorIsFresh(s, w, LiftGap, NotANumber);
    ErrorIsFresh(s, w, LiftGap, OutOfRange);
    ShownIsFresh(s, w, LiftEarly, Unknown);
  }

  lemma ClosingAgainIsFresh(s: State, w: World)
    ensures var r := BeginHoming(s, w, OpenHomeAgain, Close, ToScreen(ClosedAgain)).talk; r.escaped || Fresh(w, r)
  {
    hide BeginHoming;
    HomingRuns(s, w, OpenHomeAgain, Close, ToScreen(ClosedAgain));
  }

  lemma ErrorIsFresh(s: State, w: World, step: Screen, error: FormError)
    requires Plain(step)
    ensures Fresh(w, ShowWith(s, w, step, Some(error), None).talk)
  {
    hide ShowWith;
    ShowRuns(s, w, step, Some(error), None, Unknown);
  }

  lemma NameRuns(s: State, w: World, name: string)
    ensures var r := SubmitName(s, w, name).talk; r.escaped || Fresh(w, r)
  {
    hide Advance, IsAName;
    AdvanceRuns(s.(talk := s.talk.(choice := s.talk.choice.(name := Some(name)))), w);
  }

  lemma ProfileRuns(s: State, w: World, name: string)
    ensures var r := SubmitProfile(s, w, name).talk; r.escaped || Fresh(w, r)
  {
    hide EnterWith;
    EnterRuns(s, w, s.talk.(choice := s.talk.choice.(profile := Some(name)), measured := NOTHING_MEASURED,
                            plan := PLAN_PROFILE, index := Some(0)));
  }

  lemma TapeRuns(s: State, w: World, v: Value)
    requires IsTapeForm(s.talk.shown.step)
    ensures var r := SubmitReading(s, w, v).talk;
            Plain(r.shown.step) || (AtAReading(r.shown.step) && SameAim(s.talk, r))
  {
    hide SubmitReading, Plain, AtAReading, Read;
    FormsAreAtAReading(s.talk.shown.step);
    FormsAreAtAReading(SubmitReading(s, w, v).talk.shown.step);
    if s.talk.shown.step.MeasureVerify? { CheckRuns(s, w, v); }
    else {
      ReadingIsRead(s, w, v);
      ReadShows(s.talk, SubmitReading(s, w, v).talk, v, if s.talk.shown.step.MeasureDescent? then Close else Open);
    }
  }

  lemma ReadShows(t: Talk, r: Talk, v: Value, d: Direction)
    requires Read(t, r, v, d)
    ensures r.shown.step.TapeResult? || (r.shown.step == t.shown.step && SameAim(t, r))
  {
  }

  lemma CheckRuns(s: State, w: World, v: Value)
    requires s.talk.shown.step.MeasureVerify?
    ensures var r := SubmitReading(s, w, v).talk;
            r.shown.step.Problem? || ((r.shown.step.VerifyResult? || r.shown.step.MeasureVerify?) && SameAim(s.talk, r))
  {
    hide Verified, ShowWith;
    ShowRuns(s, w, MeasureVerify, Some(NotANumber), None, Unknown);
    ShowRuns(s, w, MeasureVerify, Some(OutOfRange), None, Unknown);
    ShowRuns(s, w, MeasureVerify, Some(AboveTheTravel), None, Unknown);
    if v.Number? { VerdictRuns(s, w, v.n); }
  }

  lemma FormsAreAtAReading(step: Screen)
    ensures IsTapeForm(step) || step.VerifyResult? ==> AtAReading(step)
    ensures step.TapeResult? || step.Problem? ==> Plain(step)
  {
  }

  lemma VerdictRuns(s: State, w: World, cm: real)
    ensures var r := Verified(s, w, cm).talk;
            r.shown.step.Problem? || (r.shown.step.VerifyResult? && SameAim(s.talk, r))
  {
  }

  // ---------------------------------------------------------------- every turn

  lemma FreshComes(s: State, w: World, e: Event, r: Talk)
    requires Fresh(w, r) && e.Act?
    ensures Came(s, w, e, r)
  {
    hide Aimed;
  }

  lemma ActComes(s: State, w: World, client: string, revision: nat, a: Action, v: Value)
    requires Inv(s) && !s.life.ended && GuardAct(s, w, client, revision, a).None? && !NamesNoProfile(s.talk, w, a, v)
    ensures var r := Carried(Taken(s, w, client), w, a, v);
            r.life.ended || r.talk.escaped || Came(s, w, Act(client, revision, a, v), r.talk)
  {
    hide Inv, Settled, Taken, GuardAct, NamesNoProfile, Do, DoSubmit, Came, Fresh, Offered;
    TakenCounts(s, w, client);
    GuardsStand(s, w, client, revision, a);
    LiveIsSettled(s);
    var s1 := Taken(s, w, client);
    var e := Act(client, revision, a, v);
    if a.Submit? { FormComes(s, s1, w, client, revision, v); }
    else if EndsTheSession(w, a) { AdoptionComes(s, s1, w, e); }
    else if ChoosesAPlan(a) {
      SettledTalk(s);
      if a.GoThorough? { SummaryIsOnPlan(s.talk, w); }
      PlanActionRuns(s1, w, a);
      if !Do(s1, w, a).talk.escaped { FreshComes(s, w, e, Do(s1, w, a).talk); }
    } else if WalksThePlan(a) {
      WalkedIsOnPlan(s, w, a);
      WalkActionRuns(s1, w, a);
      if !Do(s1, w, a).talk.escaped { FreshComes(s, w, e, Do(s1, w, a).talk); }
    } else { RunActionComes(s, s1, w, client, revision, a, v); }
  }

  lemma SummaryIsOnPlan(t: Talk, w: World)
    requires TalkKept(t) && Offered(t, w, GoThorough)
    ensures t.index.Some?
  {
    PlanScreens(t, w, GoThorough);
    hide PathKept, ReadingsKept, AimKept, WellFormed, Offered;
  }

  lemma WalkedIsOnPlan(s: State, w: World, a: Action)
    requires Settled(s) && Offered(s.talk, w, a) && WalksThePlan(a)
    ensures s.talk.index.Some?
  {
    SettledTalk(s);
    WalkScreens(s.talk, w, a);
    hide PathKept, ReadingsKept, AimKept, WellFormed, Offered, MovingKept, JobsKept, TasksKept, TrustKept, LifeKept;
  }

  lemma AdoptionComes(s: State, s1: State, w: World, e: Event)
    requires Inv(s) && !s.life.ended && s1.talk == s.talk && e.Act? && EndsTheSession(w, e.action)
    requires Offered(s.talk, w, e.action)
    ensures var r := Do(s1, w, e.action); r.life.ended || Came(s, w, e, r.talk)
  {
    hide Inv, End, Offered, Do;
    PlanScreens(s.talk, w, e.action);
    PointsOnlyAdopts(s1, w);
    if !s1.life.ended { EndGoes(NextGeneration(s1.(talk := Scoped(s1.talk, PointsOnly))), w, CoverGone); }
  }

  lemma RunActionComes(s: State, s1: State, w: World, client: string, revision: nat, a: Action, v: Value)
    requires s1.talk == s.talk && !a.Submit? && !ChoosesAPlan(a) && !WalksThePlan(a)
    requires GuardAct(s, w, client, revision, a).None? && Offered(s.talk, w, a)
    ensures var r := Do(s1, w, a).talk; r.escaped || Came(s, w, Act(client, revision, a, v), r)
  {
    hide Do, GuardAct, Offered, Fresh, Aimed, PressLiftedOff;
    RunScreens(s.talk, w, a);
    var r := Do(s1, w, a).talk;
    if a.LiftedOff? { LiftComes(s, s1, w, client, revision, v); }
    else {
      RunActionRuns(s1, w, a);
      if Fresh(w, r) { FreshComes(s, w, Act(client, revision, a, v), r); }
    }
  }

  lemma LiftComes(s: State, s1: State, w: World, client: string, revision: nat, v: Value)
    requires s1.talk == s.talk && s.talk.shown.step.OpenLift? && GuardAct(s, w, client, revision, LiftedOff).None?
    ensures Came(s, w, Act(client, revision, LiftedOff, v), Do(s1, w, LiftedOff).talk)
  {
    hide GuardAct, PressLiftedOff;
    LiftedRuns(s1, w);
  }

  lemma FormComes(s: State, s1: State, w: World, client: string, revision: nat, v: Value)
    requires s1.talk == s.talk && Offered(s.talk, w, Submit)
    ensures var r := Carried(s1, w, Submit, v).talk; r.escaped || Came(s, w, Act(client, revision, Submit, v), r)
  {
    hide SubmitHeight, SubmitGap, SubmitName, SubmitProfile, SubmitReading, Came, Fresh, Plain, SameAim, AtAReading;
    var e := Act(client, revision, Submit, v);
    var r := Carried(s1, w, Submit, v).talk;
    match FormOf(s.talk.shown.step).value
    case HeightField => HeightRuns(s1, w, v); FreshComes(s, w, e, r);
    case GapField => GapRuns(s1, w, v); if !r.escaped { FreshComes(s, w, e, r); }
    case NameField => NameRuns(s1, w, Session.Written(v)); if !r.escaped { FreshComes(s, w, e, r); }
    case ProfileField => ProfileRuns(s1, w, Session.Written(v)); if !r.escaped { FreshComes(s, w, e, r); }
    case ReadingField =>
      TapeRuns(s1, w, v);
      ReadingComes(s, w, e, r);
  }

  lemma ReadingComes(s: State, w: World, e: Event, r: Talk)
    requires IsTapeForm(s.talk.shown.step) && e.Act?
    requires Plain(r.shown.step) || (AtAReading(r.shown.step) && SameAim(s.talk, r))
    ensures Came(s, w, e, r)
  {
  }

  /** Nothing of the run is touched, and the screen is the one there was or a problem's. */
  predicate Stays(t: Talk, r: Talk) {
    r.shown.step.Problem? || (SameRun(t, r) && r.shown.step == t.shown.step)
  }

  lemma StaysComes(s: State, w: World, e: Event, r: Talk)
    requires Stays(s.talk, r)
    ensures Came(s, w, e, r)
  {
  }

  lemma EndingStays(s: State, w: World, reason: EndReason, stop: bool)
    ensures var r := AsyncEnd(s, w, reason, stop); r.life.ended || Stays(s.talk, r.talk)
  {
    hide End;
    if !s.life.ended { EndGoes(NextGeneration(s), w, reason); }
  }

  lemma VerbStays(s: State, w: World, e: Event)
    requires e.Stop? || e.Attach? || e.Heartbeat? || e.Save? || e.PressTimer? || e.CoverMoves? || e.CoverRests?
    ensures Stays(s.talk, Turn(s, w, e).talk)
  {
    hide GuardSave, TurnAct, RunTask, OwnedByAnother, IsTapeForm, External, TurnStop, ShowProblem;
    match e
    case Stop(client, answer) => StopStays(s, w, client, answer);
    case CoverMoves(_) => ExternalStays(s, w);
    case PressTimer =>
      ShowRuns(s.(engine := Overtake(s.engine).(pressTimer := None, press := None, movement := None)), w, OpenBrief,
               None, None, Timeout);
    case CoverRests(_) =>
      ShowRuns(s.(engine := Overtake(s.engine).(movement := None, press := None, pressTimer := None),
                  place := s.place.(at := None)), w, OpenBrief, None, None, Interrupted);
    case _ =>
  }

  lemma StopStays(s: State, w: World, client: string, answer: Answer)
    ensures Stays(s.talk, TurnStop(s, w, client, answer).talk)
  {
    hide OwnedByAnother, StopRefused;
  }

  lemma ExternalStays(s: State, w: World)
    ensures Stays(s.talk, External(s, w).talk)
  {
    hide IsTapeForm, ModeOf;
  }

  lemma OtherTurnStays(s: State, w: World, e: Event)
    requires !s.life.ended && !e.Act? && !e.TaskTurn?
    ensures var r := Turn(s, w, e); r.life.ended || Stays(s.talk, r.talk)
  {
    hide TurnAct, RunTask, End, Finish, AsyncEnd, AnythingMeasured, TurnStop, TurnSave, External, Stays;
    StaysItself(s.talk);
    match e
    case Stop(_, _) | Attach(_, _) | Heartbeat(_) | Save(_, _, _) | PressTimer | CoverMoves(_) | CoverRests(_) =>
      VerbStays(s, w, e);
      hide Turn;
    case Leave(_) => EndGoes(s, w, Left);
    case Cancel(client, _) => EndingStays(Take(s, w, client), w, Cancelled, false);
    case SaveReturns(which, _) =>
      if which < |s.life.saves| { EndGoes(s.(life := s.life.(saves := Without(s.life.saves, which))), w, Saved); }
    case LeaseTimer => EndingStays(s.(life := s.life.(lease := None)), w, Expired, true);
    case Unload => EndingStays(s, w, Unloaded, true);
    case EndingReturns(which) =>
      if which < |s.life.endings| {
        EndGoes(s.(life := s.life.(endings := Without(s.life.endings, which))), w, s.life.endings[which]);
      }
  }

  lemma StaysItself(t: Talk)
    ensures Stays(t, t)
  {
  }

  // ---------------------------------------------------------------- the pump

  /** What a job leaves of the run it belongs to. */
  predicate Finished(t: Talk, job: Job, answer: Answer, r: Talk) {
    && SameAim(t, r) && r.instants.liftOff == t.instants.liftOff
    && r.instants.motorStart == (if job.primitive.StartFree? && answer.Done? then Some(answer.first)
                                 else t.instants.motorStart)
    && match job.next
       case ToTheRun => r.shown.step.TapeRun?
       case ToTheLift => Plain(r.shown.step)
       case ToScreen(screen) => r.shown.step == screen
  }

  lemma ConcludeRuns(s: State, w: World, job: Job, answer: Answer, error: Option<Reason>)
    ensures var r := Conclude(s, w, job, answer, error);
            r.life.ended || r.talk.escaped || Stays(s.talk, r.talk)
            || (error.None? && answer.Done? && Finished(s.talk, job, answer, r.talk))
  {
    hide Goto, AsyncEnd, ShowProblem, Plain;
    if error.None? && answer.Done? {
      var s1 := Settle(s, job.primitive, answer);
      var goesOn := job.next.ToScreen? && IsPress(job.next.screen);
      GotoRuns(if goesOn then s1 else s1.(engine := s1.engine.(movement := None)), w, job.next, job.notice);
    } else {
      var s1 := s.(engine := s.engine.(movement := None));
      if error == Some(UnknownCover) { EndingStays(s1, w, CoverGone, true); }
      else { ShowRuns(s1, w, OpenBrief, None, None, error.GetOr(Unknown)); }
    }
  }

  lemma CompleteRuns(s: State, w: World, which: nat, job: Job, answer: Answer)
    requires which < |s.engine.tasks|
    ensures var r := Complete(s, w, which, job, answer);
            r.life.ended || r.talk.escaped || Stays(s.talk, r.talk)
            || (!Overtaken(s, job) && answer.Done? && Finished(s.talk, job, answer, r.talk))
  {
    hide Conclude;
    var error := if answer.Done? then s.talk.error else ErrorOf(answer);
    var s1 := TaskBecomes(s, which, Looping).(talk := s.talk.(error := error));
    ConcludeRuns(s1, w, job, answer, error);
  }

  lemma LaunchRuns(s: State, w: World, which: nat, job: Job)
    requires which < |s.engine.tasks|
    ensures var r := Launch(s, w, which, job); r.life.ended || r.talk.escaped || Stays(s.talk, r.talk)
  {
    hide Complete;
    CompleteRuns(s, w, which, job, Failed(UnknownCover));
  }

  lemma StartRuns(s: State, w: World, which: nat, job: Job)
    requires which < |s.engine.tasks|
    ensures var r := StartJob(s, w, which, job); r.life.ended || r.talk.escaped || Stays(s.talk, r.talk)
  {
    hide Launch;
    LaunchRuns(s.(talk := s.talk.(error := None, stopFirst := false), place := s.place.(at := None)), w, which, job);
  }

  /** The screen a job hands over to is one of the run or the reading its own screen belonged to. */
  lemma FinishedComes(s: State, w: World, e: Event, r: Talk)
    requires e.TaskTurn? && e.which < |s.engine.tasks| && s.engine.tasks[e.which].Driving? && e.answer.Done?
    requires var job := s.engine.tasks[e.which].job;
             !Overtaken(s, job) && JobFits(s.talk, job) && Finished(s.talk, job, e.answer, r)
    requires Sits(s.talk.shown.step, s.talk.plan[s.talk.index.value])
    ensures Came(s, w, e, r)
  {
  }

  lemma TaskSits(s: State, which: nat)
    requires Inv(s) && !s.life.ended && which < |s.engine.tasks| && s.engine.tasks[which].Driving?
    requires !Overtaken(s, s.engine.tasks[which].job)
    ensures JobFits(s.talk, s.engine.tasks[which].job) && Sits(s.talk.shown.step, s.talk.plan[s.talk.index.value])
  {
    TaskNext(s, which);
    hide PathKept, ReadingsKept, AimKept, MovingKept, JobsKept, TasksKept, TrustKept, LifeKept, WellFormed, Sits;
  }

  lemma TaskComes(s: State, w: World, which: nat, answer: Answer)
    requires Inv(s) && !s.life.ended && which < |s.engine.tasks|
    ensures var r := RunTask(s, w, which, answer);
            r.life.ended || r.talk.escaped || Came(s, w, TaskTurn(which, answer), r.talk)
  {
    hide Inv, Complete, Launch, StartJob, Stays, Finished, Came;
    var e := TaskTurn(which, answer);
    var r := RunTask(s, w, which, answer);
    StaysItself(s.talk);
    match s.engine.tasks[which] {
      case Looping =>
        if s.engine.queued.Some? {
          StartRuns(s.(engine := s.engine.(queued := None)), w, which, s.engine.queued.value);
        }
      case Stopping(job) =>
        if answer.FailedOtherwise? { CompleteRuns(s, w, which, job, answer); }
        else if Overtaken(s, job) { }
        else { LaunchRuns(s, w, which, job); }
      case Driving(job) =>
        CompleteRuns(s, w, which, job, answer);
        if !Overtaken(s, job) && answer.Done? && Finished(s.talk, job, answer, r.talk) {
          TaskSits(s, which);
          FinishedComes(s, w, e, r.talk);
        }
    }
    if Stays(s.talk, r.talk) { StaysComes(s, w, e, r.talk); }
  }

  /** Every turn a session lives through leaves a screen of the same reading or run, or the first of a new one. */
  lemma TurnComes(s: State, w: World, e: Event)
    requires Inv(s) && !s.life.ended && !Turn(s, w, e).life.ended
    ensures Came(s, w, e, Turn(s, w, e).talk)
  {
    hide Inv, TurnAct, RunTask, Came, Stays;
    TurnKeeps(s, w, e);
    InvIsSound(Turn(s, w, e));
    StaysItself(s.talk);
    match e
    case Act(client, revision, action, value) => ActTurnComes(s, w, client, revision, action, value);
    case TaskTurn(which, answer) =>
      if which < |s.engine.tasks| { TaskComes(s, w, which, answer); } else { StaysComes(s, w, e, s.talk); }
    case _ =>
      OtherTurnStays(s, w, e);
      StaysComes(s, w, e, Turn(s, w, e).talk);
      hide Turn;
  }

  lemma ActTurnComes(s: State, w: World, client: string, revision: nat, a: Action, v: Value)
    requires Inv(s) && !s.life.ended
    ensures var r := TurnAct(s, w, client, revision, a, v);
            r.life.ended || r.talk.escaped || Came(s, w, Act(client, revision, a, v), r.talk)
  {
    hide Inv, Taken, GuardAct, Came, NamesNoProfile, Carried, Pump;
    var e := Act(client, revision, a, v);
    StaysItself(s.talk);
    TakenCounts(s, w, client);
    if GuardAct(s, w, client, revision, a).Some? || NamesNoProfile(s.talk, w, a, v) { StaysComes(s, w, e, s.talk); }
    else {
      ActComes(s, w, client, revision, a, v);
      PumpQueues(Carried(Taken(s, w, client), w, a, v));
    }
  }

  // ---------------------------------------------------------------- whole runs

  /** Turn `k` entered the reading that is still at hand, and aimed it at the run it is still aimed at. */
  ghost predicate AimedIn(s: State, turns: seq<(World, Event)>, k: nat, t: Talk) {
    && k < |turns| && turns[k].1.Act? && Aimed(turns[k].0, Before(s, turns, k + 1).talk)
    && forall j :: k < j <= |turns| ==>
         AtAReading(Before(s, turns, j).talk.shown.step) && SameAim(Before(s, turns, j).talk, t)
  }

  /** In turn `k` the free run behind this press came back with the start that the press is timed from. */
  ghost predicate StartedIn(s: State, turns: seq<(World, Event)>, k: nat, t: Talk) {
    && k < |turns| && Started(Before(s, turns, k), turns[k].1, Before(s, turns, k + 1).talk)
    && forall j :: k < j <= |turns| ==>
         Before(s, turns, j).talk.shown.step == t.shown.step && SameStart(Before(s, turns, j).talk, t)
  }

  /** The lift-off run was started in turn `k` and pressed, once, in turn `l`. */
  ghost predicate LiftedIn(s: State, turns: seq<(World, Event)>, k: nat, l: nat, t: Talk) {
    && k < l < |turns| && StartedIn(s, turns[..l], k, Before(s, turns, l).talk)
    && Lifted(Before(s, turns, l), turns[l].0, turns[l].1, Before(s, turns, l + 1).talk)
    && Before(s, turns, l).talk.instants.liftOff.None?
    && forall j :: l < j <= |turns| ==>
         Before(s, turns, j).talk.shown.step.LiftStop? && SameRun(Before(s, turns, j).talk, t)
  }

  /** What is known of the run on the screen of `t`, to which `turns` came from `s`. */
  ghost predicate Traced(s: State, turns: seq<(World, Event)>, t: Talk) {
    && (AtAReading(t.shown.step) ==> exists k: nat :: AimedIn(s, turns, k, t))
    && (IsPress(t.shown.step) ==> exists k: nat :: StartedIn(s, turns, k, t))
    && (t.shown.step.LiftStop? ==> exists k: nat, l: nat :: LiftedIn(s, turns, k, l, t))
    && (BeforeTheLift(t.shown.step) ==> t.instants.liftOff.None?)
  }

  /** The last moment of a run, and the ones before it. */
  lemma Moments(s: State, turns: seq<(World, Event)>)
    requires turns != []
    ensures var n := |turns| - 1;
            && Before(s, turns, |turns|) == Turn(Before(s, turns, n), turns[n].0, turns[n].1) == Run(s, turns)
            && forall k: nat :: k <= n ==> Before(s, turns[..n], k) == Before(s, turns, k)
  {
    hide Turn;
    var n := |turns| - 1;
    RunInOne(s, turns);
    assert turns[..|turns|] == turns;
    hide Run;
    forall k: nat | k <= n ensures Before(s, turns[..n], k) == Before(s, turns, k) {
      assert turns[..n][..k] == turns[..k];
    }
  }

  lemma AimGoesOn(s: State, turns: seq<(World, Event)>, k: nat, b: Talk, t: Talk)
    requires turns != [] && t == Before(s, turns, |turns|).talk && AtAReading(t.shown.step)
    requires var n := |turns| - 1; b == Before(s, turns, n).talk && SameAim(b, t) && AimedIn(s, turns[..n], k, b)
    ensures AimedIn(s, turns, k, t)
  {
    hide Before, Aimed, AtAReading;
    Moments(s, turns);
    var n := |turns| - 1;
    forall j | k < j <= |turns|
      ensures AtAReading(Before(s, turns, j).talk.shown.step) && SameAim(Before(s, turns, j).talk, t)
    {
      if j <= n { assert Before(s, turns[..n], j) == Before(s, turns, j); }
    }
    assert turns[..n][k] == turns[k];
    assert Before(s, turns[..n], k + 1) == Before(s, turns, k + 1);
  }

  lemma AimBegins(s: State, turns: seq<(World, Event)>, t: Talk)
    requires turns != [] && t == Before(s, turns, |turns|).talk && AtAReading(t.shown.step)
    requires var n := |turns| - 1; turns[n].1.Act? && Aimed(turns[n].0, t)
    ensures AimedIn(s, turns, |turns| - 1, t)
  {
    hide Before, Aimed, AtAReading;
  }

  lemma AimTraced(s: State, turns: seq<(World, Event)>, b: Talk, t: Talk)
    requires turns != [] && t == Before(s, turns, |turns|).talk && AtAReading(t.shown.step)
    requires var n := |turns| - 1;
             && b == Before(s, turns, n).talk
             && ((SameAim(b, t) && exists k: nat :: AimedIn(s, turns[..n], k, b))
                 || (turns[n].1.Act? && Aimed(turns[n].0, t)))
    ensures exists k: nat :: AimedIn(s, turns, k, t)
  {
    hide Before, Aimed, AtAReading, AimedIn, SameAim;
    var n := |turns| - 1;
    if turns[n].1.Act? && Aimed(turns[n].0, t) { AimBegins(s, turns, t); }
    else {
      var k: nat :| AimedIn(s, turns[..n], k, b);
      AimGoesOn(s, turns, k, b, t);
    }
  }

  lemma StartGoesOn(s: State, turns: seq<(World, Event)>, k: nat, b: Talk, t: Talk)
    requires turns != [] && t == Before(s, turns, |turns|).talk
    requires var n := |turns| - 1;
             && b == Before(s, turns, n).talk && b.shown.step == t.shown.step && SameStart(b, t)
             && StartedIn(s, turns[..n], k, b)
    ensures StartedIn(s, turns, k, t)
  {
    hide Before, Started, SameStart;
    SameStarts();
    Moments(s, turns);
    var n := |turns| - 1;
    forall j | k < j <= |turns|
      ensures Before(s, turns, j).talk.shown.step == t.shown.step && SameStart(Before(s, turns, j).talk, t)
    {
      if j <= n { assert Before(s, turns[..n], j) == Before(s, turns, j); }
    }
    assert turns[..n][k] == turns[k];
    assert Before(s, turns[..n], k) == Before(s, turns, k);
    assert Before(s, turns[..n], k + 1) == Before(s, turns, k + 1);
  }

  lemma SameStarts()
    ensures forall a, b, c {:trigger SameStart(a, b), SameStart(b, c)} ::
              SameStart(a, b) && SameStart(b, c) ==> SameStart(a, c)
    ensures forall a :: SameStart(a, a)
  {
  }

  lemma StartBegins(s: State, turns: seq<(World, Event)>, t: Talk)
    requires turns != [] && t == Before(s, turns, |turns|).talk
    requires var n := |turns| - 1; Started(Before(s, turns, n), turns[n].1, t)
    ensures StartedIn(s, turns, |turns| - 1, t)
  {
    hide Before, Started;
  }

  lemma StartTraced(s: State, turns: seq<(World, Event)>, b: Talk, t: Talk)
    requires turns != [] && t == Before(s, turns, |turns|).talk
    requires var n := |turns| - 1;
             && b == Before(s, turns, n).talk
             && ((b.shown.step == t.shown.step && SameStart(b, t) && exists k: nat :: StartedIn(s, turns[..n], k, b))
                 || Started(Before(s, turns, n), turns[n].1, t))
    ensures exists k: nat :: StartedIn(s, turns, k, t)
  {
    hide Before, Started, StartedIn, SameStart;
    var n := |turns| - 1;
    if Started(Before(s, turns, n), turns[n].1, t) { StartBegins(s, turns, t); }
    else {
      var k: nat :| StartedIn(s, turns[..n], k, b);
      StartGoesOn(s, turns, k, b, t);
    }
  }

  lemma LiftGoesOn(s: State, turns: seq<(World, Event)>, k: nat, l: nat, b: Talk, t: Talk)
    requires turns != [] && t == Before(s, turns, |turns|).talk && t.shown.step.LiftStop?
    requires var n := |turns| - 1;
             b == Before(s, turns, n).talk && SameRun(b, t) && LiftedIn(s, turns[..n], k, l, b)
    ensures LiftedIn(s, turns, k, l, t)
  {
    hide Before, Lifted, StartedIn, SameRun;
    Moments(s, turns);
    SameRuns();
    var n := |turns| - 1;
    forall j | l < j <= |turns|
      ensures Before(s, turns, j).talk.shown.step.LiftStop? && SameRun(Before(s, turns, j).talk, t)
    {
      if j <= n { assert Before(s, turns[..n], j) == Before(s, turns, j); }
    }
    assert turns[..n][..l] == turns[..l] && turns[..n][l] == turns[l];
    assert Before(s, turns[..n], l) == Before(s, turns, l);
    assert Before(s, turns[..n], l + 1) == Before(s, turns, l + 1);
  }

  lemma SameRuns()
    ensures forall a, b, c {:trigger SameRun(a, b), SameRun(b, c)} :: SameRun(a, b) && SameRun(b, c) ==> SameRun(a, c)
    ensures forall a :: SameRun(a, a)
  {
  }

  lemma LiftBegins(s: State, turns: seq<(World, Event)>, k: nat, t: Talk)
    requires turns != [] && t == Before(s, turns, |turns|).talk && t.shown.step.LiftStop?
    requires var n := |turns| - 1; var b := Before(s, turns, n);
             && Lifted(b, turns[n].0, turns[n].1, t) && b.talk.instants.liftOff.None?
             && StartedIn(s, turns[..n], k, b.talk)
    ensures LiftedIn(s, turns, k, |turns| - 1, t)
  {
    hide Before, Lifted, StartedIn;
    StartedBefore(s, turns[..|turns| - 1], k, Before(s, turns, |turns| - 1).talk);
  }

  lemma LiftTraced(s: State, turns: seq<(World, Event)>, b: Talk, t: Talk)
    requires turns != [] && t == Before(s, turns, |turns|).talk && t.shown.step.LiftStop?
    requires var n := |turns| - 1;
             && b == Before(s, turns, n).talk
             && ((SameRun(b, t) && exists k: nat, l: nat :: LiftedIn(s, turns[..n], k, l, b))
                 || (Lifted(Before(s, turns, n), turns[n].0, turns[n].1, t) && b.instants.liftOff.None?
                     && exists k: nat :: StartedIn(s, turns[..n], k, b)))
    ensures exists k: nat, l: nat :: LiftedIn(s, turns, k, l, t)
  {
    hide Before, Lifted, StartedIn, LiftedIn, SameRun;
    var n := |turns| - 1;
    if SameRun(b, t) && exists k: nat, l: nat :: LiftedIn(s, turns[..n], k, l, b) {
      var k: nat, l: nat :| LiftedIn(s, turns[..n], k, l, b);
      LiftGoesOn(s, turns, k, l, b, t);
    } else {
      var k: nat :| StartedIn(s, turns[..n], k, b);
      LiftBegins(s, turns, k, t);
    }
  }

  lemma StartedBefore(s: State, turns: seq<(World, Event)>, k: nat, t: Talk)
    requires StartedIn(s, turns, k, t)
    ensures k < |turns|
  {
    hide Before, Started;
  }

  /** What was known before the last turn, and what that turn does. */
  ghost predicate TracedSoFar(s: State, turns: seq<(World, Event)>) {
    && turns != []
    && var n := |turns| - 1; var b := Before(s, turns, n);
       Traced(s, turns[..n], b.talk) && Came(b, turns[n].0, turns[n].1, Before(s, turns, |turns|).talk)
  }

  lemma AimTurn(s: State, turns: seq<(World, Event)>)
    requires TracedSoFar(s, turns) && AtAReading(Before(s, turns, |turns|).talk.shown.step)
    ensures exists k: nat :: AimedIn(s, turns, k, Before(s, turns, |turns|).talk)
  {
    hide Before, AimedIn, StartedIn, LiftedIn, Aimed, Started, Lifted, AtAReading, SameAim, SameStart, BeforeTheLift;
    AimTraced(s, turns, Before(s, turns, |turns| - 1).talk, Before(s, turns, |turns|).talk);
  }

  lemma StartTurn(s: State, turns: seq<(World, Event)>)
    requires TracedSoFar(s, turns) && IsPress(Before(s, turns, |turns|).talk.shown.step)
    ensures exists k: nat :: StartedIn(s, turns, k, Before(s, turns, |turns|).talk)
  {
    hide Before, AimedIn, StartedIn, LiftedIn, Aimed, Started, Lifted, AtAReading, SameAim, SameStart, BeforeTheLift;
    StartTraced(s, turns, Before(s, turns, |turns| - 1).talk, Before(s, turns, |turns|).talk);
  }

  lemma LiftTurn(s: State, turns: seq<(World, Event)>)
    requires TracedSoFar(s, turns) && Before(s, turns, |turns|).talk.shown.step.LiftStop?
    ensures exists k: nat, l: nat :: LiftedIn(s, turns, k, l, Before(s, turns, |turns|).talk)
  {
    hide Before, AimedIn, StartedIn, LiftedIn, Aimed, Started, Lifted, AtAReading, SameAim, SameRun, BeforeTheLift;
    var n := |turns| - 1;
    var b, t := Before(s, turns, n), Before(s, turns, |turns|).talk;
    LiftIsBefore(b.talk.shown.step);
    if Lifted(b, turns[n].0, turns[n].1, t) { LiftedFrom(b, turns[n].0, turns[n].1, t); }
    LiftTraced(s, turns, b.talk, t);
  }

  lemma LiftIsBefore(step: Screen)
    ensures step.OpenLift? ==> BeforeTheLift(step) && IsPress(step)
  {
  }

  lemma LiftedFrom(s: State, w: World, e: Event, r: Talk)
    requires Lifted(s, w, e, r)
    ensures s.talk.shown.step.OpenLift?
  {
  }

  lemma TurnTraces(s: State, turns: seq<(World, Event)>)
    requires TracedSoFar(s, turns)
    ensures Traced(s, turns, Before(s, turns, |turns|).talk)
  {
    hide Before, AimedIn, StartedIn, LiftedIn, Aimed, Started, Lifted, AtAReading, SameAim, SameRun, SameStart, IsPress;
    var t := Before(s, turns, |turns|).talk;
    if AtAReading(t.shown.step) { AimTurn(s, turns); }
    if IsPress(t.shown.step) { StartTurn(s, turns); }
    if t.shown.step.LiftStop? { LiftTurn(s, turns); }
  }

  /** Over every run, from a session that shows none of it: whatever reading or timed run is on the screen, the turn
      that began it is known, and nothing of it has changed since. */
  lemma {:induction false} EveryRunIsTraced(s: State, turns: seq<(World, Event)>)
    requires Inv(s) && Plain(s.talk.shown.step) && !Run(s, turns).life.ended
    ensures Traced(s, turns, Run(s, turns).talk)
    decreases |turns|
  {
    if turns != [] {
      var n := |turns| - 1;
      var b := Run(s, turns[..n]);
      Moments(s, turns);
      RunKeeps(s, turns[..n]);
      hide Inv, Turn, Run, Came, Traced;
      if b.life.ended { LiveBefore(b, turns[n].0, turns[n].1); }
      EveryRunIsTraced(s, turns[..n]);
      TurnComes(b, turns[n].0, turns[n].1);
      TurnTraces(s, turns);
    }
  }

  lemma LifeIsTraced(w: World, client: string, path: Option<Route>, profile: Option<string>,
                     turns: seq<(World, Event)>)
    requires !LifeOf(w, client, path, profile, turns).life.ended
    ensures Traced(Born(w, client, path, profile), turns, LifeOf(w, client, path, profile, turns).talk)
  {
    BornKept(w, client, path, profile);
    BornIsPlain(w, client, path, profile);
    hide Born, Inv, Traced;
    EveryRunIsTraced(Born(w, client, path, profile), turns);
  }

  lemma BornIsPlain(w: World, client: string, path: Option<Route>, profile: Option<string>)
    ensures Plain(Born(w, client, path, profile).talk.shown.step)
  {
  }

  // ---------------------------------------------------------------- what they come to

  /** Over every run, a live job that is a run to a fraction is the run of the reading at the index: its own way, and
      its own part of its time. The part of path B's check is the one that spent half the travel, by what the
      world said in the turn that entered the check, and nothing of the check has changed since that turn. */
  lemma RunsGoWhereTheyAreAimed(w: World, client: string, path: Option<Route>, profile: Option<string>,
                                turns: seq<(World, Event)>, j: Job)
    requires LiveJob(LifeOf(w, client, path, profile, turns), j) && j.primitive.RunTo?
    ensures var t := LifeOf(w, client, path, profile, turns).talk;
            && OnPlan(t) && RunsFor(t.plan[t.index.value], (j.primitive.way, j.primitive.fraction))
            && exists k: nat ::
                 && AimedIn(Born(w, client, path, profile), turns, k, t)
                 && (t.plan[t.index.value].VerifyB? ==> turns[k].0.halfTravel == Some(j.primitive.fraction))
  {
    var s := LifeOf(w, client, path, profile, turns);
    LifeIsKept(w, client, path, profile, turns);
    LiveJobShows(s, j);
    AimOfTheJob(s, j);
    LifeIsTraced(w, client, path, profile, turns);
    hide LifeOf, Inv, JobFits, Born, Before, AtAReading;
    var k: nat :| AimedIn(Born(w, client, path, profile), turns, k, s.talk);
    assert SameAim(Before(Born(w, client, path, profile), turns, k + 1).talk, s.talk);
  }

  lemma AimOfTheJob(s: State, j: Job)
    requires Inv(s) && !s.life.ended && JobFits(s.talk, j) && j.primitive.RunTo?
    ensures OnPlan(s.talk) && AtAReading(s.talk.shown.step) && s.talk.aim.pending.Some?
    ensures s.talk.aim.pending.value == (j.primitive.way, j.primitive.fraction)
    ensures RunsFor(s.talk.plan[s.talk.index.value], s.talk.aim.pending.value)
  {
    hide PathKept, ReadingsKept, MovingKept, JobsKept, TasksKept, TrustKept, LifeKept, WellFormed, NothingToFit;
  }

  /** Over every run, a press accepted at an end stop times its run from the very start that the free run behind it
      came back with, on the same screen and at the same place of the plan. */
  lemma AcceptedPressIsItsRun(w: World, client: string, path: Option<Route>, profile: Option<string>,
                              turns: seq<(World, Event)>, w1: World, c: string, a: Action, v: Value)
    requires var s := LifeOf(w, client, path, profile, turns);
             && GuardAct(s, w1, c, s.life.revision, a).None? && (a.StoppedOpen? || a.StoppedClosed?)
             && !Turn(s, w1, Act(c, s.life.revision, a, v)).talk.shown.step.Problem?
    ensures var s := LifeOf(w, client, path, profile, turns);
            var m := Turn(s, w1, Act(c, s.life.revision, a, v)).talk.measured;
            var timing := if a.StoppedOpen? then m.opening else m.closing;
            exists k: nat ::
              && StartedIn(Born(w, client, path, profile), turns, k, s.talk)
              && s.talk.shown.step == (if a.StoppedOpen? then OpenTop else CloseBottom)
              && timing.Some? && timing.value.run == w1.now - turns[k].1.answer.first
  {
    hide LifeOf, Inv, Born, Before, GuardAct, Turn, StartedIn;
    var s := LifeOf(w, client, path, profile, turns);
    LifeIsKept(w, client, path, profile, turns);
    AcceptedPress(s, w1, c, a, v);
    LifeIsTraced(w, client, path, profile, turns);
    var k: nat :| StartedIn(Born(w, client, path, profile), turns, k, s.talk);
    StartedStart(Born(w, client, path, profile), turns, k, s.talk);
  }

  lemma AcceptedPress(s: State, w: World, client: string, a: Action, v: Value)
    requires Inv(s) && GuardAct(s, w, client, s.life.revision, a).None? && (a.StoppedOpen? || a.StoppedClosed?)
    requires !Turn(s, w, Act(client, s.life.revision, a, v)).talk.shown.step.Problem?
    ensures var m := Turn(s, w, Act(client, s.life.revision, a, v)).talk.measured;
            var timing := if a.StoppedOpen? then m.opening else m.closing;
            && !s.life.ended && s.talk.shown.step == (if a.StoppedOpen? then OpenTop else CloseBottom)
            && timing.Some? && s.talk.instants.motorStart == Some(w.now - timing.value.run)
  {
    hide Inv, Turn, GuardAct, Offered, Pressed;
    GuardsMean(s, w, client, a);
    RunScreens(s.talk, w, a);
    PressAtTheEndStop(s, w, client, a, v);
    PressedRun(s, w, Turn(s, w, Act(client, s.life.revision, a, v)), if a.StoppedOpen? then Open else Close);
  }

  lemma PressedRun(s: State, w: World, r: State, d: Direction)
    requires Pressed(s, w, r, d) && !r.talk.shown.step.Problem?
    ensures var timing := if d.Open? then r.talk.measured.opening else r.talk.measured.closing;
            timing.Some? && s.talk.instants.motorStart == Some(w.now - timing.value.run)
  {
  }

  lemma StartedStart(s: State, turns: seq<(World, Event)>, k: nat, t: Talk)
    requires StartedIn(s, turns, k, t)
    ensures k < |turns| && turns[k].1.TaskTurn? && turns[k].1.answer.Done?
    ensures t.instants.motorStart == Some(turns[k].1.answer.first)
  {
    hide Before;
    assert SameStart(Before(s, turns, k + 1).talk, t);
  }

  /** Over every run, the stop of the lift-off run leaves as the slat phase the time from the start its run came back
      with to the one press that got through; as the lift-off run the time from there to where the motor stopped;
      and it is late exactly when its delivery came more than a second after that press. */
  lemma LiftIsTimedByItsPress(w: World, client: string, path: Option<Route>, profile: Option<string>,
                              turns: seq<(World, Event)>, w1: World, which: nat, answer: Answer)
    requires var s := LifeOf(w, client, path, profile, turns);
             && which < |s.engine.tasks| && s.engine.tasks[which].Driving? && answer.Done?
             && !Overtaken(s, s.engine.tasks[which].job) && s.engine.tasks[which].job.primitive.StopLift?
    ensures var s := LifeOf(w, client, path, profile, turns);
            var r := Turn(s, w1, TaskTurn(which, answer)).talk;
            exists k: nat, l: nat ::
              && LiftedIn(Born(w, client, path, profile), turns, k, l, s.talk)
              && var start, pressed := turns[k].1.answer.first, turns[l].0.now;
                 if pressed < start then r.shown.step.Problem? && r.measured == s.talk.measured
                 else
                   && r.measured.slatSeconds == Some(pressed - start)
                   && r.measured.liftRun == Some(answer.second - start)
                   && (r.measured.liftLate <==> answer.first - pressed > 1.0)
                   && r.shown.step == (if answer.first - pressed > 1.0 then LiftCheckLate else LiftCheck)
  {
    hide LifeOf, Inv, Born, Turn, LiftedIn, HandsOver;
    var s := LifeOf(w, client, path, profile, turns);
    LifeIsKept(w, client, path, profile, turns);
    LiftJob(s, which);
    LifeIsTraced(w, client, path, profile, turns);
    var k: nat, l: nat :| LiftedIn(Born(w, client, path, profile), turns, k, l, s.talk);
    LiftedInstants(Born(w, client, path, profile), turns, k, l, s.talk);
    LiftStopped(s, w1, which, answer, turns[k].1.answer.first, turns[l].0.now);
  }

  lemma LiftStopped(s: State, w: World, which: nat, answer: Answer, start: real, pressed: real)
    requires Inv(s) && which < |s.engine.tasks| && s.engine.tasks[which].Driving? && answer.Done?
    requires !Overtaken(s, s.engine.tasks[which].job) && s.engine.tasks[which].job.primitive.StopLift?
    requires s.talk.instants.motorStart == Some(start) && s.talk.instants.liftOff == Some(pressed)
    ensures var r := Turn(s, w, TaskTurn(which, answer)).talk;
            if pressed < start then r.shown.step.Problem? && r.measured == s.talk.measured
            else
              && r.measured.slatSeconds == Some(pressed - start)
              && r.measured.liftRun == Some(answer.second - start)
              && (r.measured.liftLate <==> answer.first - pressed > 1.0)
              && r.shown.step == (if answer.first - pressed > 1.0 then LiftCheckLate else LiftCheck)
  {
    hide Inv, Turn;
    LiftJob(s, which);
    JobComesBack(s, w, which, answer);
  }

  lemma LiftJob(s: State, which: nat)
    requires Inv(s) && which < |s.engine.tasks| && s.engine.tasks[which].Driving?
    requires !Overtaken(s, s.engine.tasks[which].job) && s.engine.tasks[which].job.primitive.StopLift?
    ensures !s.life.ended && s.talk.shown.step.LiftStop? && s.engine.tasks[which].job.next.ToTheLift?
  {
    TaskNext(s, which);
    hide Inv;
  }

  lemma LiftedInstants(s: State, turns: seq<(World, Event)>, k: nat, l: nat, t: Talk)
    requires LiftedIn(s, turns, k, l, t)
    ensures k < l < |turns| && turns[k].1.TaskTurn? && turns[k].1.answer.Done?
    ensures t.instants.motorStart == Some(turns[k].1.answer.first) && t.instants.liftOff == Some(turns[l].0.now)
  {
    hide Before;
    assert SameRun(Before(s, turns, l + 1).talk, t);
    assert SameStart(Before(s, turns[..l], k + 1).talk, Before(s, turns, l).talk);
  }
}
