/** What each act leads to: the stage it enters and on which plan, the screen it shows, and what it stores. */
module Acts {
  import opened Wrappers
  import opened Plans
  import opened Screens
  import opened Session
  import opened SessionInvariant
  import opened SessionProof
  import opened SessionEffects
  import opened Revisions
  import opened Safety
  import opened Steps
  import opened Readings

  // ---------------------------------------------------------------- entering a stage

  /** The screen of a stage that opens with no homing, or cannot. */
  function OwnScreen(t: Talk, w: World, stage: Stage): Screen {
    match stage
    case TapeBrief => TapeBriefing
    case VerifyOffer => VerifyOffering
    case ProfileName => NameForm
    case Summary =>
      if w.summary.None? then Problem(BadPoint)
      else if t.measured.precise then Summing(Precise)
      else if t.choice.path == Some(First) then Summing(Basic)
      else if t.choice.path == Some(Refine) then Summing(Correction)
      else Summing(Short)
    case _ => Problem(BadPoint)
  }

  /** What is still measured once a stage is entered: a new ascent forgets its lift-off, and a travel to be read with
      the shutter stopped first forgets the one there was. */
  function StillMeasured(t: Talk, stage: Stage): Measured {
    if stage.OpenTimed? then t.measured.(slatSeconds := None, liftRun := None, liftGap := None, liftLate := false)
    else if stage.HeightRead? && t.stopFirst then t.measured.(height := None, heightMeasured := false)
    else t.measured
  }

  predicate OpensWithAHoming(w: World, stage: Stage) { HomesFirst(stage) && (stage.VerifyB? ==> w.halfTravel.Some?) }

  /** The stage that `t` points at has been entered from `s`. */
  ghost predicate Enters(s: State, w: World, t: Talk, r: State) {
    && OnPlan(t)
    && var stage := t.plan[t.index.value];
       && r.talk.index == t.index && r.talk.choice == t.choice && r.talk.stopFirst == t.stopFirst
       && r.talk.plan == (if stage.TapeBrief? then Reordered(t.plan, t.index.value + 1, s.place.at) else t.plan)
       && r.talk.measured == StillMeasured(t, stage) && r.talk.report.None? && r.talk.error.None?
       && (r.talk.review.Some? <==> r.talk.shown.step.Summing?)
       && (if OpensWithAHoming(w, stage) then Opened(s, w, r, stage, t.homeAnyway)
           else r.talk.shown.step == OwnScreen(t, w, stage) && r.place == s.place && r.engine == s.engine)
  }

  /** What a movement or a screen leaves of a conversation. */
  predicate Keeps(t: Talk, r: Talk) {
    && r.plan == t.plan && r.index == t.index && r.choice == t.choice && r.measured == t.measured
    && r.stopFirst == t.stopFirst && r.report == t.report && r.error == t.error && r.review == t.review
  }

  lemma MovementKeeps(s: State, w: World, step: Screen, kind: Kind, direction: Direction,
                      p: Primitive, next: Next, notice: Option<Notice>)
    ensures var r := BeginMovement(s, w, step, kind, direction, p, next, notice).talk;
            Keeps(s.talk, r) && r.shown.step == step
  {
  }

  lemma HomingKeeps(s: State, w: World, step: Screen, d: Direction, next: Next)
    requires !next.ToTheLift? && !step.Summing? && (next.ToScreen? ==> !next.screen.Summing?)
    ensures var r := BeginHoming(s, w, step, d, next).talk; Keeps(s.talk, r) && !r.shown.step.Summing?
  {
    hide BeginMovement, Goto;
    MovementKeeps(s.(talk := s.talk.(homeAnyway := false)), w, step, Homing, d, Home(d), next, None);
    SkippedKeeps(Rested(s), w, next);
  }

  lemma SkippedKeeps(s: State, w: World, next: Next)
    requires !next.ToTheLift? && (next.ToScreen? ==> !next.screen.Summing?)
    ensures var r := Goto(s, w, next, None).talk; Keeps(s.talk, r) && !r.shown.step.Summing?
  {
    hide BeginMovement, Show, ShowWith;
    if next.ToScreen? { ScreenKeeps(s, w, next.screen); }
    else {
      var (way, fraction) := s.talk.aim.pending.GetOr((Close, 0.5));
      MovementKeeps(s, w, TapeRun, Fraction, way, RunTo(way, fraction), ToScreen(s.talk.aim.form), None);
    }
  }

  lemma ScreenKeeps(s: State, w: World, step: Screen)
    ensures var r := ShowWith(s, w, step, None, None).talk; Keeps(s.talk, r) && r.shown.step == step
    ensures forall kind :: var r := Show(ArmPress(s, w, kind), w, step).talk; Keeps(s.talk, r) && r.shown.step == step
  {
  }

  lemma ScreenEnters(s: State, w: World, step: Screen)
    ensures var r := Show(s, w, step);
            Keeps(s.talk, r.talk) && r.talk.shown.step == step && r.place == s.place && r.engine == s.engine
  {
  }

  lemma ProblemEnters(s: State, w: World)
    ensures var r := ShowProblem(s, w, BadPoint);
            && Keeps(s.talk, r.talk) && r.talk.shown.step == Problem(BadPoint)
            && r.place == s.place && r.engine == s.engine
  {
  }

  lemma ReadingEnters(s: State, w: World, stage: Stage, fraction: real)
    ensures var r := FractionStage(s, w, stage, fraction).talk; Keeps(s.talk, r) && !r.shown.step.Summing?
  {
    hide BeginHoming;
    var d := RunDirection(stage);
    var aim := Aim(None, Some((d, fraction)), stage == VerifyB, FormAfter(stage));
    HomingKeeps(s.(talk := s.talk.(aim := aim, check := None)), w, Positioning(stage), OtherEnd(d), ToTheRun);
  }

  lemma HomedEnters(s: State, w: World, stage: Stage)
    requires HomesFirst(stage) && (stage.VerifyB? ==> w.halfTravel.Some?)
    ensures var r := EnterStage(s, w, stage).talk;
            Keeps(s.talk.(measured := StillMeasured(s.talk, stage)), r) && !r.shown.step.Summing?
  {
    hide BeginHoming, FractionStage;
    match stage
    case HomeClosed => HomingKeeps(s, w, Positioning(HomeClosed), Close, ToScreen(HomeClosedDone));
    case OpenTimed =>
      HomingKeeps(s.(talk := WithoutTheAscent(s.talk)), w, Positioning(OpenTimed), Close, ToScreen(OpenBrief));
    case HeightRead =>
      HomingKeeps(if s.talk.stopFirst then s.(talk := s.talk.(measured := WithoutTheTravel(s.talk.measured))) else s,
                  w, Positioning(HeightRead), Open, ToScreen(HeightForm));
    case CloseTimed => HomingKeeps(s, w, Positioning(CloseTimed), Open, ToScreen(CloseBrief));
    case VerifyB => ReadingEnters(s, w, VerifyB, w.halfTravel.value);
    case _ => ReadingEnters(s, w, stage, FractionOf(stage));
  }

  lemma OwnEnters(s: State, w: World, stage: Stage)
    requires OnPlan(s.talk) && s.talk.plan[s.talk.index.value] == stage && !OpensWithAHoming(w, stage)
    requires s.talk.review.None?
    ensures var r := EnterStage(s, w, stage);
            && Keeps(s.talk.(review := r.talk.review,
                             plan := if stage.TapeBrief? then Reordered(s.talk.plan, s.talk.index.value + 1, s.place.at)
                                     else s.talk.plan), r.talk)
            && (r.talk.review.Some? <==> r.talk.shown.step.Summing?)
            && r.talk.shown.step == OwnScreen(s.talk, w, stage) && r.place == s.place && r.engine == s.engine
  {
    hide Show, ShowProblem, Reordered, VariantOf;
    match stage
    case TapeBrief => BriefingEnters(s, w); hide EnterStage;
    case VerifyOffer => ScreenEnters(s, w, VerifyOffering);
    case ProfileName => ScreenEnters(s, w, NameForm);
    case Summary => SummaryEnters(s, w); hide EnterStage;
    case VerifyB => ProblemEnters(s, w);
  }

  lemma BriefingEnters(s: State, w: World)
    requires OnPlan(s.talk)
    ensures var r := EnterStage(s, w, TapeBrief);
            && Keeps(s.talk.(plan := Reordered(s.talk.plan, s.talk.index.value + 1, s.place.at)), r.talk)
            && r.talk.shown.step == TapeBriefing && r.place == s.place && r.engine == s.engine
  {
    hide Show, Reordered;
    ScreenEnters(s.(talk := s.talk.(plan := Reordered(s.talk.plan, Index(s.talk) + 1, s.place.at))), w, TapeBriefing);
  }

  lemma SummaryEnters(s: State, w: World)
    requires s.talk.review.None?
    ensures var r := EnterStage(s, w, Summary);
            && Keeps(s.talk.(review := r.talk.review), r.talk)
            && (r.talk.review.Some? <==> r.talk.shown.step.Summing?)
            && r.talk.shown.step == OwnScreen(s.talk, w, Summary) && r.place == s.place && r.engine == s.engine
  {
    hide Show, ShowProblem;
    ProblemEnters(s, w);
    if w.summary.Some? {
      var variant := VariantOf(s.talk);
      ScreenEnters(s.(talk := s.talk.(review := Some(Card(variant, w.summary.value)))), w, Summing(variant));
    }
  }

  /** Entering any stage, wherever the conversation came from. */
  lemma StageIsEntered(s: State, w: World, talk: Talk)
    requires NoLiveJob(s.engine) && OnPlan(talk)
    ensures Enters(s, w, talk, EnterWith(s, w, talk))
  {
    hide NoLiveJob, Opened, EnterStage, Reordered;
    var stage := talk.plan[talk.index.value];
    var s1 := s.(talk := talk.(error := None, report := None, review := None));
    if OpensWithAHoming(w, stage) {
      StageOpens(s, w, talk);
      HomedEnters(s1, w, stage);
    } else {
      OwnEnters(s1, w, stage);
    }
  }

  predicate IsOfTheTape(stage: Stage) { (IsReading(stage) && !stage.VerifyB?) || stage.HeightRead? }

  /** The stages that a briefing deals out again are the ones of the tape right behind it, up to the first that is
      none, from where the shutter is then; everything before and after them stands. */
  lemma BriefingDealsTheTape(plan: seq<Stage>, start: nat, at: Option<Direction>, n: nat)
    requires start + n <= |plan| && forall i :: start <= i < start + n ==> IsOfTheTape(plan[i])
    requires start + n < |plan| ==> !IsOfTheTape(plan[start + n])
    ensures Reordered(plan, start, at) == plan[..start] + OrderOf(plan[start..start + n], at) + plan[start + n..]
  {
    PhaseIs(plan, start, n);
    assert plan == plan[..start] + plan[start..];
    if n == 0 { assert OrderOf([], at) == []; }
  }

  lemma {:induction false} PhaseIs(plan: seq<Stage>, start: nat, n: nat)
    requires start + n <= |plan| && forall i :: start <= i < start + n ==> IsOfTheTape(plan[i])
    requires start + n < |plan| ==> !IsOfTheTape(plan[start + n])
    ensures TapePhase(plan, start) == plan[start..start + n]
    decreases n
  {
    if n > 0 { PhaseIs(plan, start + 1, n - 1); }
  }

  // ---------------------------------------------------------------- walking the plan

  /** Where an act that walks the plan points the conversation: on to the next stage, path B's check first where it is
      asked for, or at the same stage again, with the readings of the stages before it and no more. `homes` says
      that the shutter is homed wherever it is, `stops` that a stop goes out before. */
  predicate Pointed(t: Talk, a: Action, t1: Talk)
    requires OnPlan(t)
  {
    var i := t.index.value;
    var m := t1.measured;
    && t1.choice == t.choice
    && t1.plan == (if a.VerifyNow? then t.plan[..i + 1] + [VerifyB] + t.plan[i + 1..] else t.plan)
    && t1.index == Some(if a.RepeatStep? || a.NotRight? || a.LiftTooEarly? || a.RepeatTape? || a.TapeNotRight? then i
                        else i + 1)
    && t1.homeAnyway == (t.homeAnyway || a.RepeatStep? || a.NotRight? || a.TapeNotRight?)
    && t1.stopFirst == (t.stopFirst || a.NotRight? || a.TapeNotRight?)
    && m == t.measured.(descent := m.descent, ascent := m.ascent)
    && m.descent <= t.measured.descent && m.ascent <= t.measured.ascent
    && |m.descent| == Fitted(t.plan, Close, i) + (if t1.index.value > i then Extra(t, Close) else 0)
    && |m.ascent| == Fitted(t.plan, Open, i) + (if t1.index.value > i then Extra(t, Open) else 0)
  }

  function PointedAt(t: Talk, a: Action): Talk
    requires OnPlan(t)
  {
    var i := t.index.value;
    match a
    case VerifyNow => t.(plan := Grafted(t.plan, i), index := Some(i + 1))
    case RepeatStep => t.(homeAnyway := true)
    case NotRight => t.(stopFirst := true, homeAnyway := true)
    case LiftTooEarly => t
    case RepeatTape => WithoutTheReading(t)
    case TapeNotRight => WithoutTheReading(t).(stopFirst := true, homeAnyway := true)
    case _ => t.(index := Some(i + 1))
  }

  lemma DoEntersThere(s: State, w: World, a: Action)
    requires OnPlan(s.talk) && WalksThePlan(a)
    ensures Do(s, w, a) == EnterWith(s, w, PointedAt(s.talk, a))
  {
    hide Enter, WithoutTheReading, Grafted;
  }

  lemma PointsThere(t: Talk, w: World, a: Action)
    requires TalkKept(t) && Offered(t, w, a) && WalksThePlan(a) && (t.shown.step.Problem? ==> OnPlan(t))
    ensures OnPlan(t) && OnPlan(PointedAt(t, a)) && Pointed(t, a, PointedAt(t, a))
  {
    hide TalkKept, Pointed, PointedAt, Offered, OnPlan;
    WalkScreens(t, w, a);
    if a.RepeatTape? || a.TapeNotRight? { TapePoints(t, a); }
    else if a.RepeatStep? || a.NotRight? || a.LiftTooEarly? { AgainPoints(t, a); }
    else { OnwardPoints(t, a); }
  }

  lemma TapePoints(t: Talk, a: Action)
    requires TalkKept(t) && (a.RepeatTape? || a.TapeNotRight?)
    requires t.shown.step.TapeResult? || t.shown.step.VerifyResult? || IsTapeForm(t.shown.step)
    ensures OnPlan(t) && OnPlan(PointedAt(t, a)) && Pointed(t, a, PointedAt(t, a))
  {
    hide TalkKept, Fitted, WithoutTheReading, Extra;
    TapeAgainScreen(t);
    ReadingTakenBack(t);
    OnlyReadingsTakenBack(t);
    SameReadings(t);
  }

  lemma OnlyReadingsTakenBack(t: Talk)
    ensures var m := WithoutTheReading(t).measured; m == t.measured.(descent := m.descent, ascent := m.ascent)
  {
    hide WithoutLast;
    var m := t.measured;
    if t.aim.tapeTarget == Some(Close) {
      assert WithoutTheReading(t).measured == m.(descent := WithoutLast(m.descent));
    } else if t.aim.tapeTarget == Some(Open) {
      assert WithoutTheReading(t).measured == m.(ascent := WithoutLast(m.ascent));
    } else {
      assert WithoutTheReading(t) == t;
    }
  }

  lemma AgainPoints(t: Talk, a: Action)
    requires TalkKept(t) && Offers(t.shown.step, a) && (a.RepeatStep? || a.NotRight? || a.LiftTooEarly?)
    requires t.shown.step.Problem? ==> OnPlan(t)
    ensures OnPlan(t) && OnPlan(PointedAt(t, a)) && Pointed(t, a, PointedAt(t, a))
  {
    hide TalkKept, Fitted, Extra;
    AgainScreen(t, a);
    SameReadings(t);
    NoExtra(t);
  }

  lemma OnwardPoints(t: Talk, a: Action)
    requires TalkKept(t) && Offers(t.shown.step, a) && (a.VerifyNow? ==> t.shown.step.VerifyOffering?)
    requires a.ConfirmClosed? || a.AcceptStep? || a.StartTape? || a.SkipVerify? || a.VerifyNow?
    ensures OnPlan(t) && OnPlan(PointedAt(t, a)) && Pointed(t, a, PointedAt(t, a))
  {
    hide TalkKept, Fitted, Extra;
    AcceptScreen(t, a);
    NotTheLast(t);
    SameReadings(t);
  }

  lemma SameReadings(t: Talk)
    requires OnPlan(t) && TalkKept(t)
    ensures |t.measured.descent| - Extra(t, Close) == Fitted(t.plan, Close, t.index.value)
    ensures |t.measured.ascent| - Extra(t, Open) == Fitted(t.plan, Open, t.index.value)
  {
    hide Fitted, PlanKept, PathKept, AimKept, Extra;
  }

  lemma NoExtra(t: Talk)
    requires !t.shown.step.TapeResult?
    ensures Extra(t, Close) == Extra(t, Open) == 0
  {
  }

  lemma NotTheLast(t: Talk)
    requires TalkKept(t) && OnPlan(t) && !t.plan[t.index.value].Summary?
    ensures t.index.value + 1 < |t.plan|
  {
    hide PathKept, ReadingsKept, AimKept;
  }

  /** Every act that walks the plan enters exactly the stage it points at. */
  lemma WalkingActs(s: State, w: World, client: string, a: Action, v: Value)
    requires Inv(s) && GuardAct(s, w, client, s.life.revision, a).None? && WalksThePlan(a)
    ensures OnPlan(s.talk)
    ensures exists t1 :: Pointed(s.talk, a, t1)
                         && Enters(s, w, t1, Turn(s, w, Act(client, s.life.revision, a, v)))
  {
    hide Inv, GuardAct, Turn, Do, EnterWith, Enters, Pointed, PointedAt, Offered, OnPlan;
    GuardsMean(s, w, client, a);
    WalkersPoint(s, w, a);
    var t1 := PointedAt(s.talk, a);
    ActDoes(s, w, client, a, v);
    var s1 := Taken(s, w, client);
    DoEntersThere(s1, w, a);
    StageIsEntered(s1, w, t1);
    QueueIsPumped(s);
    EntersFrom(s, s1, w, t1, EnterWith(s1, w, t1), Turn(s, w, Act(client, s.life.revision, a, v)));
  }

  lemma WalkersPoint(s: State, w: World, a: Action)
    requires Inv(s) && !s.life.ended && Offered(s.talk, w, a) && WalksThePlan(a)
    ensures OnPlan(s.talk) && OnPlan(PointedAt(s.talk, a)) && Pointed(s.talk, a, PointedAt(s.talk, a))
    ensures NoLiveJob(s.engine)
  {
    hide Inv, Settled, Idle, TalkKept, Offered, Pointed, PointedAt, OnPlan;
    LiveIsSettled(s);
    SettledTalk(s);
    OfferedIsIdle(s, w, a);
    IdleIsQuiet(s);
    if s.talk.shown.step.Problem? { ProblemIsOnPlan(s.talk); }
    PointsThere(s.talk, w, a);
  }

  /** An act that is no form is done, and its queue handed to the pump. */
  lemma ActDoes(s: State, w: World, client: string, a: Action, v: Value)
    requires GuardAct(s, w, client, s.life.revision, a).None? && !a.Submit?
    ensures var s1 := Taken(s, w, client);
            && s1.talk == s.talk && s1.engine == s.engine && s1.place == s.place
            && Turn(s, w, Act(client, s.life.revision, a, v)) == Pump(Do(s1, w, a))
  {
    hide GuardAct, Taken, Do, Pump;
    TakenCounts(s, w, client);
  }

  lemma EntersFrom(s: State, s1: State, w: World, t1: Talk, c: State, r: State)
    requires Enters(s1, w, t1, c) && r == Pump(c) && (s.engine.queued.Some? ==> s.engine.pumping)
    requires s1.talk == s.talk && s1.engine == s.engine && s1.place == s.place
    ensures Enters(s, w, t1, r)
  {
  }

  // ---------------------------------------------------------------- beginning a plan

  /** The thorough plan, with the travel read first where it is not known. */
  function ThoroughPlan(m: Measured): seq<Stage> {
    [TapeBrief] + (if m.height.GetOr(0.0) != 0.0 then [] else [HeightRead])
    + [QuarterDown, ThreeQuarterDown, QuarterUp, ThreeQuarterUp, Verify, Summary]
  }

  /** The plan each choice begins, what it keeps of what was measured, and what it says was chosen. Adopting takes
      the times in use for measured ones, opening for opening and closing for closing. */
  predicate Begun(t: Talk, w: World, a: Action, t1: Talk) {
    && t1.homeAnyway == t.homeAnyway && t1.stopFirst == t.stopFirst
    && match a
       case Begin =>
         && t1.choice == t.choice.(path := Some(First)) && t1.measured == NOTHING_MEASURED && t1.index == Some(0)
         && t1.plan == [HomeClosed, OpenTimed, HeightRead, CloseTimed, TapeBrief, HalfDown, HalfUp, ProfileName,
                        Summary]
       case DoTimesOnly =>
         && t1.choice == t.choice.(scope := Some(TimesOnly)) && t1.measured == t.measured && t1.index == Some(0)
         && t1.plan == [HomeClosed, OpenTimed, CloseTimed, Summary]
       case DoTimesAndRolls =>
         && t1.choice == t.choice.(scope := Some(TimesAndRolls)) && t1.measured == t.measured && t1.index == Some(0)
         && t1.plan == [HomeClosed, OpenTimed, HeightRead, CloseTimed, TapeBrief, HalfDown, HalfUp, Summary]
       case DoPointsOnly =>
         && w.inUse.Some? && t1.choice == t.choice.(scope := Some(PointsOnly)) && t1.index == Some(0)
         && t1.measured == t.measured.(opening := Some(Timing(Some(w.inUse.value.slat), w.inUse.value.opening)),
                                       closing := Some(Timing(None, w.inUse.value.closing)),
                                       timesAdopted := true, precise := true)
         && t1.plan == ThoroughPlan(t.measured)
       case GoThorough =>
         && OnPlan(t) && t1.choice == t.choice && t1.index == t.index
         && t1.measured == t.measured.(precise := true)
         && t1.plan == t.plan[..t.index.value] + ThoroughPlan(t.measured)
       case _ => false
  }

  function BegunWith(t: Talk, w: World, a: Action): Talk {
    match a
    case Begin => Chose(t, First).(measured := NOTHING_MEASURED, plan := PLAN_FULL, index := Some(0))
    case DoTimesOnly => Scoped(t, TimesOnly).(plan := PLAN_TIMES, index := Some(0))
    case DoTimesAndRolls => Scoped(t, TimesAndRolls).(plan := PLAN_TIMES_AND_ROLLS, index := Some(0))
    case DoPointsOnly =>
      var u := w.inUse.GetOr(InUse(0.0, 0.0, 0.0));
      Scoped(t, PointsOnly).(measured := t.measured.(opening := Some(Timing(Some(u.slat), u.opening)),
                                                     closing := Some(Timing(None, u.closing)),
                                                     timesAdopted := true, precise := true),
                             plan := ThoroughPlan(t.measured), index := Some(0))
    case _ =>
      t.(measured := t.measured.(precise := true),
         plan := t.plan[..Least(Index(t), |t.plan|)] + ThoroughPlan(t.measured))
  }

  lemma ThoroughIs(m: Measured)
    ensures ThoroughPlan(m) == if HeightKnown(m) then PLAN_PRECISE else PLAN_PRECISE_TRAVEL
  {
  }

  lemma DoBegins(s: State, w: World, a: Action)
    requires a.Begin? || a.DoTimesOnly? || a.DoTimesAndRolls? || a.DoPointsOnly? || a.GoThorough?
    requires !EndsTheSession(w, a)
    ensures Do(s, w, a) == EnterWith(s, w, BegunWith(s.talk, w, a))
  {
    hide Enter, Least;
    ThoroughIs(s.talk.measured);
    hide ThoroughPlan;
  }

  lemma BeginsThere(t: Talk, w: World, a: Action)
    requires TalkKept(t) && Offered(t, w, a) && !EndsTheSession(w, a)
    requires a.Begin? || a.DoTimesOnly? || a.DoTimesAndRolls? || a.DoPointsOnly? || a.GoThorough?
    ensures OnPlan(BegunWith(t, w, a)) && Begun(t, w, a, BegunWith(t, w, a))
  {
    hide TalkKept, Offered;
    PlanScreens(t, w, a);
    if a.GoThorough? { SummingIsOnPlan(t); }
  }

  lemma SummingIsOnPlan(t: Talk)
    requires TalkKept(t) && t.shown.step.Summing?
    ensures OnPlan(t)
  {
    hide PathKept, ReadingsKept, AimKept, WellFormed;
  }

  /** Every choice that begins a plan enters its first stage, or for the thorough one the stage in the place of the
      summary; but for the times of a cover that is gone, which `EndedBy` speaks of. */
  lemma BeginningActs(s: State, w: World, client: string, a: Action, v: Value)
    requires Inv(s) && GuardAct(s, w, client, s.life.revision, a).None? && !EndsTheSession(w, a)
    requires a.Begin? || a.DoTimesOnly? || a.DoTimesAndRolls? || a.DoPointsOnly? || a.GoThorough?
    ensures exists t1 :: Begun(s.talk, w, a, t1)
                         && Enters(s, w, t1, Turn(s, w, Act(client, s.life.revision, a, v)))
  {
    hide Inv, GuardAct, Turn, Do, EnterWith, Enters, Begun, BegunWith, Offered, OnPlan, TalkKept, Settled, Idle;
    GuardsMean(s, w, client, a);
    LiveIsSettled(s);
    SettledTalk(s);
    OfferedIsIdle(s, w, a);
    IdleIsQuiet(s);
    BeginsThere(s.talk, w, a);
    var t1 := BegunWith(s.talk, w, a);
    ActDoes(s, w, client, a, v);
    var s1 := Taken(s, w, client);
    DoBegins(s1, w, a);
    StageIsEntered(s1, w, t1);
    QueueIsPumped(s);
    EntersFrom(s, s1, w, t1, EnterWith(s1, w, t1), Turn(s, w, Act(client, s.life.revision, a, v)));
  }

  // ---------------------------------------------------------------- the other acts

  /** A screen is put up over `t`, and nothing else of the conversation or of what is under way changes. */
  predicate Shows(s: State, t: Talk, step: Screen, r: State) {
    r.talk == t.(shown := Shown(step, None, None, None)) && r.engine == s.engine && r.place == s.place
  }

  /** The lift-off run is over and its next half is due: the shutter is closed again, by a homing unless it is known
      to be closed already. */
  ghost predicate ClosesAgain(s: State, m: Measured, r: State) {
    && r.talk.measured == m && r.talk.plan == s.talk.plan && r.talk.index == s.talk.index && r.place == s.place
    && !r.talk.homeAnyway && !r.talk.externalMove
    && if s.place.at != Some(Close) || s.talk.homeAnyway then
         && r.talk.shown.step.OpenHomeAgain? && r.engine.pumping
         && r.engine.queued == Some(Job(Home(Close), ToScreen(ClosedAgain), None, s.engine.generation))
       else r.talk.shown.step.ClosedAgain? && r.engine.queued == s.engine.queued && r.engine.movement.None?
  }

  /** The press of the lift-off, in time, orders the stop and is the instant of it unless one was; too late, it is a
      problem over the run. */
  predicate LiftPressed(s: State, w: World, r: State) {
    var late := s.talk.instants.shownAt.Some? && w.now - s.talk.instants.shownAt.value > 90.0;
    && r.talk.measured == s.talk.measured && r.talk.instants.motorStart == s.talk.instants.motorStart
    && r.place == s.place
    && if late then
         r.talk.shown.step == Problem(Timeout) && r.engine == s.engine && r.talk.instants == s.talk.instants
       else
         && r.talk.shown.step.LiftStop? && r.engine.press.None? && r.engine.pressTimer.None? && r.engine.pumping
         && r.engine.queued == Some(Job(StopLift, ToTheLift, None, s.engine.generation))
         && r.talk.instants.liftOff == Some(s.talk.instants.liftOff.GetOr(w.now))
  }

  /** What the acts that neither begin nor walk a plan, and start or stop no timed run, come to. */
  ghost predicate Acted(s: State, w: World, a: Action, r: State) {
    var t := s.talk;
    match a
    case ChooseFirst => Shows(s, t.(choice := t.choice.(path := Some(First))), PathAWarning, r)
    case ChooseProfile => Shows(s, t.(choice := t.choice.(path := Some(Profile))), PathBForm, r)
    case ChooseRefine => Shows(s, t.(choice := t.choice.(path := Some(Refine)), check := None), PathCForm, r)
    case ConfirmClosedAgain => Shows(s, t, OpenFullBrief, r)
    case LiftByTape => Shows(s, t, LiftGap, r)
    case RepeatMeasure =>
      Shows(s, t.(measured := t.measured.(height := None, heightMeasured := false)), HeightForm, r)
    case LiftAccept => ClosesAgain(s, t.measured, r)
    case LiftedOff => LiftPressed(s, w, r)
    case _ => false
  }

  predicate IsOther(a: Action) {
    a.ChooseFirst? || a.ChooseProfile? || a.ChooseRefine? || a.ConfirmClosedAgain? || a.LiftByTape? || a.RepeatMeasure?
    || a.LiftAccept? || a.LiftedOff?
  }

  /** Handing the queue to the pump changes nothing but the pump, and nothing at all without a queue. */
  lemma PumpOnly(s: State)
    ensures var r := Pump(s);
            && ButForThePump(s, r) && (s.engine.queued.Some? ==> r.engine.pumping)
            && (s.engine.queued.None? || s.engine.pumping ==> r == s)
  {
  }

  lemma ClosingAgain(s: State, w: World)
    requires s.engine.queued.Some? ==> s.engine.pumping
    ensures ClosesAgain(s, s.talk.measured, Pump(BeginHoming(s, w, OpenHomeAgain, Close, ToScreen(ClosedAgain))))
  {
    hide BeginMovement, ShowWith, Pump, LiveQueue;
    var c := BeginHoming(s, w, OpenHomeAgain, Close, ToScreen(ClosedAgain));
    PumpOnly(c);
    var s1 := s.(talk := s.talk.(homeAnyway := false));
    MovementKeeps(s1, w, OpenHomeAgain, Homing, Close, Home(Close), ToScreen(ClosedAgain), None);
    MovementQueues(s1, w, OpenHomeAgain, Homing, Close, Home(Close), ToScreen(ClosedAgain), None);
    ScreenOnly(Rested(s), w, ClosedAgain);
  }

  lemma ScreenOnly(s: State, w: World, step: Screen)
    ensures var r := ShowWith(s, w, step, None, None);
            r.talk == s.talk.(shown := Shown(step, None, None, None)) && r.engine == s.engine && r.place == s.place
  {
  }

  lemma LiftPresses(s: State, w: World)
    requires s.engine.queued.Some? ==> s.engine.pumping
    ensures LiftPressed(s, w, Pump(PressLiftedOff(s, w)))
  {
    hide BeginMovement, ShowProblem, Pump, LiveQueue;
    var pressed := if s.talk.instants.liftOff.None? then Some(w.now) else s.talk.instants.liftOff;
    var s1 := Unpressed(s).(talk := s.talk.(instants := s.talk.instants.(liftOff := pressed)));
    PumpOnly(PressLiftedOff(s, w));
    ProblemShows(s, w, Timeout);
    ProblemIsShown(s, w);
    MovementKeeps(s1, w, LiftStop, Free, Open, StopLift, ToTheLift, None);
    MovementQueues(s1, w, LiftStop, Free, Open, StopLift, ToTheLift, None);
    StopIsQueued(s1, w);
  }

  lemma ProblemIsShown(s: State, w: World)
    ensures ShowProblem(s, w, Timeout).talk.instants == s.talk.instants
  {
  }

  lemma StopIsQueued(s: State, w: World)
    ensures var r := BeginMovement(s, w, LiftStop, Free, Open, StopLift, ToTheLift, None);
            r.engine.press.None? && r.engine.pressTimer == s.engine.pressTimer && r.talk.instants == s.talk.instants
  {
  }

  lemma ShowsIt(s: State, s1: State, w: World, t: Talk, step: Screen)
    requires (s.engine.queued.Some? ==> s.engine.pumping) && s1.engine == s.engine && s1.place == s.place
    ensures Shows(s, t, step, Pump(Show(s1.(talk := t), w, step)))
  {
    hide ShowWith, Pump;
    ScreenOnly(s1.(talk := t), w, step);
    PumpOnly(Show(s1.(talk := t), w, step));
  }

  lemma OtherActs(s: State, w: World, client: string, a: Action, v: Value)
    requires Inv(s) && GuardAct(s, w, client, s.life.revision, a).None? && IsOther(a)
    ensures Acted(s, w, a, Turn(s, w, Act(client, s.life.revision, a, v)))
  {
    hide Inv, GuardAct, Turn, Taken, Pump, PressLiftedOff, BeginHoming, Show, Shows, ClosesAgain, LiftPressed;
    ActDoes(s, w, client, a, v);
    QueueIsPumped(s);
    var s1 := Taken(s, w, client);
    var t := s.talk;
    match a
    case ChooseFirst => ShowsIt(s, s1, w, t.(choice := t.choice.(path := Some(First))), PathAWarning);
    case ChooseProfile => ShowsIt(s, s1, w, t.(choice := t.choice.(path := Some(Profile))), PathBForm);
    case ChooseRefine => ShowsIt(s, s1, w, t.(choice := t.choice.(path := Some(Refine)), check := None), PathCForm);
    case ConfirmClosedAgain => ShowsIt(s, s1, w, t, OpenFullBrief); assert s1.(talk := t) == s1;
    case LiftByTape => ShowsIt(s, s1, w, t, LiftGap); assert s1.(talk := t) == s1;
    case RepeatMeasure =>
      ShowsIt(s, s1, w, t.(measured := t.measured.(height := None, heightMeasured := false)), HeightForm);
    case LiftAccept => ClosingAgain(s1, w); ClosesFrom(s, s1, Turn(s, w, Act(client, s.life.revision, a, v)));
    case LiftedOff => LiftPresses(s1, w); LiftFrom(s, s1, w, Turn(s, w, Act(client, s.life.revision, a, v)));
  }

  lemma ClosesFrom(s: State, s1: State, r: State)
    requires ClosesAgain(s1, s.talk.measured, r) && s1.talk == s.talk && s1.engine == s.engine && s1.place == s.place
    ensures ClosesAgain(s, s.talk.measured, r)
  {
  }

  lemma LiftFrom(s: State, s1: State, w: World, r: State)
    requires LiftPressed(s1, w, r) && s1.talk == s.talk && s1.engine == s.engine && s1.place == s.place
    ensures LiftPressed(s, w, r)
  {
  }

  // ---------------------------------------------------------------- the forms

  /** Only the error on the form is new. */
  predicate Refused(s: State, error: FormError, r: State) {
    r.talk == s.talk.(shown := Shown(s.talk.shown.step, None, None, Some(error))) && r.engine == s.engine
    && r.place == s.place
  }

  /** How far a tape at the end of a check is from what it should read: from half the travel for path B's check, and
      for the thorough one from what the model says of the run that was made. Without a travel or a model, or
      without a run to predict, there is nothing to compare. */
  function Deviation(t: Talk, stage: Stage, p: Prediction, cm: real): Option<real> {
    if t.measured.height.GetOr(0.0) == 0.0 || p.NoModel? then None
    else if stage.VerifyB? then Some(cm - t.measured.height.value / 2.0)
    else if t.report.Some? && p.Predicts? then Some(cm - p.cm)
    else None
  }

  /** What comes of the tape of a check. The correction is offered on path B exactly from 4.05 cm on. */
  ghost predicate Judged(s: State, w: World, v: Value, r: State) {
    var t := s.talk;
    if !v.Number? then Refused(s, NotANumber, r)
    else if v.n < 0.0 then Refused(s, OutOfRange, r)
    else if t.measured.height.Some? && v.n > t.measured.height.value then Refused(s, AboveTheTravel, r)
    else if w.prediction.CannotFit? then r.talk.shown.step == Problem(BadPoint) && r.talk.measured == t.measured
    else
      && OnPlan(t) && t.aim.pending.Some?
      && var stage, fraction := t.plan[t.index.value], t.aim.pending.value.1;
         var gap := Deviation(t, stage, w.prediction, v.n);
         && RunsFor(stage, t.aim.pending.value)
         && r.talk.measured == t.measured.(deviation := gap, verifyFraction := Some(fraction))
         && r.talk.check == Some(Check(v.n, fraction, gap))
         && r.talk.shown == Shown(VerifyResult, None, None, None) && r.engine == s.engine && r.place == s.place
         && forall w1: World :: Offered(r.talk, w1, ChooseRefine)
                                <==> t.choice.path == Some(Profile) && gap.Some?
                                     && (gap.value > 4.05 || gap.value < -4.05)
  }

  /** What a form does with its value: a travel from 20 to 500 cm and a gap from 1 to 50 cm are stored, a smaller gap
      means the press came early, none closes the shutter again without one; a name goes on; a profile begins
      path B's plan with nothing measured, or a correction with nothing but a travel. */
  ghost predicate Submitted(s: State, w: World, v: Value, r: State) {
    var t := s.talk;
    match t.shown.step
    case HeightForm =>
      if v.Number? && 20.0 <= v.n <= 500.0 then
        Shows(s, t.(measured := t.measured.(height := Some(v.n), heightMeasured := true)), HeightResult, r)
      else Refused(s, if v.Number? then OutOfRange else NotANumber, r)
    case LiftGap =>
      if v.Blank? then ClosesAgain(s, t.measured, r)
      else if !v.Number? then Refused(s, NotANumber, r)
      else if v.n < 0.0 || v.n > 50.0 then Refused(s, OutOfRange, r)
      else if v.n < 1.0 then Shows(s, t, LiftEarly, r)
      else ClosesAgain(s, t.measured.(liftGap := Some(v.n)), r)
    case NameForm =>
      if v.Text? && IsAName(v.t) then
        && OnPlan(t)
        && Enters(s, w, t.(choice := t.choice.(name := Some(v.t)), index := Some(t.index.value + 1)), r)
      else Refused(s, InvalidName, r)
    case PathBForm =>
      Enters(s, w, t.(choice := t.choice.(profile := Some(if v.Text? then v.t else "")), measured := NOTHING_MEASURED,
                      plan := [TapeBrief, HeightRead, VerifyOffer, Summary], index := Some(0)), r)
    case PathCForm =>
      var read := t.measured.height.GetOr(0.0) != 0.0;
      var taped := t.measured.height.Some? && t.measured.heightMeasured;
      Shows(s, t.(choice := t.choice.(profile := Some(if v.Text? then v.t else ""), scope := None), check := None,
                  review := None,
                  measured := NOTHING_MEASURED.(height := if read then t.measured.height else w.ownHeight,
                                                heightMeasured := taped)),
            RefineScope, r)
    case MeasureVerify => Judged(s, w, v, r)
    case _ => true
  }

  /** A form that is submitted is carried out on its field, and its queue handed to the pump. */
  lemma FormDoes(s: State, w: World, client: string, v: Value)
    requires GuardAct(s, w, client, s.life.revision, Submit).None? && !NamesNoProfile(s.talk, w, Submit, v)
    ensures var s1 := Taken(s, w, client);
            && s1.talk == s.talk && s1.engine == s.engine && s1.place == s.place
            && Turn(s, w, Act(client, s.life.revision, Submit, v))
               == Pump(DoSubmit(s1, w, FormOf(s.talk.shown.step).GetOr(HeightField), v))
  {
    hide GuardAct, Taken, DoSubmit, Pump, NamesNoProfile;
    TakenCounts(s, w, client);
  }

  lemma RefusesIt(s: State, s1: State, w: World, step: Screen, error: FormError)
    requires (s.engine.queued.Some? ==> s.engine.pumping) && s1.engine == s.engine && s1.place == s.place
    requires s1.talk == s.talk && step == s.talk.shown.step
    ensures Refused(s, error, Pump(ShowWith(s1, w, step, Some(error), None)))
  {
  }

  lemma HeightSubmitted(s: State, s1: State, w: World, v: Value)
    requires (s.engine.queued.Some? ==> s.engine.pumping) && s1.engine == s.engine && s1.place == s.place
    requires s1.talk == s.talk && s.talk.shown.step.HeightForm?
    ensures Submitted(s, w, v, Pump(SubmitHeight(s1, w, v)))
  {
    hide ShowWith, Show, Pump, Refused, Shows;
    assert s.talk.shown.step == HeightForm;
    RefusesIt(s, s1, w, HeightForm, NotANumber);
    RefusesIt(s, s1, w, HeightForm, OutOfRange);
    if v.Number? {
      var m := s.talk.measured.(height := Some(v.n), heightMeasured := true);
      ShowsIt(s, s1, w, s.talk.(measured := m), HeightResult);
    }
  }

  lemma GapSubmitted(s: State, s1: State, w: World, v: Value)
    requires (s.engine.queued.Some? ==> s.engine.pumping) && s1.engine == s.engine && s1.place == s.place
    requires s1.talk == s.talk && s.talk.shown.step.LiftGap?
    ensures Submitted(s, w, v, Pump(SubmitGap(s1, w, v)))
  {
    hide ShowWith, Show, Pump, Refused, Shows, BeginHoming, ClosesAgain;
    assert s.talk.shown.step == LiftGap;
    RefusesIt(s, s1, w, LiftGap, NotANumber);
    RefusesIt(s, s1, w, LiftGap, OutOfRange);
    ShowsIt(s, s1, w, s.talk, LiftEarly);
    assert s1.(talk := s.talk) == s1;
    ClosesFor(s, s1, w, s.talk.measured);
    assert s1.(talk := s.talk.(measured := s.talk.measured)) == s1;
    if v.Number? { ClosesFor(s, s1, w, s.talk.measured.(liftGap := Some(v.n))); }
  }

  lemma ClosesFor(s: State, s1: State, w: World, m: Measured)
    requires (s.engine.queued.Some? ==> s.engine.pumping) && s1.engine == s.engine && s1.place == s.place
    requires s1.talk == s.talk
    ensures ClosesAgain(s, m, Pump(BeginHoming(s1.(talk := s.talk.(measured := m)), w, OpenHomeAgain, Close,
                                               ToScreen(ClosedAgain))))
  {
    hide BeginHoming, Pump;
    ClosingAgain(s1.(talk := s.talk.(measured := m)), w);
  }

  lemma NameSubmitted(s: State, s1: State, w: World, v: Value)
    requires Inv(s) && !s.life.ended && s.talk.shown.step.NameForm? && NoLiveJob(s.engine)
    requires s1.engine == s.engine && s1.place == s.place && s1.talk == s.talk
    ensures Submitted(s, w, v, Pump(SubmitName(s1, w, Session.Written(v))))
  {
    hide Inv, ShowWith, Pump, Refused, Enters, EnterWith, IsAName, NoLiveJob;
    assert s.talk.shown.step == NameForm;
    QueueIsPumped(s);
    if v.Text? && IsAName(v.t) {
      NameHasANext(s);
      var t1 := s.talk.(choice := s.talk.choice.(name := Some(v.t)), index := Some(s.talk.index.value + 1));
      StageIsEntered(s1, w, t1);
      NamedEnters(s1, w, v.t);
      EntersFrom(s, s1, w, t1, EnterWith(s1, w, t1), Pump(EnterWith(s1, w, t1)));
    } else {
      NoTextIsNoName();
      RefusesIt(s, s1, w, NameForm, InvalidName);
    }
  }

  lemma NoTextIsNoName()
    ensures !IsAName("")
  {
  }

  lemma NameHasANext(s: State)
    requires Inv(s) && !s.life.ended && s.talk.shown.step.NameForm?
    ensures OnPlan(s.talk) && s.talk.index.value + 1 < |s.talk.plan|
  {
    LiveIsSettled(s);
    hide PathKept, ReadingsKept, AimKept, MovingKept, JobsKept, TasksKept, TrustKept, LifeKept;
  }

  lemma NamedEnters(s: State, w: World, name: string)
    requires OnPlan(s.talk) && IsAName(name)
    ensures SubmitName(s, w, name)
            == EnterWith(s, w, s.talk.(choice := s.talk.choice.(name := Some(name)),
                                       index := Some(s.talk.index.value + 1)))
  {
    hide Enter, IsAName;
  }

  lemma ProfileSubmitted(s: State, s1: State, w: World, v: Value)
    requires Inv(s) && !s.life.ended && NoLiveJob(s.engine)
    requires s.talk.shown.step.PathBForm? || s.talk.shown.step.PathCForm?
    requires s1.engine == s.engine && s1.place == s.place && s1.talk == s.talk
    ensures Submitted(s, w, v, Pump(SubmitProfile(s1, w, Session.Written(v))))
  {
    hide Inv, Show, Pump, Enters, EnterWith, NoLiveJob, Shows;
    QueueIsPumped(s);
    PathOfTheForm(s);
    var name := if v.Text? then v.t else "";
    if s.talk.shown.step.PathCForm? {
      ShowsIt(s, s1, w, Correcting(s.talk, w.ownHeight, name), RefineScope);
    } else {
      var t1 := s.talk.(choice := s.talk.choice.(profile := Some(name)), measured := NOTHING_MEASURED,
                        plan := PLAN_PROFILE, index := Some(0));
      StageIsEntered(s1, w, t1);
      ProfileEnters(s1, w, name);
      EntersFrom(s, s1, w, t1, EnterWith(s1, w, t1), Pump(EnterWith(s1, w, t1)));
    }
  }

  lemma PathOfTheForm(s: State)
    requires Inv(s) && !s.life.ended
    ensures s.talk.shown.step.PathBForm? ==> s.talk.choice.path == Some(Profile)
    ensures s.talk.shown.step.PathCForm? ==> s.talk.choice.path == Some(Refine)
  {
    LiveIsSettled(s);
    hide PlanKept, ReadingsKept, AimKept, MovingKept, JobsKept, TasksKept, TrustKept, LifeKept;
  }

  lemma ProfileEnters(s: State, w: World, name: string)
    requires s.talk.choice.path == Some(Profile)
    ensures SubmitProfile(s, w, name)
            == EnterWith(s, w, s.talk.(choice := s.talk.choice.(profile := Some(name)), measured := NOTHING_MEASURED,
                                       plan := PLAN_PROFILE, index := Some(0)))
  {
    hide Enter;
  }

  lemma CheckSubmitted(s: State, s1: State, w: World, v: Value)
    requires Inv(s) && !s.life.ended && s.talk.shown.step.MeasureVerify?
    requires s1.engine == s.engine && s1.place == s.place && s1.talk == s.talk
    ensures Judged(s, w, v, Pump(SubmitReading(s1, w, v)))
  {
    hide Inv, ShowWith, Pump, Refused, Verified, Offered, Deviation;
    QueueIsPumped(s);
    assert s.talk.shown.step == MeasureVerify;
    RefusesIt(s, s1, w, MeasureVerify, NotANumber);
    RefusesIt(s, s1, w, MeasureVerify, OutOfRange);
    RefusesIt(s, s1, w, MeasureVerify, AboveTheTravel);
    if v.Number? {
      CheckIsAimed(s);
      VerdictIsJudged(s, s1, w, v.n);
      PumpOnly(Verified(s1, w, v.n));
    }
  }

  lemma CheckIsAimed(s: State)
    requires Inv(s) && !s.life.ended && s.talk.shown.step.MeasureVerify?
    ensures OnPlan(s.talk) && AimedAt(s.talk.aim, s.talk.plan[s.talk.index.value])
  {
    LiveIsSettled(s);
    hide PathKept, ReadingsKept, MovingKept, JobsKept, TasksKept, TrustKept, LifeKept, WellFormed, AimedAt;
  }

  lemma VerdictIsJudged(s: State, s1: State, w: World, cm: real)
    requires OnPlan(s.talk) && AimedAt(s.talk.aim, s.talk.plan[s.talk.index.value])
    requires s1.engine == s.engine && s1.place == s.place && s1.talk == s.talk
    ensures var t, r := s.talk, Verified(s1, w, cm);
            if w.prediction.CannotFit? then r.talk.shown.step == Problem(BadPoint) && r.talk.measured == t.measured
            else
              && var fraction, gap := t.aim.pending.value.1, Deviation(t, t.plan[t.index.value], w.prediction, cm);
                 && r.talk.measured == t.measured.(deviation := gap, verifyFraction := Some(fraction))
                 && r.talk.check == Some(Check(cm, fraction, gap))
                 && r.talk.shown == Shown(VerifyResult, None, None, None) && r.engine == s.engine && r.place == s.place
                 && forall w1: World :: Offered(r.talk, w1, ChooseRefine)
                      <==> t.choice.path == Some(Profile) && gap.Some? && (gap.value > 4.05 || gap.value < -4.05)
  {
    hide ShowWith, ShowProblem, Deviation, GapOfTheCheck, Offered, RunsFor;
    ProblemShows(s1, w, BadPoint);
    var t := s.talk;
    var gap := GapOfTheCheck(t, w.prediction, cm);
    var fraction := t.aim.pending.value.1;
    var t1 := t.(measured := t.measured.(deviation := gap, verifyFraction := Some(fraction)),
                 aim := t.aim.(tapeTarget := None), check := Some(Check(cm, fraction, gap)));
    ScreenOnly(s1.(talk := t1), w, VerifyResult);
    if !w.prediction.CannotFit? { GapIsTheDeviation(t, w.prediction, cm); }
    CorrectionIsOffered(t1.(shown := Shown(VerifyResult, None, None, None)));
  }

  lemma GapIsTheDeviation(t: Talk, p: Prediction, cm: real)
    requires OnPlan(t) && AimedAt(t.aim, t.plan[t.index.value]) && !p.CannotFit?
    ensures GapOfTheCheck(t, p, cm) == Deviation(t, t.plan[t.index.value], p, cm)
  {
    hide RunsFor;
  }

  lemma CorrectionIsOffered(t: Talk)
    requires t.shown == Shown(VerifyResult, None, None, None)
    ensures forall w1: World :: Offered(t, w1, ChooseRefine)
              <==> t.choice.path == Some(Profile) && t.measured.deviation.Some?
                   && (t.measured.deviation.value > 4.05 || t.measured.deviation.value < -4.05)
  {
  }

  /** Every form but those of the readings, which `ReadingGoesToItsStage` speaks of; a profile that nobody defines
      gets no further than its owner. */
  lemma FormActs(s: State, w: World, client: string, v: Value)
    requires Inv(s) && GuardAct(s, w, client, s.life.revision, Submit).None?
    requires !NamesNoProfile(s.talk, w, Submit, v)
    ensures Submitted(s, w, v, Turn(s, w, Act(client, s.life.revision, Submit, v)))
  {
    hide Inv, GuardAct, Turn, Taken, Pump, SubmitHeight, SubmitGap, SubmitName, SubmitProfile, SubmitReading, Judged,
      NamesNoProfile, Offered, Settled, Idle, Submitted;
    GuardsMean(s, w, client, Submit);
    LiveIsSettled(s);
    OfferedIsIdle(s, w, Submit);
    IdleIsQuiet(s);
    QueueIsPumped(s);
    FormDoes(s, w, client, v);
    FormIsCarried(s, Taken(s, w, client), w, v);
    hide DoSubmit;
  }

  lemma FormIsCarried(s: State, s1: State, w: World, v: Value)
    requires Inv(s) && !s.life.ended && NoLiveJob(s.engine) && (s.engine.queued.Some? ==> s.engine.pumping)
    requires s1.engine == s.engine && s1.place == s.place && s1.talk == s.talk
    ensures Submitted(s, w, v, Pump(DoSubmit(s1, w, FormOf(s.talk.shown.step).GetOr(HeightField), v)))
  {
    hide Inv, Pump, SubmitHeight, SubmitGap, SubmitName, SubmitProfile, SubmitReading, Judged, Submitted, NoLiveJob;
    var step := s.talk.shown.step;
    if step.HeightForm? { HeightSubmitted(s, s1, w, v); }
    else if step.LiftGap? { GapSubmitted(s, s1, w, v); }
    else if step.NameForm? { NameSubmitted(s, s1, w, v); }
    else if step.PathBForm? || step.PathCForm? { ProfileSubmitted(s, s1, w, v); }
    else if step.MeasureVerify? {
      CheckSubmitted(s, s1, w, v);
      CheckIsSubmitted(s, w, v, Pump(SubmitReading(s1, w, v)));
    } else { OtherSubmitted(s, w, v, Pump(DoSubmit(s1, w, FormOf(step).GetOr(HeightField), v))); }
  }

  lemma CheckIsSubmitted(s: State, w: World, v: Value, r: State)
    requires s.talk.shown.step.MeasureVerify? && Judged(s, w, v, r)
    ensures Submitted(s, w, v, r)
  {
  }

  lemma OtherSubmitted(s: State, w: World, v: Value, r: State)
    requires !s.talk.shown.step.HeightForm? && !s.talk.shown.step.LiftGap? && !s.talk.shown.step.NameForm?
    requires !s.talk.shown.step.PathBForm? && !s.talk.shown.step.PathCForm? && !s.talk.shown.step.MeasureVerify?
    ensures Submitted(s, w, v, r)
  {
  }

  // ---------------------------------------------------------------- the beginning

  /** The choice of a path offers the first one always, and the other two exactly where there is a profile. */
  lemma PathsOnOffer(t: Talk, w: World, a: Action)
    requires t.shown.step.ChoosePath? && t.shown.notice != Some(ReadingStale)
    ensures Offered(t, w, a) <==> a.ChooseFirst? || ((a.ChooseProfile? || a.ChooseRefine?) && w.profiles != {})
  {
  }

  /** The screen a session begins on, by the path it was asked for on: the choice, the warning of the first, and the
      profile of the other two, which a correction may be told at once. */
  lemma BornShows(w: World, client: string, path: Option<Route>, profile: Option<string>)
    ensures var s := Born(w, client, path, profile);
            var t := s.talk;
            && s.life.owner == Some(client) && s.life.ownerSeen == w.now && s.life.lease == Some(w.now + 1800.0)
            && s.life.revision == 1 && t.choice.path == path && t.plan == [] && t.index.None?
            && t.choice.name.None? && t.choice.scope.None?
            && match path
               case None => t.shown.step.ChoosePath? && t.choice.profile.None? && t.measured == NOTHING_MEASURED
               case Some(First) =>
                 t.shown.step.PathAWarning? && t.choice.profile.None? && t.measured == NOTHING_MEASURED
               case Some(Profile) =>
                 t.shown.step.PathBForm? && t.choice.profile == profile && t.measured == NOTHING_MEASURED
               case Some(Refine) =>
                 && t.choice.profile == profile
                 && (if profile.None? then t.shown.step.PathCForm? && t.measured == NOTHING_MEASURED
                     else t.shown.step.RefineScope? && t.measured == NOTHING_MEASURED.(height := w.ownHeight))
  {
  }
}
