/** What every reachable state of a session keeps. */
module SessionInvariant {
  import opened Wrappers
  import opened Plans
  import opened Screens
  import opened Session

  // ---------------------------------------------------------------- the plan and its readings

  /** A plan ends in its only summary. */
  ghost predicate WellFormed(plan: seq<Stage>) {
    plan != [] && plan[|plan| - 1] == Summary && forall i :: 0 <= i < |plan| - 1 ==> plan[i] != Summary
  }

  /** Entering one of these queues a homing or skips it. */
  predicate HomesFirst(stage: Stage) {
    stage.HomeClosed? || stage.OpenTimed? || stage.HeightRead? || stage.CloseTimed? || IsReading(stage)
  }

  predicate IsTimed(stage: Stage) { stage.OpenTimed? || stage.CloseTimed? }

  /** The fitting stages of one direction among the first `n` of a plan. */
  function Fitted(plan: seq<Stage>, d: Direction, n: nat): nat
    requires n <= |plan|
  {
    if n == 0 then 0
    else Fitted(plan, d, n - 1) + if Movable(plan[n - 1]) && RunDirection(plan[n - 1]) == d then 1 else 0
  }

  ghost predicate NothingToFit(plan: seq<Stage>) { forall i :: 0 <= i < |plan| ==> !Movable(plan[i]) }

  /** The stage a screen of a walked plan belongs to. A problem screen belongs to any. */
  predicate Sits(step: Screen, stage: Stage) {
    match step
    case Positioning(st) => st == stage && HomesFirst(stage)
    case HomeClosedDone => stage.HomeClosed?
    case OpenBrief | OpenStarting | OpenLift | LiftStop | LiftCheck | LiftCheckLate | LiftGap | LiftEarly
       | OpenHomeAgain | ClosedAgain | OpenFullBrief | OpenFullStarting | OpenTop | OpenResult | OpenResultGap =>
      stage.OpenTimed?
    case HeightForm | HeightResult => stage.HeightRead?
    case CloseBrief | CloseStarting | CloseBottom | CloseResult => stage.CloseTimed?
    case TapeBriefing => stage.TapeBrief?
    case TapeRun => IsReading(stage)
    case MeasureDescent => Movable(stage) && RunDirection(stage) == Close
    case MeasureAscent => Movable(stage) && RunDirection(stage) == Open
    case TapeResult => Movable(stage)
    case MeasureVerify | VerifyResult => stage.Verify? || stage.VerifyB?
    case VerifyOffering => stage.VerifyOffer?
    case NameForm => stage.ProfileName?
    case Summing(_) => stage.Summary?
    case Problem(_) => true
    case PathCForm | RefineScope => true
    case _ => false
  }

  predicate OnPlan(t: Talk) { t.index.Some? && t.index.value < |t.plan| }

  ghost predicate PlanKept(t: Talk) {
    var step := t.shown.step;
    && !t.escaped
    && (t.index.None? ==> t.plan == [] && ModeOf(step).Armed? && t.measured.descent == [] && t.measured.ascent == [])
    && (t.index.Some? ==> OnPlan(t) && WellFormed(t.plan) && Sits(step, t.plan[t.index.value]))
  }

  ghost predicate PathKept(t: Talk) {
    var step := t.shown.step;
    && (step.ChoosePath? || step.PathAWarning? ==> t.choice.profile == None && t.index == None)
    && (step.PathBForm? ==> t.choice.path == Some(Profile))
    && (step.PathCForm? || step.RefineScope? ==> t.choice.path == Some(Refine) && NothingToFit(t.plan))
    && (t.choice.path == Some(Profile) ==> NothingToFit(t.plan))
    && (t.choice.path == Some(First) ==> t.choice.profile == None)
    && (t.index.Some? ==> t.choice.path.Some?)
    && (step.Summing? ==> t.review.Some? && step.variant == VariantOf(t) == t.review.value.variant)
  }

  /** One reading too many in a list only while its own result is on the screen. */
  function Extra(t: Talk, d: Direction): nat {
    if t.shown.step.TapeResult? && t.aim.tapeTarget == Some(d) then 1 else 0
  }

  /** Each reading list is as long as the fitting stages of its direction before the index, and one
      longer while `tape_result` shows that direction. */
  ghost predicate ReadingsKept(t: Talk) {
    OnPlan(t) ==>
      && |t.measured.descent| == Fitted(t.plan, Close, t.index.value) + Extra(t, Close)
      && |t.measured.ascent| == Fitted(t.plan, Open, t.index.value) + Extra(t, Open)
      && (t.shown.step.TapeResult? ==> t.aim.tapeTarget == Some(RunDirection(t.plan[t.index.value])))
  }

  /** A screen on which the run of the reading at the index is being made, or its tape is being read. */
  predicate OnAReading(step: Screen) {
    (step.Positioning? && IsReading(step.stage)) || step.TapeRun? || IsTapeForm(step)
  }

  /** The run of each reading: which way, and for which part of its time. Path B's check has no part of its own. */
  predicate RunsFor(stage: Stage, run: (Direction, real)) {
    match stage
    case QuarterDown => run == (Close, 0.25)
    case HalfDown => run == (Close, 0.5)
    case ThreeQuarterDown => run == (Close, 0.75)
    case QuarterUp => run == (Open, 0.25)
    case HalfUp => run == (Open, 0.5)
    case ThreeQuarterUp => run == (Open, 0.75)
    case Verify => run == (Close, 0.4)
    case VerifyB => run.0 == Open
    case _ => false
  }

  /** The run aimed at is the one the stage at the index asks for. */
  predicate AimedAt(a: Aim, stage: Stage) {
    && a.pending.Some? && a.pending.value.0 == RunDirection(stage) && RunsFor(stage, a.pending.value)
    && a.form == FormAfter(stage) && a.halfTravel == stage.VerifyB?
  }

  ghost predicate AimKept(t: Talk) {
    var step := t.shown.step;
    && (OnAReading(step) || step.VerifyResult? ==> t.aim.tapeTarget == None)
    && (OnPlan(t) && OnAReading(step) ==> AimedAt(t.aim, t.plan[t.index.value]))
    && (t.stopFirst ==> (step.Positioning? || step.Problem?) && OnPlan(t) && HomesFirst(t.plan[t.index.value]))
    && (t.shown.notice == Some(ReadingStale) ==> IsTapeForm(step))
    && (t.shown.problem.Some? <==> step.Problem?)
  }

  /** The whole conversation of a live session. */
  ghost predicate TalkKept(t: Talk) { PlanKept(t) && PathKept(t) && ReadingsKept(t) && AimKept(t) }

  // ---------------------------------------------------------------- what is moving

  /** What is shown while something moves and while a press is waited for. A press that came too late
      or out of order leaves its movement behind the problem screen, a late one its timer too. */
  ghost predicate MovingKept(t: Talk, e: Engine) {
    var step := t.shown.step;
    && (IsPress(step) ==>
          e.press.Some? && e.movement == Some(Movement(Free, if step.CloseBottom? then Close else Open)))
    && (e.press.Some? ==> e.movement.Some? && e.pressTimer.Some? && t.instants.motorStart.Some?
                          && (IsPress(step) || step == Problem(Timeout)))
    && (e.movement.Some? ==> IsMoving(step) || IsPress(step)
                             || (step.Problem? && OnPlan(t) && IsTimed(t.plan[t.index.value])))
  }

  /** The movement the session says is under way is that of the primitive. */
  predicate MovesFor(m: Option<Movement>, p: Primitive) {
    m == Some(match p
              case Home(end) => Movement(Homing, end)
              case StartFree(way) => Movement(Free, way)
              case StopLift => Movement(Free, Open)
              case RunTo(way, _) => Movement(Fraction, way))
  }

  predicate Live(e: Engine, j: Job) { j.generation == e.generation }

  /** A movement screen and the one job that may be behind it. */
  predicate Behind(step: Screen, p: Primitive, next: Next) {
    match step
    case Positioning(st) => p == Home(HomingEnd(st)) && next == HomingNext(st)
    case OpenStarting => p == StartFree(Open) && next == ToScreen(OpenLift)
    case LiftStop => p == StopLift && next == ToTheLift
    case OpenHomeAgain => p == Home(Close) && (next == ToScreen(ClosedAgain) || next == ToScreen(OpenFullBrief))
    case OpenFullStarting => p == StartFree(Open) && next == ToScreen(OpenTop)
    case CloseStarting => p == StartFree(Close) && next == ToScreen(CloseBottom)
    case TapeRun => p.RunTo? && next.ToScreen? && IsTapeForm(next.screen)
    case _ => false
  }

  /** The end stop a stage's homing takes the shutter to, and where it hands over. */
  function HomingEnd(stage: Stage): Direction {
    if stage.HomeClosed? || stage.OpenTimed? then Close
    else if stage.HeightRead? || stage.CloseTimed? then Open
    else StartsFrom(stage)
  }

  function HomingNext(stage: Stage): Next {
    match stage
    case HomeClosed => ToScreen(HomeClosedDone)
    case OpenTimed => ToScreen(OpenBrief)
    case HeightRead => ToScreen(HeightForm)
    case CloseTimed => ToScreen(CloseBrief)
    case _ => ToTheRun
  }

  /** The job is the one the screen shows. */
  ghost predicate JobFits(t: Talk, j: Job) {
    var step := t.shown.step;
    && Behind(step, j.primitive, j.next)
    && (step.TapeRun?
        ==> t.aim.pending.Some? && j.primitive == RunTo(t.aim.pending.value.0, t.aim.pending.value.1)
            && j.next == ToScreen(t.aim.form))
    && (step.LiftStop? ==> t.instants.motorStart.Some? && t.instants.liftOff.Some?)
    && j.notice != Some(ReadingStale)
    && OnPlan(t)
  }

  /** The run of a measurement, as opposed to a homing or the stop of the lift-off run. */
  predicate Measures(p: Primitive) { p.StartFree? || p.RunTo? }

  ghost predicate NoLiveTask(e: Engine) {
    forall i :: 0 <= i < |e.tasks| ==> e.tasks[i].Looping? || !Live(e, e.tasks[i].job)
  }

  ghost predicate NoLiveJob(e: Engine) { (e.queued.Some? ==> !Live(e, e.queued.value)) && NoLiveTask(e) }

  /** A live job is the only one, it is the one on the screen, and a measuring run that has not gone
      out yet still has the shutter where it starts. */
  ghost predicate JobsKept(t: Talk, e: Engine, at: Option<Direction>) {
    && (e.queued.Some? && Live(e, e.queued.value) ==>
          && NoLiveTask(e)
          && MovesFor(e.movement, e.queued.value.primitive)
          && JobFits(t, e.queued.value)
          && (Measures(e.queued.value.primitive) ==> at == Some(OtherEnd(e.queued.value.primitive.way))))
    && (forall i :: 0 <= i < |e.tasks| && !e.tasks[i].Looping? && Live(e, e.tasks[i].job) ==>
          && MovesFor(e.movement, e.tasks[i].job.primitive) && at == None
          && JobFits(t, e.tasks[i].job)
          && !t.stopFirst && t.error == None
          && (e.tasks[i].Stopping? ==> e.tasks[i].job.primitive.Home?))
  }

  /** At most one pump, which runs exactly when `pumping` says so; no job is from the future. */
  ghost predicate TasksKept(e: Engine) {
    && |e.tasks| <= 1
    && (e.pumping <==> |e.tasks| == 1)
    && (e.queued.Some? ==> e.queued.value.generation <= e.generation)
    && (forall i :: 0 <= i < |e.tasks| && !e.tasks[i].Looping? ==> e.tasks[i].job.generation <= e.generation)
  }

  // ---------------------------------------------------------------- where the shutter is

  /** The last thing that can have moved the shutter. A stop written with nothing moving and the stop
      of an ending are passed over. */
  function LastMove(trace: seq<Happening>): Option<Happening> {
    if trace == [] then None
    else
      var last := trace[|trace| - 1];
      if last == IdleStop || last == EndingStop then LastMove(trace[..|trace| - 1]) else Some(last)
  }

  /** Every frame of a measured run went out from the end stop that run starts at. */
  ghost predicate RunsFromEndStops(trace: seq<Happening>) {
    forall i :: 0 <= i < |trace| && (trace[i].FreeFrame? || trace[i].RunFrame?) ==>
      LastMove(trace[..i]) == Some(Reached(OtherEnd(trace[i].way)))
  }

  ghost predicate TrustKept(p: Place) {
    && (p.at.Some? ==> LastMove(p.trace) == Some(Reached(p.at.value)))
    && RunsFromEndStops(p.trace)
  }

  // ---------------------------------------------------------------- the ending

  ghost predicate LifeKept(l: Life) {
    && (l.ended <==> l.outcome.Some?)
    && (l.claimed <==> !l.ended)
    && (l.ended ==> l.lease == None && l.owner == None)
    && (!l.ended ==> l.lease.Some? || Expired in l.endings)
  }

  ghost predicate Quiet(e: Engine, at: Option<Direction>) {
    e.movement == None && e.press == None && e.pressTimer == None && e.queued == None && at == None
  }

  // ---------------------------------------------------------------- all of it

  /** A live session, but for the queue being handed to the pump. */
  ghost predicate Settled(s: State) {
    && LifeKept(s.life) && !s.life.ended
    && TasksKept(s.engine) && TrustKept(s.place)
    && TalkKept(s.talk) && MovingKept(s.talk, s.engine) && JobsKept(s.talk, s.engine, s.place.at)
  }

  ghost predicate Over(s: State) {
    && LifeKept(s.life) && s.life.ended
    && TasksKept(s.engine) && TrustKept(s.place)
    && Quiet(s.engine, s.place.at) && !s.talk.escaped
  }

  ghost predicate Inv(s: State) {
    && (Settled(s) || Over(s))
    && (s.engine.queued.Some? ==> s.engine.pumping)
  }

  /** A live session in the middle of a turn with nothing under way. */
  ghost predicate Idle(s: State) {
    && LifeKept(s.life) && !s.life.ended
    && TasksKept(s.engine) && TrustKept(s.place) && NoLiveJob(s.engine)
  }

  // ---------------------------------------------------------------- putting a screen up

  /** The conversation as it has to be for `step` to be put up over a walked plan. */
  ghost predicate Ready(t: Talk, step: Screen) {
    && !t.escaped && OnPlan(t) && WellFormed(t.plan) && Sits(step, t.plan[t.index.value]) && t.choice.path.Some?
    && (t.choice.path == Some(Profile) ==> NothingToFit(t.plan))
    && (t.choice.path == Some(First) ==> t.choice.profile == None)
    && |t.measured.descent| == Fitted(t.plan, Close, t.index.value)
    && |t.measured.ascent| == Fitted(t.plan, Open, t.index.value)
    && (OnAReading(step) || step.VerifyResult? ==> t.aim.tapeTarget == None)
    && (OnAReading(step) ==> AimedAt(t.aim, t.plan[t.index.value]))
    && (t.stopFirst ==> (step.Positioning? || step.Problem?) && HomesFirst(t.plan[t.index.value]))
  }

  lemma TalkLands(t: Talk, shown: Shown)
    requires Ready(t, shown.step)
    requires !shown.step.TapeResult? && !shown.step.Summing? && !shown.step.PathCForm? && !shown.step.RefineScope?
    requires shown.notice == Some(ReadingStale) ==> IsTapeForm(shown.step)
    requires shown.problem.Some? <==> shown.step.Problem?
    ensures TalkKept(t.(shown := shown))
  {
    hide Fitted, NothingToFit, WellFormed;
  }

  lemma PutLands(s: State, w: World, talk: Talk, shown: Shown)
    requires LifeKept(s.life) && !s.life.ended && TasksKept(s.engine) && TrustKept(s.place)
    requires TalkKept(talk.(shown := shown)) && MovingKept(talk.(shown := shown), s.engine)
    requires JobsKept(talk.(shown := shown), s.engine, s.place.at)
    ensures Settled(Put(s, w, talk, shown))
  {
    hide TasksKept, TrustKept, TalkKept, MovingKept, JobsKept;
  }

  lemma IdleJobs(t: Talk, e: Engine, at: Option<Direction>)
    requires NoLiveJob(e)
    ensures JobsKept(t, e, at)
  {
  }

  lemma ScreenLands(s: State, w: World, step: Screen, error: Option<FormError>, notice: Option<Notice>)
    requires Idle(s) && Ready(s.talk, step) && s.engine.movement == None && s.engine.press == None
    requires !IsMoving(step) && !IsPress(step) && !step.Problem? && !step.TapeResult? && !step.Summing?
             && !step.PathCForm? && !step.RefineScope?
    requires notice == Some(ReadingStale) ==> IsTapeForm(step)
    ensures Settled(ShowWith(s, w, step, error, notice))
  {
    var shown := Shown(step, None, notice, error);
    TalkLands(s.talk, shown);
    IdleJobs(s.talk.(shown := shown), s.engine, s.place.at);
    hide TasksKept, TrustKept, TalkKept, JobsKept;
    PutLands(s, w, s.talk, shown);
  }

  lemma ProblemLands(s: State, w: World, reason: Reason)
    requires Idle(s) && Ready(s.talk, Problem(CodeOf(reason))) && s.engine.movement == None && s.engine.press == None
    ensures Settled(ShowProblem(s, w, reason))
  {
    var shown := Shown(Problem(CodeOf(reason)), Some(CodeOf(reason)), None, None);
    var talk := s.talk.(check := None);
    TalkLands(talk, shown);
    IdleJobs(talk.(shown := shown), s.engine, s.place.at);
    hide TasksKept, TrustKept, TalkKept, JobsKept;
    PutLands(s, w, talk, shown);
  }

  lemma MovementLands(s: State, w: World, step: Screen, kind: Kind, direction: Direction,
                      p: Primitive, next: Next, notice: Option<Notice>)
    requires Idle(s) && Ready(s.talk, step) && Behind(step, p, next) && notice != Some(ReadingStale)
    requires step.TapeRun? ==> s.talk.aim.pending.Some?
                               && p == RunTo(s.talk.aim.pending.value.0, s.talk.aim.pending.value.1)
                               && next == ToScreen(s.talk.aim.form)
    requires step.LiftStop? ==> s.talk.instants.motorStart.Some? && s.talk.instants.liftOff.Some?
    requires Measures(p) ==> s.place.at == Some(OtherEnd(p.way))
    requires MovesFor(Some(Movement(kind, direction)), p)
    ensures Settled(BeginMovement(s, w, step, kind, direction, p, next, notice))
  {
    var shown := Shown(step, None, None, None);
    var talk := s.talk.(externalMove := false);
    TalkLands(talk, shown);
    var e := s.engine.(movement := Some(Movement(kind, direction)), press := None,
                       queued := Some(Job(p, next, notice, s.engine.generation)));
    QueueLands(talk.(shown := shown), s.engine, e, s.place.at);
    PutLands(s.(talk := talk, engine := e), w, talk, shown);
    hide TasksKept, TrustKept, TalkKept, JobsKept;
  }

  lemma QueueLands(t: Talk, e: Engine, e1: Engine, at: Option<Direction>)
    requires TasksKept(e) && NoLiveJob(e)
    requires e1.queued.Some? && Live(e1, e1.queued.value) && MovesFor(e1.movement, e1.queued.value.primitive)
    requires e1.press == None
    requires e1.tasks == e.tasks && e1.generation == e.generation && e1.pumping == e.pumping
    requires JobFits(t, e1.queued.value) && IsMoving(t.shown.step)
    requires Measures(e1.queued.value.primitive) ==> at == Some(OtherEnd(e1.queued.value.primitive.way))
    ensures TasksKept(e1) && JobsKept(t, e1, at) && MovingKept(t, e1)
  {
  }
}
