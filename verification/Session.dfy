/** One guided calibration as a value, and every turn of the event loop as a function on it
    (calibration_session.py, CalibrationSession). `Turn` at the end is the whole machine. */
module Session {
  import opened Wrappers
  import opened Plans
  import opened Screens

  // ---------------------------------------------------------------- what a session holds

  datatype Timing = Timing(slat: Option<real>, run: real)

  /** The numbers of a session. A reading pairs the seconds its run reported with the tape's centimetres. */
  datatype Measured = Measured(
    height: Option<real>, heightMeasured: bool,
    opening: Option<Timing>, closing: Option<Timing>,
    slatSeconds: Option<real>, liftRun: Option<real>, liftGap: Option<real>, liftLate: bool,
    descent: seq<(real, real)>, ascent: seq<(real, real)>,
    deviation: Option<real>, verifyFraction: Option<real>,
    precise: bool, timesAdopted: bool)

  const NOTHING_MEASURED: Measured :=
    Measured(None, false, None, None, None, None, None, false, [], [], None, None, false, false)

  datatype Notice = ReadingStale | Rehomed

  datatype FormError = NotANumber | OutOfRange | AboveTheTravel | InvalidName

  datatype Kind = Homing | Free | Fraction

  datatype Movement = Movement(kind: Kind, direction: Direction)

  datatype Press = LiftOffPress | EndStopPress

  /** What a queued movement asks of the cover. */
  datatype Primitive =
    | Home(end: Direction) | StartFree(way: Direction) | StopLift | RunTo(way: Direction, fraction: real)

  /** What a job leads to once its primitive is done. */
  datatype Next = ToScreen(screen: Screen) | ToTheRun | ToTheLift

  datatype Job = Job(primitive: Primitive, next: Next, notice: Option<Notice>, generation: nat)

  /** The pump task between two suspensions: about to look at the queue, waiting for the optional
      stop of a job, or waiting for the job's primitive. */
  datatype Task = Looping | Stopping(job: Job) | Driving(job: Job)

  datatype EndReason = Saved | Cancelled | Left | Expired | CoverGone | Unloaded

  datatype Target = ProfileTarget | CoverOnly

  /** The summary: which of its four shapes, and whatever else is on it. */
  datatype Card = Card(variant: Variant, content: int)

  datatype Check = Check(measured: real, fraction: real, gap: Option<real>)

  /** What happened to the shutter, as the session knows it. `IdleStop` is a stop frame written with
      no movement on the screen and `EndingStop` the one an ending writes; `Reached` a completed
      homing or an accepted end-stop press; `Moved` a movement of somebody else's. */
  datatype Happening =
    | HomeFrame(to: Direction) | FreeFrame(way: Direction) | RunFrame(way: Direction)
    | StopFrame | IdleStop | EndingStop | Reached(at: Direction) | Moved

  /** What the screen says. */
  datatype Shown = Shown(step: Screen, problem: Option<Reason>, notice: Option<Notice>, formError: Option<FormError>)

  /** What the user has chosen. */
  datatype Choice = Choice(path: Option<Route>, profile: Option<string>, scope: Option<Scope>, name: Option<string>)

  /** The reading under way: which list it went into, its run, and the form at the end of it. */
  datatype Aim = Aim(tapeTarget: Option<Direction>, pending: Option<(Direction, real)>, halfTravel: bool, form: Screen)

  /** The instants of a timed run. */
  datatype Instants = Instants(motorStart: Option<real>, liftOff: Option<real>, stopDelivered: Option<real>,
                               motorStopped: Option<real>, shownAt: Option<real>)

  /** The conversation. `escaped` is an IndexError or AttributeError that nothing catches. */
  datatype Talk = Talk(
    choice: Choice, plan: seq<Stage>, index: Option<nat>, measured: Measured, shown: Shown,
    aim: Aim, instants: Instants, report: Option<real>, error: Option<Reason>,
    review: Option<Card>, check: Option<Check>,
    stopFirst: bool, homeAnyway: bool, externalMove: bool, escaped: bool)

  /** What is moving, what the screen waits for, and what is queued or suspended. */
  datatype Engine = Engine(
    movement: Option<Movement>, press: Option<Press>, pressTimer: Option<real>,
    queued: Option<Job>, pumping: bool, generation: nat, tasks: seq<Task>)

  /** The end stop the position is known at, if it is, and the ghost of all that moved the shutter. */
  datatype Place = Place(at: Option<Direction>, trace: seq<Happening>)

  /** The owner, the lease and the ending. */
  datatype Life = Life(
    owner: Option<string>, ownerSeen: real, lease: Option<real>, revision: nat,
    ended: bool, outcome: Option<EndReason>, reservedUntil: Option<real>, claimed: bool,
    endings: seq<EndReason>, saves: seq<Target>)

  datatype State = State(talk: Talk, engine: Engine, place: Place, life: Life)

  // ---------------------------------------------------------------- what a turn is told

  /** The times a cover moves on today. */
  datatype InUse = InUse(slat: real, opening: real, closing: real)

  /** What asking the model being checked comes to: it cannot be fitted, it is not there, or a height. */
  datatype Prediction = CannotFit | NoModel | Predicts(cm: real)

  /** Everything outside the session that one turn may read. */
  datatype World = World(
    now: real,
    coverThere: bool,            // the live entity exists
    shutterMoving: bool,         // it is opening or closing
    profiles: set<string>,
    ownHeight: Option<real>,
    inUse: Option<InUse>,
    prediction: Prediction,
    halfTravel: Option<real>,    // the fraction that spends half the travel, if this cover can run it
    summary: Option<int>,        // the content of the summary, if it can be computed
    fullRun: real)               // a full run of the movement under way, plus the settle margin

  datatype Value = Blank | Garbage | Number(n: real) | Text(t: string)

  /** What a primitive of the cover comes back with. */
  datatype Answer = Done(first: real, second: real) | Failed(reason: Reason) | FailedOtherwise

  datatype Event =
    | Act(client: string, revision: nat, action: Action, value: Value)
    | Stop(client: string, answer: Answer)
    | Attach(client: string, claim: bool)
    | Heartbeat(client: string)
    | Leave(client: string)
    | Cancel(client: string, force: bool)
    | Save(client: string, revision: nat, target: Target)
    | SaveReturns(which: nat, written: bool)
    | PressTimer
    | LeaseTimer
    | CoverMoves(direction: Direction)
    | CoverRests(wasMoving: bool)
    | Unload
    | EndingReturns(which: nat)
    | TaskTurn(which: nat, answer: Answer)

  // ---------------------------------------------------------------- publishing

  function Touched(l: Life, now: real, step: Screen): Life {
    if l.ended then l else l.(lease := Some(now + Patience(step)))
  }

  function Touch(s: State, w: World): State {
    s.(life := Touched(s.life, w.now, s.talk.shown.step))
  }

  function Publish(s: State, w: World): State {
    s.(life := Touched(s.life.(revision := s.life.revision + 1), w.now, s.talk.shown.step))
  }

  function Put(s: State, w: World, talk: Talk, shown: Shown): State {
    Publish(s.(talk := talk.(shown := shown)), w)
  }

  function ShowWith(s: State, w: World, step: Screen, error: Option<FormError>, notice: Option<Notice>): State {
    Put(s, w, s.talk, Shown(step, None, notice, error))
  }

  function Show(s: State, w: World, step: Screen): State { ShowWith(s, w, step, None, None) }

  function ShowProblem(s: State, w: World, reason: Reason): State {
    Put(s, w, s.talk.(check := None), Shown(Problem(CodeOf(reason)), Some(CodeOf(reason)), None, None))
  }

  // ---------------------------------------------------------------- the ending

  /** What is left of a conversation that ended without a save. */
  function Emptied(t: Talk): Talk {
    t.(measured := NOTHING_MEASURED, instants := t.instants.(liftOff := None, stopDelivered := None),
       plan := [], index := None, review := None, check := None)
  }

  /** The terminal state. A session ends once: the second ending changes nothing. */
  function Finish(s: State, w: World, reason: EndReason): State {
    if s.life.ended then s
    else
      var quiet := s.talk.(shown := Shown(s.talk.shown.step, None, None, None));
      Publish(State(if reason == Saved then quiet else Emptied(quiet),
                    s.engine.(movement := None, press := None, pressTimer := None, queued := None),
                    s.place.(at := None),
                    s.life.(lease := None, owner := None, ended := true, outcome := Some(reason), claimed := false)), w)
  }

  function NextGeneration(s: State): State {
    s.(engine := s.engine.(generation := s.engine.generation + 1))
  }

  function End(s: State, w: World, reason: EndReason): State {
    if s.life.ended then s
    else if w.coverThere && w.shutterMoving && s.engine.movement.Some? then
      Finish(NextGeneration(s).(life := s.life.(reservedUntil := Some(w.now + w.fullRun))), w, reason)
    else Finish(NextGeneration(s), w, reason)
  }

  function Happens(s: State, h: Happening): State {
    s.(place := s.place.(trace := s.place.trace + [h]))
  }

  /** `async_end`: with a stop to write it suspends there, and the ending itself is a later turn. */
  function AsyncEnd(s: State, w: World, reason: EndReason, stop: bool): State {
    if s.life.ended then s
    else if stop && w.coverThere && w.shutterMoving then
      Happens(NextGeneration(s), EndingStop).(life := s.life.(endings := s.life.endings + [reason]))
    else End(NextGeneration(s), w, reason)
  }

  // ---------------------------------------------------------------- the owner

  predicate Present(l: Life, now: real) { l.owner.Some? && now - l.ownerSeen < 45.0 }

  predicate OwnedByAnother(l: Life, now: real, client: string, force: bool) {
    l.owner.Some? && l.owner != Some(client) && Present(l, now) && !force
  }

  function Take(s: State, w: World, client: string): State {
    s.(life := s.life.(owner := Some(client), ownerSeen := w.now))
  }

  // ---------------------------------------------------------------- the movements

  function Overtake(e: Engine): Engine { e.(generation := e.generation + 1, queued := None) }

  function Interrupt(s: State, w: World): State {
    ShowProblem(s.(engine := Overtake(s.engine).(movement := None, press := None, pressTimer := None),
                   place := s.place.(at := None)), w, Interrupted)
  }

  function BeginMovement(s: State, w: World, step: Screen, kind: Kind, direction: Direction,
                         primitive: Primitive, next: Next, notice: Option<Notice>): State
  {
    var engine := s.engine.(movement := Some(Movement(kind, direction)), press := None,
                            queued := Some(Job(primitive, next, notice, s.engine.generation)));
    Show(s.(talk := s.talk.(externalMove := false), engine := engine), w, step)
  }

  function ArmPress(s: State, w: World, kind: Press): State {
    s.(talk := s.talk.(instants := s.talk.instants.(shownAt := Some(w.now))),
       engine := s.engine.(press := Some(kind), pressTimer := Some(w.now + 90.0)))
  }

  function Escape(s: State): State { s.(talk := s.talk.(escaped := true)) }

  function LiftMeasured(s: State, w: World): State {
    var i := s.talk.instants;
    if i.motorStart.None? || i.liftOff.None? then Escape(s)
    else
      var slat := i.liftOff.value - i.motorStart.value;
      if slat < 0.0 then ShowProblem(s, w, BadPoint)
      else
        var run := if i.motorStopped.Some? then Some(i.motorStopped.value - i.motorStart.value)
                   else s.talk.measured.liftRun;
        var late := i.stopDelivered.Some? && i.stopDelivered.value - i.liftOff.value > 1.0;
        var m := s.talk.measured.(slatSeconds := Some(slat), liftRun := run, liftLate := late);
        Show(s.(talk := s.talk.(measured := m)), w, if late then LiftCheckLate else LiftCheck)
  }

  /** What a reading's homing leads to: the run its aim is set for, with the form of that aim behind it. */
  function BeginTheRun(s: State, w: World): State {
    var (direction, fraction) := s.talk.aim.pending.GetOr((Close, 0.5));
    BeginMovement(s, w, TapeRun, Fraction, direction, RunTo(direction, fraction), ToScreen(s.talk.aim.form), None)
  }

  function Goto(s: State, w: World, next: Next, notice: Option<Notice>): State {
    match next
    case ToTheRun => BeginTheRun(s, w)
    case ToTheLift => LiftMeasured(s, w)
    case ToScreen(screen) =>
      if IsPress(screen) then
        Show(ArmPress(s, w, if screen == OpenLift then LiftOffPress else EndStopPress), w, screen)
      else ShowWith(s, w, screen, None, notice)
  }

  /** Nothing is moving and nothing is waited for. */
  function Rested(s: State): State {
    s.(talk := s.talk.(externalMove := false), engine := s.engine.(movement := None, press := None))
  }

  /** Queues a homing, or goes straight on to `next` where the position is already known to be `direction`. */
  function BeginHoming(s: State, w: World, step: Screen, direction: Direction, next: Next): State {
    if s.place.at == Some(direction) && !s.talk.homeAnyway then Goto(Rested(s), w, next, None)
    else
      BeginMovement(s.(talk := s.talk.(homeAnyway := false)), w, step, Homing, direction, Home(direction), next, None)
  }

  /** A timed run, or the homing that has to come before it. */
  function TimedRun(s: State, w: World, brief: Screen): State {
    var (direction, homingStep, step, next) :=
      if brief == CloseBrief then (Close, Positioning(CloseTimed), CloseStarting, CloseBottom)
      else if brief == OpenBrief then (Open, Positioning(OpenTimed), OpenStarting, OpenLift)
      else (Open, OpenHomeAgain, OpenFullStarting, OpenTop);
    var from := OtherEnd(direction);
    if s.place.at != Some(from) then
      BeginMovement(s, w, homingStep, Homing, from, Home(from), ToScreen(brief), Some(Rehomed))
    else
      BeginMovement(s.(talk := s.talk.(instants := s.talk.instants.(motorStart := None))),
                    w, step, Free, direction, StartFree(direction), ToScreen(next), None)
  }

  // ---------------------------------------------------------------- the plan

  function Index(t: Talk): nat { t.index.GetOr(0) }

  function Least(a: nat, b: nat): (r: nat)
    ensures r <= a && r <= b && (r == a || r == b)
  {
    if a <= b then a else b
  }

  /** The readings that follow position `from` of a plan, up to the first stage that is none. */
  function TapePhase(plan: seq<Stage>, from: nat): (r: seq<Stage>)
    ensures |r| == 0 || from + |r| <= |plan|
    ensures forall i :: 0 <= i < |r| ==>
              r[i] == plan[from + i] && (Movable(r[i]) || r[i] == Verify || r[i] == HeightRead)
    decreases |plan| - from
  {
    if from >= |plan| || !(Movable(plan[from]) || plan[from] == Verify || plan[from] == HeightRead) then []
    else [plan[from]] + TapePhase(plan, from + 1)
  }

  /** The plan with the tape phase after position `start - 1` dealt out again. */
  function Reordered(plan: seq<Stage>, start: nat, at: Option<Direction>): seq<Stage> {
    var phase := TapePhase(plan, start);
    if phase == [] then plan else plan[..start] + OrderOf(phase, at) + plan[start + |phase|..]
  }

  function FractionStage(s: State, w: World, stage: Stage, fraction: real): State {
    var direction := RunDirection(stage);
    var aim := Aim(None, Some((direction, fraction)), stage == VerifyB, FormAfter(stage));
    BeginHoming(s.(talk := s.talk.(aim := aim, check := None)), w, Positioning(stage), OtherEnd(direction), ToTheRun)
  }

  function VariantOf(t: Talk): Variant {
    if t.measured.precise then Precise
    else if t.choice.path == Some(First) then Basic
    else if t.choice.path == Some(Refine) then Correction
    else Short
  }

  function WithoutTheTravel(m: Measured): Measured { m.(height := None, heightMeasured := false) }

  /** A conversation that has yet to time its opening: no press instants, slat phase, lift-off run or gap. */
  function WithoutTheAscent(t: Talk): Talk {
    t.(instants := t.instants.(liftOff := None, stopDelivered := None, motorStopped := None),
       measured := t.measured.(slatSeconds := None, liftRun := None, liftGap := None, liftLate := false))
  }

  function EnterStage(s: State, w: World, stage: Stage): State {
    match stage
    case HomeClosed => BeginHoming(s, w, Positioning(HomeClosed), Close, ToScreen(HomeClosedDone))
    case OpenTimed =>
      BeginHoming(s.(talk := WithoutTheAscent(s.talk)), w, Positioning(OpenTimed), Close, ToScreen(OpenBrief))
    case HeightRead =>
      BeginHoming(if s.talk.stopFirst then s.(talk := s.talk.(measured := WithoutTheTravel(s.talk.measured))) else s,
                  w, Positioning(HeightRead), Open, ToScreen(HeightForm))
    case CloseTimed => BeginHoming(s, w, Positioning(CloseTimed), Open, ToScreen(CloseBrief))
    case TapeBrief =>
      Show(s.(talk := s.talk.(plan := Reordered(s.talk.plan, Index(s.talk) + 1, s.place.at))), w, TapeBriefing)
    case VerifyOffer => Show(s, w, VerifyOffering)
    case ProfileName => Show(s, w, NameForm)
    case Summary =>
      if w.summary.None? then ShowProblem(s, w, BadPoint)
      else
        var variant := VariantOf(s.talk);
        Show(s.(talk := s.talk.(review := Some(Card(variant, w.summary.value)))), w, Summing(variant))
    case VerifyB =>
      if w.halfTravel.None? then ShowProblem(s, w, BadPoint) else FractionStage(s, w, VerifyB, w.halfTravel.value)
    case _ => FractionStage(s, w, stage, FractionOf(stage))
  }

  /** Runs the entry of the stage at the index, first time or again, without the report, error and review it had. */
  function Enter(s: State, w: World): State {
    var s1 := s.(talk := s.talk.(error := None, report := None, review := None));
    if Index(s.talk) >= |s.talk.plan| then Escape(s1) else EnterStage(s1, w, s.talk.plan[Index(s.talk)])
  }

  function EnterWith(s: State, w: World, talk: Talk): State { Enter(s.(talk := talk), w) }

  function StartPlan(s: State, w: World, talk: Talk, plan: seq<Stage>): State {
    EnterWith(s, w, talk.(plan := plan, index := Some(0)))
  }

  function Advance(s: State, w: World): State {
    EnterWith(s, w, s.talk.(index := Some(Index(s.talk) + 1)))
  }

  predicate HeightKnown(m: Measured) { m.height.Some? && m.height.value != 0.0 }

  function StartThorough(s: State, w: World, talk: Talk, fromHere: bool): State {
    var precise := talk.(measured := talk.measured.(precise := true));
    var plan := if HeightKnown(talk.measured) then PLAN_PRECISE else PLAN_PRECISE_TRAVEL;
    if !fromHere then StartPlan(s, w, precise, plan)
    else EnterWith(s, w, precise.(plan := talk.plan[..Least(Index(talk), |talk.plan|)] + plan))
  }

  // ---------------------------------------------------------------- the actions

  predicate TimedOut(s: State, w: World) {
    s.talk.instants.shownAt.Some? && w.now - s.talk.instants.shownAt.value > 90.0
  }

  /** The press is no longer waited for. */
  function Unpressed(s: State): State { s.(engine := s.engine.(press := None, pressTimer := None)) }

  function PressLiftedOff(s: State, w: World): State {
    if TimedOut(s, w) then ShowProblem(s, w, Timeout)
    else
      var pressed := if s.talk.instants.liftOff.None? then Some(w.now) else s.talk.instants.liftOff;
      BeginMovement(Unpressed(s).(talk := s.talk.(instants := s.talk.instants.(liftOff := pressed))),
                    w, LiftStop, Free, Open, StopLift, ToTheLift, None)
  }

  function PressStopped(s: State, w: World, direction: Direction): State {
    if TimedOut(s, w) then ShowProblem(s, w, Timeout)
    else if s.talk.instants.motorStart.None? then Escape(Unpressed(s))
    else
      var run := w.now - s.talk.instants.motorStart.value;
      var slat := s.talk.measured.slatSeconds.GetOr(0.0);
      if run <= 0.0 || (direction == Open && (slat < 0.0 || slat > run)) then ShowProblem(Unpressed(s), w, BadPoint)
      else
        var m := if direction == Open then s.talk.measured.(opening := Some(Timing(Some(slat), run)))
                 else s.talk.measured.(closing := Some(Timing(None, run)));
        Show(s.(talk := s.talk.(measured := m),
                engine := s.engine.(press := None, pressTimer := None, movement := None),
                place := Place(Some(direction), s.place.trace + [Reached(direction)])),
             w, if direction == Close then CloseResult else if m.liftGap.Some? then OpenResultGap else OpenResult)
  }

  function WithoutLast<T>(xs: seq<T>): seq<T> { if xs == [] then [] else xs[..|xs| - 1] }

  /** The reading on the screen taken back. */
  function WithoutTheReading(t: Talk): Talk {
    if t.aim.tapeTarget == Some(Close) then t.(measured := t.measured.(descent := WithoutLast(t.measured.descent)))
    else if t.aim.tapeTarget == Some(Open) then t.(measured := t.measured.(ascent := WithoutLast(t.measured.ascent)))
    else t
  }

  /** Path B's check put into the plan right after the stage that offers it. */
  function Grafted(plan: seq<Stage>, index: nat): seq<Stage> {
    plan[..Least(index + 1, |plan|)] + [VerifyB] + plan[Least(index + 1, |plan|)..]
  }

  function AdoptTheTimes(s: State, w: World): State {
    var talk := s.talk.(choice := s.talk.choice.(scope := Some(PointsOnly)));
    if w.inUse.None? then AsyncEnd(s.(talk := talk), w, CoverGone, true)
    else
      var u := w.inUse.value;
      var m := talk.measured.(opening := Some(Timing(Some(u.slat), u.opening)),
                              closing := Some(Timing(None, u.closing)), timesAdopted := true);
      StartThorough(s, w, talk.(measured := m), false)
  }

  function Chose(t: Talk, path: Route): Talk { t.(choice := t.choice.(path := Some(path))) }

  function Scoped(t: Talk, scope: Scope): Talk { t.(choice := t.choice.(scope := Some(scope))) }

  function Do(s: State, w: World, action: Action): State {
    match action
    case ChooseFirst => Show(s.(talk := Chose(s.talk, First)), w, PathAWarning)
    case Begin => StartPlan(s, w, Chose(s.talk, First).(measured := NOTHING_MEASURED), PLAN_FULL)
    case ChooseProfile => Show(s.(talk := Chose(s.talk, Profile)), w, PathBForm)
    case ChooseRefine => Show(s.(talk := Chose(s.talk, Refine).(check := None)), w, PathCForm)
    case DoTimesOnly => StartPlan(s, w, Scoped(s.talk, TimesOnly), PLAN_TIMES)
    case DoTimesAndRolls => StartPlan(s, w, Scoped(s.talk, TimesAndRolls), PLAN_TIMES_AND_ROLLS)
    case DoPointsOnly => AdoptTheTimes(s, w)
    case GoThorough => StartThorough(s, w, s.talk, true)
    case VerifyNow => Advance(s.(talk := s.talk.(plan := Grafted(s.talk.plan, Index(s.talk)))), w)
    case SkipVerify | ConfirmClosed | AcceptStep | StartTape => Advance(s, w)
    case ConfirmClosedAgain => Show(s, w, OpenFullBrief)
    case RepeatStep => EnterWith(s, w, s.talk.(homeAnyway := true))
    case NotRight => EnterWith(s, w, s.talk.(stopFirst := true, homeAnyway := true))
    case StartOpening => TimedRun(s, w, OpenBrief)
    case StartFullOpening => TimedRun(s, w, OpenFullBrief)
    case StartClosing => TimedRun(s, w, CloseBrief)
    case LiftedOff => PressLiftedOff(s, w)
    case LiftTooEarly => Enter(s, w)
    case LiftAccept => BeginHoming(s, w, OpenHomeAgain, Close, ToScreen(ClosedAgain))
    case LiftByTape => Show(s, w, LiftGap)
    case StoppedOpen => PressStopped(s, w, Open)
    case StoppedClosed => PressStopped(s, w, Close)
    case RepeatMeasure => Show(s.(talk := s.talk.(measured := WithoutTheTravel(s.talk.measured))), w, HeightForm)
    case RepeatTape => EnterWith(s, w, WithoutTheReading(s.talk))
    case TapeNotRight => EnterWith(s, w, WithoutTheReading(s.talk).(stopFirst := true, homeAnyway := true))
    case Submit => s
  }

  // ---------------------------------------------------------------- the forms

  function ShowMeasured(s: State, w: World, m: Measured, step: Screen): State {
    Show(s.(talk := s.talk.(measured := m)), w, step)
  }

  function SubmitHeight(s: State, w: World, v: Value): State {
    if !v.Number? then ShowWith(s, w, HeightForm, Some(NotANumber), None)
    else if !(20.0 <= v.n <= 500.0) then ShowWith(s, w, HeightForm, Some(OutOfRange), None)
    else ShowMeasured(s, w, s.talk.measured.(height := Some(v.n), heightMeasured := true), HeightResult)
  }

  function SubmitGap(s: State, w: World, v: Value): State {
    if v.Blank? then BeginHoming(s, w, OpenHomeAgain, Close, ToScreen(ClosedAgain))
    else if !v.Number? then ShowWith(s, w, LiftGap, Some(NotANumber), None)
    else if !(0.0 <= v.n <= 50.0) then ShowWith(s, w, LiftGap, Some(OutOfRange), None)
    else if v.n < 1.0 then Show(s, w, LiftEarly)
    else
      BeginHoming(s.(talk := s.talk.(measured := s.talk.measured.(liftGap := Some(v.n)))),
                  w, OpenHomeAgain, Close, ToScreen(ClosedAgain))
  }

  /** The gap of a check: to half the travel where that was the aim, else to what the model predicts. */
  function GapOfTheCheck(t: Talk, p: Prediction, cm: real): Option<real> {
    if p == NoModel || !HeightKnown(t.measured) then None
    else if t.aim.halfTravel then Some(cm - t.measured.height.value / 2.0)
    else if t.report.None? || !p.Predicts? then None
    else Some(cm - p.cm)
  }

  function Verified(s: State, w: World, cm: real): State {
    if w.prediction == CannotFit then ShowProblem(s, w, BadPoint)
    else
      var gap := GapOfTheCheck(s.talk, w.prediction, cm);
      var fraction := s.talk.aim.pending.GetOr((Close, 0.4)).1;
      var m := s.talk.measured.(deviation := gap, verifyFraction := Some(fraction));
      Show(s.(talk := s.talk.(measured := m, aim := s.talk.aim.(tapeTarget := None),
                              check := Some(Check(cm, fraction, gap)))), w, VerifyResult)
  }

  function SubmitReading(s: State, w: World, v: Value): State {
    var t := s.talk;
    var step := t.shown.step;
    if !v.Number? then ShowWith(s, w, step, Some(NotANumber), None)
    else if v.n < 0.0 then ShowWith(s, w, step, Some(OutOfRange), None)
    else if t.measured.height.Some? && v.n > t.measured.height.value
    then ShowWith(s, w, step, Some(AboveTheTravel), None)
    else if step == MeasureVerify then Verified(s, w, v.n)
    else if t.report.None? then ShowWith(s, w, step, Some(AboveTheTravel), None)
    else
      var point := (t.report.value, v.n);
      if step == MeasureDescent then
        Show(s.(talk := t.(measured := t.measured.(descent := t.measured.descent + [point]),
                           aim := t.aim.(tapeTarget := Some(Close)))), w, TapeResult)
      else
        Show(s.(talk := t.(measured := t.measured.(ascent := t.measured.ascent + [point]),
                           aim := t.aim.(tapeTarget := Some(Open)))), w, TapeResult)
  }

  function Written(v: Value): string { if v.Text? then v.t else "" }

  predicate IsAName(name: string) {
    && 1 <= |name| <= 64
    && (forall i :: 0 <= i < |name| ==>
          'a' <= name[i] <= 'z' || 'A' <= name[i] <= 'Z' || '0' <= name[i] <= '9' || name[i] == '_')
    && name != "no_profile"
  }

  /** The conversation as a correction of `name` begins: nothing measured but a height, the one read here if any. */
  function Correcting(t: Talk, ownHeight: Option<real>, name: string): Talk {
    var height := if HeightKnown(t.measured) then t.measured.height else ownHeight;
    t.(choice := t.choice.(profile := Some(name), scope := None), check := None, review := None,
       measured := NOTHING_MEASURED.(height := height,
                                     heightMeasured := t.measured.height.Some? && t.measured.heightMeasured))
  }

  function SubmitProfile(s: State, w: World, name: string): State {
    if s.talk.choice.path == Some(Refine) then Show(s.(talk := Correcting(s.talk, w.ownHeight, name)), w, RefineScope)
    else
      StartPlan(s, w, s.talk.(choice := s.talk.choice.(profile := Some(name)), measured := NOTHING_MEASURED),
                PLAN_PROFILE)
  }

  function SubmitName(s: State, w: World, name: string): State {
    if !IsAName(name) then ShowWith(s, w, NameForm, Some(InvalidName), None)
    else Advance(s.(talk := s.talk.(choice := s.talk.choice.(name := Some(name)))), w)
  }

  function DoSubmit(s: State, w: World, field: Field, v: Value): State {
    match field
    case HeightField => SubmitHeight(s, w, v)
    case GapField => SubmitGap(s, w, v)
    case ReadingField => SubmitReading(s, w, v)
    case NameField => SubmitName(s, w, Written(v))
    case ProfileField => SubmitProfile(s, w, Written(v))
  }

  // ---------------------------------------------------------------- the pump

  function Pump(s: State): State {
    if s.engine.queued.None? || s.engine.pumping then s
    else s.(engine := s.engine.(pumping := true, tasks := s.engine.tasks + [Looping]))
  }

  predicate Overtaken(s: State, job: Job) { job.generation != s.engine.generation || s.life.ended }

  function FrameOf(p: Primitive): Happening {
    match p
    case Home(d) => HomeFrame(d)
    case StartFree(d) => FreeFrame(d)
    case StopLift => StopFrame
    case RunTo(d, _) => RunFrame(d)
  }

  /** What the finished primitive measured, written into the session. */
  function Settle(s: State, p: Primitive, answer: Answer): State
    requires answer.Done?
  {
    var i := s.talk.instants;
    match p
    case Home(d) => s.(place := Place(Some(d), s.place.trace + [Reached(d)]))
    case StartFree(_) => s.(talk := s.talk.(instants := i.(motorStart := Some(answer.first))))
    case StopLift =>
      s.(talk := s.talk.(instants := i.(stopDelivered := Some(answer.first), motorStopped := Some(answer.second))))
    case RunTo(_, _) => s.(talk := s.talk.(report := Some(answer.first)))
  }

  function ErrorOf(answer: Answer): Option<Reason> {
    match answer
    case Done(_, _) => None
    case Failed(r) => Some(if IsProblemReason(r) || r == UnknownCover then r else Unknown)
    case FailedOtherwise => Some(Unknown)
  }

  function TaskBecomes(s: State, which: nat, task: Task): State
    requires which < |s.engine.tasks|
  {
    s.(engine := s.engine.(tasks := s.engine.tasks[which := task]))
  }

  /** The end of a job: nothing of it is written once something has overtaken it, but its error. */
  function Complete(s: State, w: World, which: nat, job: Job, answer: Answer): State
    requires which < |s.engine.tasks|
  {
    var error := if answer.Done? then s.talk.error else ErrorOf(answer);
    var s1 := TaskBecomes(s, which, Looping).(talk := s.talk.(error := error));
    if Overtaken(s1, job) then s1 else Conclude(s1, w, job, answer, error)
  }

  /** A job nothing overtook: settled and handed over, or turned into a problem screen. */
  function Conclude(s: State, w: World, job: Job, answer: Answer, error: Option<Reason>): State {
    if error.None? && answer.Done? then
      var s1 := Settle(s, job.primitive, answer);
      var goesOn := job.next.ToScreen? && IsPress(job.next.screen);
      Goto(if goesOn then s1 else s1.(engine := s1.engine.(movement := None)), w, job.next, job.notice)
    else
      var s1 := s.(engine := s.engine.(movement := None));
      if error == Some(UnknownCover) then AsyncEnd(s1, w, CoverGone, true)
      else ShowProblem(s1, w, error.GetOr(Unknown))
  }

  /** The frame goes out, if there is a cover to send it to. */
  function Launch(s: State, w: World, which: nat, job: Job): State
    requires which < |s.engine.tasks|
  {
    if !w.coverThere then Complete(s, w, which, job, Failed(UnknownCover))
    else Happens(TaskBecomes(s, which, Driving(job)), FrameOf(job.primitive))
  }

  function StartJob(s: State, w: World, which: nat, job: Job): State
    requires which < |s.engine.tasks|
  {
    if Overtaken(s, job) then s
    else
      var s1 := s.(talk := s.talk.(error := None, stopFirst := false), place := s.place.(at := None));
      if s.talk.stopFirst && w.coverThere then Happens(TaskBecomes(s1, which, Stopping(job)), StopFrame)
      else Launch(s1, w, which, job)
  }

  function Without<T>(xs: seq<T>, i: nat): seq<T>
    requires i < |xs|
  {
    xs[..i] + xs[i + 1..]
  }

  /** One turn of a pump task: it takes the queue, or resumes from the stop or the primitive it awaits. */
  function RunTask(s: State, w: World, which: nat, answer: Answer): State
    requires which < |s.engine.tasks|
  {
    match s.engine.tasks[which]
    case Looping =>
      if s.engine.queued.None? then
        s.(engine := s.engine.(pumping := false, tasks := Without(s.engine.tasks, which)))
      else StartJob(s.(engine := s.engine.(queued := None)), w, which, s.engine.queued.value)
    case Stopping(job) =>
      if answer.FailedOtherwise? then Complete(s, w, which, job, answer)
      else if Overtaken(s, job) then TaskBecomes(s, which, Looping)
      else Launch(s, w, which, job)
    case Driving(job) => Complete(s, w, which, job, answer)
  }

  // ---------------------------------------------------------------- the verbs

  /** `round(abs(deviation), 1) > 4.0`: 4.05 itself rounds half to even, down. */
  predicate OffersTheCorrection(t: Talk) {
    var d := t.measured.deviation.GetOr(0.0);
    t.choice.path == Some(Profile) && (d > 4.05 || -d > 4.05)
  }

  /** What a screen lets a client do: its menu, as the notice, the profiles there are and the
      verdict of a check narrow or widen it, or its form. */
  predicate Offered(t: Talk, w: World, action: Action) {
    var step := t.shown.step;
    if action == Submit then FormOf(step).Some?
    else if t.shown.notice == Some(ReadingStale) then action == RepeatTape
    else if step == ChoosePath && w.profiles == {} then action == ChooseFirst
    else Offers(step, action) || (step == VerifyResult && OffersTheCorrection(t) && action == ChooseRefine)
  }

  datatype Refusal =
    | SessionEnded | SessionOwned | RevisionConflict | NotOffered | UnknownProfile | NotInReview | BadName

  /** The four guards of `act`, in their order. */
  function GuardAct(s: State, w: World, client: string, revision: nat, action: Action): Option<Refusal> {
    if s.life.ended then Some(SessionEnded)
    else if OwnedByAnother(s.life, w.now, client, false) then Some(SessionOwned)
    else if revision != s.life.revision then Some(RevisionConflict)
    else if !Offered(s.talk, w, action) then Some(NotOffered)
    else None
  }

  /** The one refusal an act can meet after it has taken the session: a profile nobody defines. */
  predicate NamesNoProfile(t: Talk, w: World, action: Action, value: Value) {
    action == Submit && FormOf(t.shown.step) == Some(ProfileField) && Written(value) !in w.profiles
  }

  /** What every verb that passes its guards does first: `client` owns the session and the lease runs anew. */
  function Taken(s: State, w: World, client: string): State { Touch(Take(s, w, client), w) }

  function Carried(s: State, w: World, action: Action, value: Value): State {
    if action == Submit then DoSubmit(s, w, FormOf(s.talk.shown.step).GetOr(HeightField), value) else Do(s, w, action)
  }

  function TurnAct(s: State, w: World, client: string, revision: nat, action: Action, value: Value): State {
    if GuardAct(s, w, client, revision, action).Some? then s
    else if NamesNoProfile(s.talk, w, action, value) then Taken(s, w, client)
    else Pump(Carried(Taken(s, w, client), w, action, value))
  }

  /** Up to the stop frame, and back from it. Between the two the source waits for the bus. */
  function StopSends(s: State, w: World, client: string): State {
    var s1 := Taken(s, w, client);
    if s.engine.movement.Some? then s1.(engine := Overtake(s1.engine)) else s1
  }

  function StopRefused(w: World, answer: Answer): Option<Reason> {
    if !w.coverThere then Some(Unknown)
    else match answer
         case Done(_, _) => None
         case Failed(r) => Some(if IsProblemReason(r) then r else Unknown)
         case FailedOtherwise => Some(Unknown)
  }

  function StopReturns(s: State, w: World, interrupting: bool, answer: Answer): State {
    var s1 := if w.coverThere then Happens(s, if interrupting then StopFrame else IdleStop) else s;
    if !interrupting then s1
    else
      ShowProblem(s1.(engine := s1.engine.(movement := None, press := None, pressTimer := None),
                      place := s1.place.(at := None)), w, StopRefused(w, answer).GetOr(Interrupted))
  }

  /** The whole of `stop`, with nothing between its two halves. */
  function TurnStop(s: State, w: World, client: string, answer: Answer): State {
    if s.life.ended || OwnedByAnother(s.life, w.now, client, false) then s
    else StopReturns(StopSends(s, w, client), w, s.engine.movement.Some?, answer)
  }

  function TurnAttach(s: State, w: World, client: string, claim: bool): State {
    if !s.life.ended && (claim || !Present(s.life, w.now) || s.life.owner == Some(client)) then
      if s.life.owner != Some(client) then Publish(Take(s, w, client), w) else Take(s, w, client)
    else s
  }

  function TurnHeartbeat(s: State, w: World, client: string): State {
    if s.life.ended || s.life.owner != Some(client) then s else s.(life := s.life.(ownerSeen := w.now))
  }

  predicate AnythingMeasured(t: Talk) {
    var m := t.measured;
    m.heightMeasured || m.opening.Some? || m.closing.Some? || m.slatSeconds.Some? || m.liftRun.Some?
    || m.descent != [] || m.ascent != [] || m.deviation.Some? || t.choice.name.Some?
  }

  function TurnLeave(s: State, w: World, client: string): State {
    if s.life.ended || s.life.owner != Some(client) then s
    else if !AnythingMeasured(s.talk) then End(s, w, Left)
    else Publish(s.(life := s.life.(owner := None)), w)
  }

  function TurnCancel(s: State, w: World, client: string, force: bool): State {
    if s.life.ended || OwnedByAnother(s.life, w.now, client, force) then s
    else AsyncEnd(Take(s, w, client), w, Cancelled, false)
  }

  function Targets(t: Talk): seq<Target> {
    if t.choice.path == Some(First) then [ProfileTarget, CoverOnly]
    else if t.choice.path == Some(Profile) then [ProfileTarget]
    else [CoverOnly]
  }

  function GuardSave(s: State, w: World, client: string, revision: nat, target: Target): Option<Refusal> {
    var c := s.talk.choice;
    var name := if c.name.Some? then c.name.value else c.profile.GetOr("");
    if s.life.ended then Some(SessionEnded)
    else if OwnedByAnother(s.life, w.now, client, false) then Some(SessionOwned)
    else if !s.talk.shown.step.Summing? || s.talk.review.None? then Some(NotInReview)
    else if revision != s.life.revision then Some(RevisionConflict)
    else if target !in Targets(s.talk) then Some(NotOffered)
    else if target == ProfileTarget && c.path == Some(First) && !IsAName(name) then Some(BadName)
    else None
  }

  function TurnSave(s: State, w: World, client: string, revision: nat, target: Target): State {
    if GuardSave(s, w, client, revision, target).Some? then s
    else
      var s1 := Taken(s, w, client);
      s1.(life := s1.life.(saves := s1.life.saves + [target]))
  }

  function TurnSaveReturns(s: State, w: World, which: nat, written: bool): State {
    if which >= |s.life.saves| then s
    else
      var s1 := s.(life := s.life.(saves := Without(s.life.saves, which)));
      if written then Finish(s1, w, Saved) else s1
  }

  // ---------------------------------------------------------------- the timers and the shutter

  function TurnPressTimer(s: State, w: World): State {
    if s.engine.pressTimer.None? then s
    else if s.life.ended || s.engine.press.None? then s.(engine := s.engine.(pressTimer := None))
    else
      ShowProblem(s.(engine := Overtake(s.engine).(pressTimer := None, press := None, movement := None)), w, Timeout)
  }

  function TurnLeaseTimer(s: State, w: World): State {
    if s.life.lease.None? then s else AsyncEnd(s.(life := s.life.(lease := None)), w, Expired, true)
  }

  function External(s: State, w: World): State {
    var s1 := s.(talk := s.talk.(externalMove := true), place := Place(None, s.place.trace + [Moved]));
    var mode := ModeOf(s.talk.shown.step);
    if mode.Running? || mode.Setting? then Interrupt(s1, w)
    else if IsTapeForm(s.talk.shown.step) then ShowWith(s1, w, s.talk.shown.step, None, Some(ReadingStale))
    else Publish(s1, w)
  }

  function TurnCoverMoves(s: State, w: World, direction: Direction): State {
    if s.life.ended || (s.engine.movement.Some? && s.engine.movement.value.direction == direction) then s
    else External(s, w)
  }

  function TurnCoverRests(s: State, w: World, wasMoving: bool): State {
    if !s.life.ended && wasMoving && s.engine.press == Some(LiftOffPress) then Interrupt(s, w) else s
  }

  function TurnEndingReturns(s: State, w: World, which: nat): State {
    if which >= |s.life.endings| then s
    else End(s.(life := s.life.(endings := Without(s.life.endings, which))), w, s.life.endings[which])
  }

  // ---------------------------------------------------------------- the machine

  function Turn(s: State, w: World, e: Event): State {
    match e
    case Act(client, revision, action, value) => TurnAct(s, w, client, revision, action, value)
    case Stop(client, answer) => TurnStop(s, w, client, answer)
    case Attach(client, claim) => TurnAttach(s, w, client, claim)
    case Heartbeat(client) => TurnHeartbeat(s, w, client)
    case Leave(client) => TurnLeave(s, w, client)
    case Cancel(client, force) => TurnCancel(s, w, client, force)
    case Save(client, revision, target) => TurnSave(s, w, client, revision, target)
    case SaveReturns(which, written) => TurnSaveReturns(s, w, which, written)
    case PressTimer => TurnPressTimer(s, w)
    case LeaseTimer => TurnLeaseTimer(s, w)
    case CoverMoves(direction) => TurnCoverMoves(s, w, direction)
    case CoverRests(wasMoving) => TurnCoverRests(s, w, wasMoving)
    case Unload => AsyncEnd(s, w, Unloaded, true)
    case EndingReturns(which) => TurnEndingReturns(s, w, which)
    case TaskTurn(which, answer) => if which < |s.engine.tasks| then RunTask(s, w, which, answer) else s
  }

  function FreshTalk(path: Option<Route>, profile: Option<string>, ownHeight: Option<real>): Talk {
    var t := Talk(Choice(path, None, None, None), [], None, NOTHING_MEASURED, Shown(ChoosePath, None, None, None),
                  Aim(None, None, false, MeasureDescent), Instants(None, None, None, None, None), None, None,
                  None, None, false, false, false, false);
    match path
    case None => t
    case Some(First) => t.(shown := t.shown.(step := PathAWarning))
    case Some(Profile) => t.(choice := t.choice.(profile := profile), shown := t.shown.(step := PathBForm))
    case Some(Refine) =>
      if profile.None? then t.(shown := t.shown.(step := PathCForm))
      else Correcting(t, ownHeight, profile.value).(shown := t.shown.(step := RefineScope))
  }

  /** The session as `begin` publishes it: nothing has moved. */
  function Born(w: World, client: string, path: Option<Route>, profile: Option<string>): State {
    Publish(State(FreshTalk(path, profile, w.ownHeight),
                  Engine(None, None, None, None, false, 0, []),
                  Place(None, []),
                  Life(Some(client), w.now, None, 0, false, None, None, true, [], [])), w)
  }

  function Run(s: State, turns: seq<(World, Event)>): State
    decreases |turns|
  {
    if turns == [] then s else Run(Turn(s, turns[0].0, turns[0].1), turns[1..])
  }
}
