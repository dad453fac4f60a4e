/** What the steps of a session promise: what is queued and when nothing is, what comes of a job, of a press,
    of a tape reading, of somebody else's movement and of an ending. */
module Steps {
  import opened Wrappers
  import opened Plans
  import opened Screens
  import opened Session
  import opened SessionInvariant
  import opened SessionProof
  import opened SessionTurns
  import opened SessionEffects
  import opened Revisions
  import opened Endings
  import opened Safety

  // ---------------------------------------------------------------- what an act queues

  /** An act that gets through ends the session only when it adopts times that are gone with no stop to wait for.
      Otherwise it ends on a movement's screen exactly when it has queued a job that nothing has overtaken; a
      pump is then running to take it, and nothing else is live. On any other screen nothing is. */
  lemma ActQueues(s: State, w: World, client: string, a: Action, v: Value)
    requires Inv(s) && GuardAct(s, w, client, s.life.revision, a).None?
    ensures var r := Turn(s, w, Act(client, s.life.revision, a, v));
            && (r.life.ended <==> EndsTheSession(w, a) && !WaitsForAStop(w))
            && (!EndsTheSession(w, a) ==> r.engine.generation == s.engine.generation)
            && (!r.life.ended ==>
                  && (IsMoving(r.talk.shown.step) <==> LiveQueue(r.engine))
                  && (LiveQueue(r.engine) ==>
                        r.engine.pumping && JobFits(r.talk, r.engine.queued.value) && NoLiveTask(r.engine))
                  && (!LiveQueue(r.engine) ==> NoLiveJob(r.engine)))
  {
    hide Inv, Turn, GuardAct, Offered, NamesNoProfile, Taken, NoLiveTask, NoLiveJob, IsMoving, JobFits;
    GuardsMean(s, w, client, a);
    var r := Turn(s, w, Act(client, s.life.revision, a, v));
    if NamesNoProfile(s.talk, w, a, v) {
      NamedIsQuiet(s, w, client, a, v);
    } else if EndsTheSession(w, a) {
      AdoptionIsQuiet(s, w, client, a, v);
    } else {
      CarriedQueues(s, w, client, a, v);
    }
  }

  lemma NamedIsQuiet(s: State, w: World, client: string, a: Action, v: Value)
    requires Inv(s) && GuardAct(s, w, client, s.life.revision, a).None? && NamesNoProfile(s.talk, w, a, v)
    ensures var r := Turn(s, w, Act(client, s.life.revision, a, v));
            && !EndsTheSession(w, a) && !r.life.ended && r.engine.generation == s.engine.generation
            && !IsMoving(r.talk.shown.step) && !LiveQueue(r.engine) && NoLiveJob(r.engine)
  {
    hide Inv, Settled, Idle, Taken, GuardAct, Offered, NoLiveJob, LiveQueue;
    GuardsMean(s, w, client, a);
    LiveIsSettled(s);
    OfferedIsIdle(s, w, a);
    TakenCounts(s, w, client);
    IdleIsQuiet(s);
  }

  lemma IdleIsQuiet(s: State)
    requires Idle(s)
    ensures NoLiveJob(s.engine) && !LiveQueue(s.engine)
  {
  }

  lemma AdoptionIsQuiet(s: State, w: World, client: string, a: Action, v: Value)
    requires Inv(s) && GuardAct(s, w, client, s.life.revision, a).None? && EndsTheSession(w, a)
    ensures var r := Turn(s, w, Act(client, s.life.revision, a, v));
            && (r.life.ended <==> !WaitsForAStop(w))
            && (!r.life.ended ==> !IsMoving(r.talk.shown.step) && !LiveQueue(r.engine) && NoLiveJob(r.engine))
  {
    hide Inv, Settled, Taken, GuardAct, Offered, NoLiveJob, LiveQueue, End, Do;
    GuardsMean(s, w, client, a);
    PlanScreens(s.talk, w, a);
    LiveIsSettled(s);
    var s1 := Taken(s, w, client);
    TakenCounts(s, w, client);
    PointsOnlyAdopts(s1, w);
    var e := s.engine.(generation := s.engine.generation + 1);
    NothingLiveLeft(s, e);
    QuietQueue(e);
    QueueIsPumped(s);
    EndGoes(NextGeneration(s1.(talk := Scoped(s1.talk, PointsOnly))), w, CoverGone);
  }

  lemma QueueIsPumped(s: State)
    requires Inv(s)
    ensures s.engine.queued.Some? ==> s.engine.pumping
  {
    hide Settled, Over;
  }

  lemma QuietQueue(e: Engine)
    requires NoLiveJob(e)
    ensures !LiveQueue(e)
  {
  }

  lemma CarriedQueues(s: State, w: World, client: string, a: Action, v: Value)
    requires Inv(s) && GuardAct(s, w, client, s.life.revision, a).None?
    requires !NamesNoProfile(s.talk, w, a, v) && !EndsTheSession(w, a)
    ensures var r := Turn(s, w, Act(client, s.life.revision, a, v));
            && !r.life.ended && r.engine.generation == s.engine.generation
            && (IsMoving(r.talk.shown.step) <==> LiveQueue(r.engine))
            && (LiveQueue(r.engine)
                ==> r.engine.pumping && JobFits(r.talk, r.engine.queued.value) && NoLiveTask(r.engine))
            && (!LiveQueue(r.engine) ==> NoLiveJob(r.engine))
  {
    var s1 := Taken(s, w, client);
    var r := TurnAct(s, w, client, s.life.revision, a, v);
    ActCarries(s, w, client, s.life.revision, a, v);
    ActKeeps(s, w, client, s.life.revision, a, v);
    TakenCounts(s, w, client);
    PumpQueues(Carried(s1, w, a, v));
    hide Taken, Do, DoSubmit, Pump, GuardAct, NamesNoProfile, Carried, Settled, Over, IsMoving, JobFits, NoLiveTask;
    GuardsMean(s, w, client, a);
    LiveIsSettled(r);
    QueueShows(r);
  }

  lemma GuardsMean(s: State, w: World, client: string, a: Action)
    requires GuardAct(s, w, client, s.life.revision, a).None?
    ensures !s.life.ended && Offered(s.talk, w, a)
  {
  }

  lemma PumpQueues(s: State)
    ensures var r := Pump(s); r.talk == s.talk && r.life == s.life && r.engine.queued == s.engine.queued
                              && r.engine.generation == s.engine.generation
  {
  }

  lemma QueueShows(s: State)
    requires Settled(s)
    ensures LiveQueue(s.engine) ==>
              IsMoving(s.talk.shown.step) && JobFits(s.talk, s.engine.queued.value) && NoLiveTask(s.engine)
    ensures !IsMoving(s.talk.shown.step) ==> NoLiveJob(s.engine)
  {
    hide TasksKept, TrustKept, LifeKept, TalkKept, MovingKept;
  }

  // ---------------------------------------------------------------- homings

  /** The run a reading asks for as it is entered: its own, and path B's check the part that spends half the travel. */
  predicate AsksFor(w: World, stage: Stage, run: (Direction, real)) {
    RunsFor(stage, run) && (stage.VerifyB? ==> w.halfTravel == Some(run.1))
  }

  /** How a stage that opens with a homing is entered from `s`. */
  ghost predicate Opened(s: State, w: World, r: State, stage: Stage, homeAnyway: bool) {
    var homes := LiveQueue(r.engine) && r.engine.queued.value.primitive == Home(HomingEnd(stage));
    && r.place == s.place && (homes || IsReading(stage) ==> !r.talk.homeAnyway && !r.talk.externalMove)
    && (homes <==> s.place.at != Some(HomingEnd(stage)) || homeAnyway)
    && (homes ==> r.talk.shown.step == Positioning(stage))
    && (IsReading(stage) ==> r.talk.aim.pending.Some? && AsksFor(w, stage, r.talk.aim.pending.value))
    && (!homes && IsReading(stage) ==>
          && var (way, part) := r.talk.aim.pending.value;
             LiveQueue(r.engine) && r.engine.queued.value.primitive == RunTo(way, part) && r.talk.shown.step == TapeRun
             && r.place.at == Some(OtherEnd(way)))
    && (!homes && !IsReading(stage) ==>
          NoLiveJob(r.engine) && r.engine.movement.None? && r.engine.press.None?
          && ToScreen(r.talk.shown.step) == HomingNext(stage))
  }

  lemma HomingOpens(s: State, w: World, stage: Stage)
    requires NoLiveJob(s.engine) && HomesFirst(stage)
    requires IsReading(stage) ==> s.talk.aim.pending.Some? && AsksFor(w, stage, s.talk.aim.pending.value)
    ensures Opened(s, w, BeginHoming(s, w, Positioning(stage), HomingEnd(stage), HomingNext(stage)), stage,
                   s.talk.homeAnyway)
  {
    hide BeginMovement, Goto, Opened;
    var d := HomingEnd(stage);
    if s.place.at == Some(d) && !s.talk.homeAnyway {
      SkippedOpens(s, w, stage);
    } else {
      var s1 := s.(talk := s.talk.(homeAnyway := false));
      MadeOpens(s, s1, w, stage);
    }
  }

  lemma MadeOpens(s: State, s1: State, w: World, stage: Stage)
    requires s1.place == s.place && (s.place.at != Some(HomingEnd(stage)) || s.talk.homeAnyway) && !s1.talk.homeAnyway
    requires IsReading(stage) ==> s1.talk.aim.pending.Some? && AsksFor(w, stage, s1.talk.aim.pending.value)
    ensures var d := HomingEnd(stage);
            Opened(s, w, BeginMovement(s1, w, Positioning(stage), Homing, d, Home(d), HomingNext(stage), None), stage,
                   s.talk.homeAnyway)
  {
    hide BeginMovement;
    var d := HomingEnd(stage);
    MovementQueues(s1, w, Positioning(stage), Homing, d, Home(d), HomingNext(stage), None);
  }

  lemma SkippedOpens(s: State, w: World, stage: Stage)
    requires NoLiveJob(s.engine) && HomesFirst(stage) && s.place.at == Some(HomingEnd(stage)) && !s.talk.homeAnyway
    requires IsReading(stage) ==> s.talk.aim.pending.Some? && AsksFor(w, stage, s.talk.aim.pending.value)
    ensures Opened(s, w, Goto(Rested(s), w, HomingNext(stage), None), stage, s.talk.homeAnyway)
  {
    hide Goto, Opened, AsksFor, NoLiveJob;
    if IsReading(stage) { RunOpens(s, w, stage); } else { ScreenOpens(s, w, stage); }
  }

  lemma RunOpens(s: State, w: World, stage: Stage)
    requires IsReading(stage) && s.place.at == Some(HomingEnd(stage)) && !s.talk.homeAnyway
    requires s.talk.aim.pending.Some? && AsksFor(w, stage, s.talk.aim.pending.value)
    ensures Opened(s, w, Goto(Rested(s), w, HomingNext(stage), None), stage, s.talk.homeAnyway)
  {
    hide BeginMovement, LiftMeasured, ArmPress, ShowWith, NoLiveJob;
    var (way, fraction) := s.talk.aim.pending.value;
    MovementQueues(Rested(s), w, TapeRun, Fraction, way, RunTo(way, fraction), ToScreen(s.talk.aim.form), None);
  }

  lemma ScreenOpens(s: State, w: World, stage: Stage)
    requires NoLiveJob(s.engine) && HomesFirst(stage) && !IsReading(stage)
    requires s.place.at == Some(HomingEnd(stage)) && !s.talk.homeAnyway
    ensures Opened(s, w, Goto(Rested(s), w, HomingNext(stage), None), stage, s.talk.homeAnyway)
  {
    hide BeginMovement, LiftMeasured, ArmPress, AsksFor;
  }

  lemma MovementQueues(s: State, w: World, step: Screen, kind: Kind, direction: Direction,
                       p: Primitive, next: Next, notice: Option<Notice>)
    ensures var r := BeginMovement(s, w, step, kind, direction, p, next, notice);
            && r.engine.queued == Some(Job(p, next, notice, s.engine.generation)) && LiveQueue(r.engine)
            && r.place == s.place && r.talk.shown.step == step && r.life.owner == s.life.owner
            && r.talk.stopFirst == s.talk.stopFirst && r.talk.aim == s.talk.aim
            && r.talk.homeAnyway == s.talk.homeAnyway && !r.talk.externalMove
  {
  }

  lemma OpenedFrom(s: State, s1: State, w: World, r: State, stage: Stage, homeAnyway: bool)
    requires Opened(s1, w, r, stage, homeAnyway) && s1.place == s.place
    ensures Opened(s, w, r, stage, homeAnyway)
  {
  }

  /** A stage that opens with a homing queues it exactly where the session has not just put the shutter at that
      end stop, or was told to home anyway. Skipped, a reading's run is queued at once, from the end stop it
      starts at, and any other stage shows its own screen with nothing under way. Where the shutter is
      known to be is the same after as before. */
  lemma StageOpens(s: State, w: World, talk: Talk)
    requires NoLiveJob(s.engine) && OnPlan(talk) && HomesFirst(talk.plan[talk.index.value])
    requires talk.plan[talk.index.value] == VerifyB ==> w.halfTravel.Some?
    ensures Opened(s, w, EnterWith(s, w, talk), talk.plan[talk.index.value], talk.homeAnyway)
  {
    hide NoLiveJob, Opened, FractionStage, BeginHoming, AsksFor;
    var stage := talk.plan[talk.index.value];
    var s0 := s.(talk := talk.(error := None, report := None, review := None));
    if IsReading(stage) {
      var fraction := if stage.VerifyB? then w.halfTravel.value else FractionOf(stage);
      FractionIsAsked(w, stage, fraction);
      ReadingOpens(s0, w, stage, fraction);
    } else { HomedOpens(s0, w, stage); }
    OpenedFrom(s, s0, w, EnterStage(s0, w, stage), stage, talk.homeAnyway);
  }

  lemma FractionIsAsked(w: World, stage: Stage, fraction: real)
    requires IsReading(stage)
    requires if stage.VerifyB? then w.halfTravel == Some(fraction) else fraction == FractionOf(stage)
    ensures AsksFor(w, stage, (RunDirection(stage), fraction))
  {
  }

  lemma ReadingOpens(s: State, w: World, stage: Stage, fraction: real)
    requires NoLiveJob(s.engine) && IsReading(stage) && AsksFor(w, stage, (RunDirection(stage), fraction))
    ensures Opened(s, w, FractionStage(s, w, stage, fraction), stage, s.talk.homeAnyway)
  {
    hide NoLiveJob, Opened, BeginHoming, AsksFor;
    var aim := Aim(None, Some((RunDirection(stage), fraction)), stage == VerifyB, FormAfter(stage));
    var s1 := s.(talk := s.talk.(aim := aim, check := None));
    HomingOpens(s1, w, stage);
    OpenedFrom(s, s1, w, FractionStage(s, w, stage, fraction), stage, s.talk.homeAnyway);
  }

  lemma HomedOpens(s: State, w: World, stage: Stage)
    requires NoLiveJob(s.engine) && HomesFirst(stage) && !IsReading(stage)
    ensures Opened(s, w, EnterStage(s, w, stage), stage, s.talk.homeAnyway)
  {
    hide NoLiveJob, Opened, BeginHoming;
    var s1 := if stage.OpenTimed? then s.(talk := WithoutTheAscent(s.talk))
              else if stage.HeightRead? && s.talk.stopFirst
              then s.(talk := s.talk.(measured := WithoutTheTravel(s.talk.measured)))
              else s;
    HomingOpens(s1, w, stage);
    OpenedFrom(s, s1, w, EnterStage(s, w, stage), stage, s.talk.homeAnyway);
  }

  // ---------------------------------------------------------------- timed runs

  predicate StartsATimedRun(a: Action) { a.StartOpening? || a.StartFullOpening? || a.StartClosing? }

  function WayOf(a: Action): Direction { if a.StartClosing? then Close else Open }

  /** A timed run goes out from its own end stop; from anywhere else the shutter is first taken there, and the
      job that takes it comes back to the very screen the run was asked for on, saying so. */
  lemma TimedRunHomesFirst(s: State, w: World, client: string, a: Action, v: Value)
    requires Inv(s) && GuardAct(s, w, client, s.life.revision, a).None? && StartsATimedRun(a)
    ensures var r := Turn(s, w, Act(client, s.life.revision, a, v));
            var from := OtherEnd(WayOf(a));
            && LiveQueue(r.engine) && r.place == s.place && r.life.owner == Some(client) && !r.talk.stopFirst
            && r.engine.queued == Some(
                 if s.place.at == Some(from)
                 then Job(StartFree(WayOf(a)), ToScreen(PressOf(a)), None, s.engine.generation)
                 else Job(Home(from), ToScreen(s.talk.shown.step), Some(Rehomed), s.engine.generation))
  {
    StopIsOwedElsewhere(s, w, a);
    hide Inv, Offered, Do;
    var s1 := Taken(s, w, client);
    TakenIsTheSame(s, w, client);
    RunQueues(s1, w, a);
    PumpQueues(Carried(s1, w, a, v));
    hide Taken, Pump;
  }

  lemma TakenIsTheSame(s: State, w: World, client: string)
    ensures var r := Taken(s, w, client); r.talk == s.talk && r.engine == s.engine && r.place == s.place
                                          && r.life.owner == Some(client)
  {
  }

  lemma RunQueues(s: State, w: World, a: Action)
    requires StartsATimedRun(a) && Offers(s.talk.shown.step, a)
    ensures var r := Do(s, w, a);
            var from := OtherEnd(WayOf(a));
            && LiveQueue(r.engine) && r.place == s.place && r.life.owner == s.life.owner
            && r.talk.stopFirst == s.talk.stopFirst
            && r.engine.queued == Some(
                 if s.place.at == Some(from)
                 then Job(StartFree(WayOf(a)), ToScreen(PressOf(a)), None, s.engine.generation)
                 else Job(Home(from), ToScreen(s.talk.shown.step), Some(Rehomed), s.engine.generation))
  {
    hide TimedRun;
    TimedRunQueues(s, w, s.talk.shown.step);
  }

  lemma TimedRunQueues(s: State, w: World, brief: Screen)
    requires IsBrief(brief)
    ensures var r := TimedRun(s, w, brief);
            var (way, press) := if brief.CloseBrief? then (Close, CloseBottom)
                                else if brief.OpenBrief? then (Open, OpenLift) else (Open, OpenTop);
            && LiveQueue(r.engine) && r.place == s.place && r.life.owner == s.life.owner
            && r.talk.stopFirst == s.talk.stopFirst
            && r.engine.queued == Some(
                 if s.place.at == Some(OtherEnd(way))
                 then Job(StartFree(way), ToScreen(press), None, s.engine.generation)
                 else Job(Home(OtherEnd(way)), ToScreen(brief), Some(Rehomed), s.engine.generation))
  {
    hide BeginMovement, LiveQueue;
    var (way, homing, step, press) :=
      if brief.CloseBrief? then (Close, Positioning(CloseTimed), CloseStarting, CloseBottom)
      else if brief.OpenBrief? then (Open, Positioning(OpenTimed), OpenStarting, OpenLift)
      else (Open, OpenHomeAgain, OpenFullStarting, OpenTop);
    var from := OtherEnd(way);
    var s1 := s.(talk := s.talk.(instants := s.talk.instants.(motorStart := None)));
    QueuedAs(s, s1, w, homing, step, from, way, brief, press);
  }

  /** The two jobs a timed run can come to. */
  lemma QueuedAs(s: State, s1: State, w: World, homing: Screen, step: Screen, from: Direction, way: Direction,
                 brief: Screen, press: Screen)
    requires s1 == s.(talk := s.talk.(instants := s1.talk.instants))
    ensures var r := BeginMovement(s, w, homing, Homing, from, Home(from), ToScreen(brief), Some(Rehomed));
            && LiveQueue(r.engine) && r.place == s.place && r.life.owner == s.life.owner
            && r.talk.stopFirst == s.talk.stopFirst
            && r.engine.queued == Some(Job(Home(from), ToScreen(brief), Some(Rehomed), s.engine.generation))
    ensures var r := BeginMovement(s1, w, step, Free, way, StartFree(way), ToScreen(press), None);
            && LiveQueue(r.engine) && r.place == s.place && r.life.owner == s.life.owner
            && r.talk.stopFirst == s.talk.stopFirst
            && r.engine.queued == Some(Job(StartFree(way), ToScreen(press), None, s.engine.generation))
  {
    hide BeginMovement, LiveQueue;
    MovementQueues(s, w, homing, Homing, from, Home(from), ToScreen(brief), Some(Rehomed));
    MovementQueues(s1, w, step, Free, way, StartFree(way), ToScreen(press), None);
  }

  function PressOf(a: Action): Screen {
    if a.StartClosing? then CloseBottom else if a.StartOpening? then OpenLift else OpenTop
  }

  lemma StopIsOwedElsewhere(s: State, w: World, a: Action)
    requires Inv(s) && !s.life.ended && Offered(s.talk, w, a) && StartsATimedRun(a)
    ensures !s.talk.stopFirst && IsBrief(s.talk.shown.step) && Offers(s.talk.shown.step, a)
  {
    hide TasksKept, TrustKept, LifeKept, PlanKept, PathKept, ReadingsKept, MovingKept, JobsKept;
  }

  /** Away from its end stop a timed run takes two presses: the first sends the shutter there, the step comes
      back with the notice that says so, and the second sends the run. */
  lemma RehomedThenRuns(s: State, w: World, client: string, a: Action, v: Value, w1: World, answer: Answer,
                        w2: World, done: Answer, w3: World)
    requires Inv(s) && GuardAct(s, w, client, s.life.revision, a).None? && StartsATimedRun(a)
    requires s.place.at != Some(OtherEnd(WayOf(a))) && (s.engine.tasks == [] || s.engine.tasks == [Looping])
    requires w1.coverThere && done.Done?
    ensures var s1 := Turn(s, w, Act(client, s.life.revision, a, v));
            var s2 := Turn(s1, w1, TaskTurn(0, answer));
            var s3 := Turn(s2, w2, TaskTurn(0, done));
            var s4 := Turn(s3, w3, Act(client, s3.life.revision, a, v));
            && s3.talk.shown == Shown(s.talk.shown.step, None, Some(Rehomed), None)
            && s3.place.at == Some(OtherEnd(WayOf(a)))
            && s4.engine.queued == Some(Job(StartFree(WayOf(a)), ToScreen(PressOf(a)), None, s4.engine.generation))
  {
    hide Inv, GuardAct, Turn, Offers, Offered;
    TimedRunHomesFirst(s, w, client, a, v);
    var s1 := Turn(s, w, Act(client, s.life.revision, a, v));
    TurnKeeps(s, w, Act(client, s.life.revision, a, v));
    StillLooping(s, w, client, a, v);
    GuardsMean(s, w, client, a);
    StopIsOwedElsewhere(s, w, a);
    var job := s1.engine.queued.value;
    Goes(s1, w1, answer, job);
    var s2 := Turn(s1, w1, TaskTurn(0, answer));
    TurnKeeps(s1, w1, TaskTurn(0, answer));
    HomesTo(s2, w2, done, job);
    var s3 := Turn(s2, w2, TaskTurn(0, done));
    TurnKeeps(s2, w2, TaskTurn(0, done));
    OwnerMay(s3, w3, client, a);
    TimedRunHomesFirst(s3, w3, client, a, v);
    SameGeneration(s3, w3, client, a, v);
  }

  lemma StillLooping(s: State, w: World, client: string, a: Action, v: Value)
    requires Inv(s) && GuardAct(s, w, client, s.life.revision, a).None? && StartsATimedRun(a)
    requires s.engine.tasks == [] || s.engine.tasks == [Looping]
    ensures var r := Turn(s, w, Act(client, s.life.revision, a, v));
            r.engine.tasks == [Looping] && r.engine.generation == s.engine.generation && !r.life.ended
  {
    hide Inv, Taken, Do, GuardAct, Offered, JobFits, NoLiveTask, NoLiveJob, IsMoving, WaitsFor, OtherEnd, PressOf;
    ActCarries(s, w, client, s.life.revision, a, v);
    ActQueues(s, w, client, a, v);
    TakenCounts(s, w, client);
    TaskCount(s);
    TimedRunHomesFirst(s, w, client, a, v);
  }

  lemma TaskCount(s: State)
    requires Inv(s)
    ensures s.engine.pumping <==> |s.engine.tasks| == 1
  {
  }

  lemma Goes(s: State, w: World, answer: Answer, job: Job)
    requires s.engine.tasks == [Looping] && s.engine.queued == Some(job) && !Overtaken(s, job) && w.coverThere
    requires !s.talk.stopFirst
    ensures var r := Turn(s, w, TaskTurn(0, answer));
            && r.engine == s.engine.(queued := None, tasks := [Driving(job)]) && r.life == s.life
            && r.talk == s.talk.(error := None)
  {
  }

  lemma HomesTo(s: State, w: World, done: Answer, job: Job)
    requires s.engine.tasks == [Driving(job)] && !Overtaken(s, job) && s.talk.error.None? && done.Done?
    requires job.primitive.Home? && job.next.ToScreen? && !IsPress(job.next.screen)
    ensures var r := Turn(s, w, TaskTurn(0, done));
            && r.talk.shown == Shown(job.next.screen, None, job.notice, None) && r.place.at == Some(job.primitive.end)
            && r.life.owner == s.life.owner && !r.life.ended
  {
  }

  lemma OwnerMay(s: State, w: World, client: string, a: Action)
    requires s.life.owner == Some(client) && !s.life.ended && IsBrief(s.talk.shown.step)
    requires Offers(s.talk.shown.step, a) && !a.Submit? && s.talk.shown.notice == Some(Rehomed)
    ensures GuardAct(s, w, client, s.life.revision, a).None?
  {
  }

  lemma SameGeneration(s: State, w: World, client: string, a: Action, v: Value)
    requires Inv(s) && GuardAct(s, w, client, s.life.revision, a).None? && StartsATimedRun(a)
    ensures Turn(s, w, Act(client, s.life.revision, a, v)).engine.generation == s.engine.generation
  {
    ActQueues(s, w, client, a, v);
  }

  // ---------------------------------------------------------------- a job that comes back

  /** What a job hands over to once its primitive came back with `a` and `b`: the instant the motor of a free run
      started, the seconds of a run to a fraction, or when the stop of the lift-off run was delivered and
      when its motor stopped. */
  ghost predicate HandsOver(s: State, w: World, r: State, job: Job, a: real, b: real) {
    match job.next
    case ToScreen(screen) =>
      && r.talk.shown.step == screen && !LiveQueue(r.engine) && r.talk.measured == s.talk.measured
      && (if IsPress(screen)
          then r.engine.press == Some(if screen.OpenLift? then LiftOffPress else EndStopPress)
               && r.engine.pressTimer == Some(w.now + 90.0)
               && r.engine.movement == s.engine.movement
               && r.talk.instants == s.talk.instants.(motorStart := Some(a), shownAt := Some(w.now))
          else r.engine.movement.None? && r.talk.shown.notice == job.notice && r.talk.instants == s.talk.instants)
      && r.talk.report == if job.primitive.RunTo? then Some(a) else s.talk.report
    case ToTheRun =>
      && LiveQueue(r.engine) && OnPlan(s.talk) && s.talk.aim.pending.Some?
      && var run := s.talk.aim.pending.value;
         && r.engine.queued.value.primitive == RunTo(run.0, run.1) && RunsFor(s.talk.plan[s.talk.index.value], run)
         && r.place.at == Some(OtherEnd(run.0))
    case ToTheLift =>
      && s.talk.instants.liftOff.Some? && s.talk.instants.motorStart.Some? && !LiveQueue(r.engine)
      && var slat := s.talk.instants.liftOff.value - s.talk.instants.motorStart.value;
         if slat < 0.0 then r.talk.shown.step == Problem(BadPoint) && r.talk.measured == s.talk.measured
         else
           && (r.talk.measured.liftLate <==> a - s.talk.instants.liftOff.value > 1.0)
           && r.talk.shown.step == (if r.talk.measured.liftLate then LiftCheckLate else LiftCheck)
           && r.talk.measured == s.talk.measured.(slatSeconds := Some(slat), liftLate := r.talk.measured.liftLate,
                                                  liftRun := Some(b - s.talk.instants.motorStart.value))
  }

  /** A job nothing has overtaken comes back. Done, it hands over: a homing says where the shutter is now; a
      screen is put up, and if it waits for a press its clock is armed and the motor's start is the first
      of the two answers; a run to a fraction leaves its seconds; a reading's homing queues the reading's own
      run; the stop of the lift-off run leaves the slat phase, the run up to where the motor stopped, and
      whether its delivery came late, or a problem if the phase came out negative. A
      cover that is gone begins the ending; any other failure is a problem screen with nothing under way. */
  lemma JobComesBack(s: State, w: World, which: nat, answer: Answer)
    requires Inv(s) && !s.life.ended && which < |s.engine.tasks| && s.engine.tasks[which].Driving?
    requires !Overtaken(s, s.engine.tasks[which].job)
    ensures var job := s.engine.tasks[which].job;
            var r := Turn(s, w, TaskTurn(which, answer));
            if answer.Done? then
              && !r.life.ended && r.life.revision == s.life.revision + 1
              && HandsOver(s, w, r, job, answer.first, answer.second)
              && r.place.at == (if job.primitive.Home? then Some(job.primitive.end) else None)
            else if answer == Failed(UnknownCover) then
              if WaitsForAStop(w) then !r.life.ended && r.life.endings == s.life.endings + [CoverGone]
              else r.life.outcome == Some(CoverGone)
            else
              && !r.life.ended && r.talk.shown.step == Problem(FailureOf(answer)) && r.engine.movement.None?
              && !LiveQueue(r.engine) && r.place.at.None? && r.talk.measured == s.talk.measured
  {
    var job := s.engine.tasks[which].job;
    ReturningJob(s, which);
    hide Inv, Conclude, Returning, HandsOver, LiveQueue, Turn, Complete;
    var s1 := TaskBecomes(s, which, Looping);
    var s2 := s1.(talk := s1.talk.(error := ErrorOf(answer)));
    SameQueue(s, s1, s2);
    JobConcludes(s, w, which, answer);
    if answer.Done? {
      DoneComesBack(s1, w, job, answer);
      HandsOverFrom(s, s1, w, Conclude(s1, w, job, answer, None), job, answer.first, answer.second);
    } else {
      FailedComesBack(s2, w, job, answer);
    }
  }

  lemma JobConcludes(s: State, w: World, which: nat, answer: Answer)
    requires which < |s.engine.tasks| && s.engine.tasks[which].Driving? && !Overtaken(s, s.engine.tasks[which].job)
    requires s.talk.error.None?
    ensures var s1 := TaskBecomes(s, which, Looping);
            Turn(s, w, TaskTurn(which, answer))
            == if answer.Done? then Conclude(s1, w, s.engine.tasks[which].job, answer, None)
               else Conclude(s1.(talk := s1.talk.(error := ErrorOf(answer))), w, s.engine.tasks[which].job, answer,
                             ErrorOf(answer))
  {
    hide Conclude;
    var s1 := TaskBecomes(s, which, Looping);
    assert s1.(talk := s.talk.(error := None)) == s1;
  }

  lemma SameQueue(s: State, s1: State, s2: State)
    requires s1.engine == s.engine.(tasks := s1.engine.tasks) && s2.engine == s1.engine
    ensures LiveQueue(s1.engine) == LiveQueue(s2.engine) == LiveQueue(s.engine)
  {
  }

  lemma HandsOverFrom(s: State, s1: State, w: World, r: State, job: Job, a: real, b: real)
    requires HandsOver(s1, w, r, job, a, b) && s1.talk == s.talk && s1.engine == s.engine.(tasks := s1.engine.tasks)
    ensures HandsOver(s, w, r, job, a, b)
  {
  }

  lemma ReturningJob(s: State, which: nat)
    requires Inv(s) && !s.life.ended && which < |s.engine.tasks| && s.engine.tasks[which].Driving?
    requires !Overtaken(s, s.engine.tasks[which].job)
    ensures var job := s.engine.tasks[which].job; Returning(s.talk, job)
    ensures s.place.at.None? && s.talk.error.None? && !LiveQueue(s.engine)
  {
    LiveTask(s, which);
    hide PathKept, ReadingsKept, MovingKept, TrustKept, LifeKept, WellFormed, Fitted, NothingToFit;
    NextOf(s.talk, s.engine.tasks[which].job);
  }

  /** What a job in flight is known to be. */
  predicate Returning(t: Talk, job: Job) {
    && (job.next.ToScreen? ==> (IsPress(job.next.screen) <==> job.primitive.StartFree?) && !job.primitive.StopLift?)
    && (job.next.ToTheRun? ==>
          && job.primitive.Home? && OnPlan(t) && t.aim.pending.Some?
          && RunsFor(t.plan[t.index.value], t.aim.pending.value)
          && job.primitive.end == OtherEnd(t.aim.pending.value.0))
    && (job.next.ToTheLift? ==> job.primitive.StopLift? && t.instants.motorStart.Some? && t.instants.liftOff.Some?)
  }

  lemma DoneComesBack(s: State, w: World, job: Job, answer: Answer)
    requires !s.life.ended && Returning(s.talk, job) && answer.Done? && s.talk.error.None? && s.place.at.None?
    requires !LiveQueue(s.engine)
    ensures var r := Conclude(s, w, job, answer, None);
            && !r.life.ended && r.life.revision == s.life.revision + 1
            && HandsOver(s, w, r, job, answer.first, answer.second)
            && r.place.at == (if job.primitive.Home? then Some(job.primitive.end) else None)
  {
    hide Goto, HandsOver, LiveQueue, IsPress;
    DoneSettles(s, job.primitive, answer);
    var s1 := Settle(s, job.primitive, answer);
    var s2 := s1.(engine := s1.engine.(movement := None));
    match job.next
    case ToTheRun => RunComesBack(s, s2, w, job, answer.first, answer.second);
    case ToTheLift => LiftComesBack(s, s2, w, job, answer.first, answer.second);
    case ToScreen(screen) => ScreenComesBack(s, if IsPress(screen) then s1 else s2, w, job, screen, answer);
  }

  /** The instants a settled primitive leaves. */
  function SettledInstants(i: Instants, p: Primitive, a: real, b: real): Instants {
    if p.StartFree? then i.(motorStart := Some(a))
    else if p.StopLift? then i.(stopDelivered := Some(a), motorStopped := Some(b)) else i
  }

  lemma DoneSettles(s: State, p: Primitive, answer: Answer)
    requires answer.Done? && s.place.at.None?
    ensures var r := Settle(s, p, answer);
            && r.engine == s.engine && r.life == s.life && r.talk.aim == s.talk.aim
            && LiveQueue(r.engine.(movement := None)) == LiveQueue(s.engine)
            && r.talk.instants == SettledInstants(s.talk.instants, p, answer.first, answer.second)
            && r.talk.measured == s.talk.measured
            && r.talk.report == (if p.RunTo? then Some(answer.first) else s.talk.report)
            && r.place.at == (if p.Home? then Some(p.end) else None)
  {
  }

  lemma RunComesBack(s: State, s2: State, w: World, job: Job, a: real, b: real)
    requires !s.life.ended && s2.life == s.life && job.next.ToTheRun? && Returning(s.talk, job)
    requires s2.talk.aim == s.talk.aim && s2.place.at == Some(job.primitive.end)
    ensures var r := Goto(s2, w, job.next, job.notice);
            && !r.life.ended && r.life.revision == s.life.revision + 1 && HandsOver(s, w, r, job, a, b)
            && r.place.at == s2.place.at
  {
    hide BeginMovement, LiftMeasured, ShowWith;
    var (way, fraction) := s.talk.aim.pending.value;
    MovementQueues(s2, w, TapeRun, Fraction, way, RunTo(way, fraction), ToScreen(s.talk.aim.form), None);
    MovementCarries(s2, w, TapeRun, Fraction, way, RunTo(way, fraction), ToScreen(s.talk.aim.form), None);
  }

  lemma LiftComesBack(s: State, s2: State, w: World, job: Job, a: real, b: real)
    requires !s.life.ended && s2.life == s.life && job.next.ToTheLift? && Returning(s.talk, job)
    requires s2.talk.instants == s.talk.instants.(stopDelivered := Some(a), motorStopped := Some(b))
    requires s2.talk.measured == s.talk.measured && !LiveQueue(s2.engine)
    ensures var r := Goto(s2, w, job.next, job.notice);
            && !r.life.ended && r.life.revision == s.life.revision + 1 && HandsOver(s, w, r, job, a, b)
            && r.place.at == s2.place.at
  {
    hide BeginMovement, LiftMeasured, ShowWith;
    LiftHandsOver(s2, w, a, b);
  }

  lemma ScreenComesBack(s: State, s2: State, w: World, job: Job, screen: Screen, answer: Answer)
    requires !s.life.ended && s2.life == s.life && job.next == ToScreen(screen) && !LiveQueue(s2.engine)
    requires answer.Done? && Returning(s.talk, job) && s2.talk.measured == s.talk.measured
    requires s2.talk.instants == SettledInstants(s.talk.instants, job.primitive, answer.first, answer.second)
    requires s2.talk.report == if job.primitive.RunTo? then Some(answer.first) else s.talk.report
    requires if IsPress(screen) then s2.engine == s.engine else s2.engine.movement.None?
    ensures var r := Goto(s2, w, job.next, job.notice);
            && !r.life.ended && r.life.revision == s.life.revision + 1
            && HandsOver(s, w, r, job, answer.first, answer.second)
            && r.place.at == s2.place.at
  {
    hide BeginMovement, LiftMeasured, IsPress;
  }

  lemma LiftHandsOver(s: State, w: World, a: real, b: real)
    requires s.talk.instants.liftOff.Some? && s.talk.instants.motorStart.Some? && !s.life.ended
    requires s.talk.instants.stopDelivered == Some(a) && s.talk.instants.motorStopped == Some(b)
    ensures var r := LiftMeasured(s, w);
            var slat := s.talk.instants.liftOff.value - s.talk.instants.motorStart.value;
            && r.place == s.place && !r.life.ended && r.life.revision == s.life.revision + 1 && r.engine == s.engine
            && if slat < 0.0 then r.talk.shown.step == Problem(BadPoint) && r.talk.measured == s.talk.measured
               else var late := a - s.talk.instants.liftOff.value > 1.0;
                    r.talk.shown.step == (if late then LiftCheckLate else LiftCheck)
                    && r.talk.measured == s.talk.measured.(slatSeconds := Some(slat), liftLate := late,
                                                           liftRun := Some(b - s.talk.instants.motorStart.value))
  {
  }

  lemma FailedComesBack(s: State, w: World, job: Job, answer: Answer)
    requires !s.life.ended && !answer.Done? && s.place.at.None? && !LiveQueue(s.engine)
    ensures var r := Conclude(s, w, job, answer, ErrorOf(answer));
            if answer == Failed(UnknownCover) then
              if WaitsForAStop(w) then !r.life.ended && r.life.endings == s.life.endings + [CoverGone]
              else r.life.outcome == Some(CoverGone)
            else
              && !r.life.ended && r.talk.shown.step == Problem(FailureOf(answer)) && r.engine.movement.None?
              && !LiveQueue(r.engine) && r.place.at.None? && r.talk.measured == s.talk.measured
  {
    hide Finish, ShowProblem, CodeOf, ErrorOf, FailureOf;
    FailureIsShown(answer);
    var s1 := s.(engine := s.engine.(movement := None));
    ProblemShows(s1, w, ErrorOf(answer).GetOr(Unknown));
    GoneEnds(NextGeneration(NextGeneration(s1)), w);
    if !s1.life.ended { ProblemIsLive(s1, w, ErrorOf(answer).GetOr(Unknown)); }
  }

  lemma FailureIsShown(answer: Answer)
    requires !answer.Done?
    ensures ErrorOf(answer).Some? && (ErrorOf(answer) == Some(UnknownCover) <==> answer == Failed(UnknownCover))
    ensures answer != Failed(UnknownCover) ==> CodeOf(ErrorOf(answer).value) == FailureOf(answer)
  {
  }

  lemma GoneEnds(s: State, w: World)
    requires !s.life.ended
    ensures Finish(s, w, CoverGone).life.outcome == Some(CoverGone)
  {
  }

  lemma ProblemIsLive(s: State, w: World, reason: Reason)
    requires !s.life.ended
    ensures !ShowProblem(s, w, reason).life.ended
  {
  }

  /** The problem a failure is shown as: its own reason where it has a screen, or one nobody knows. */
  function FailureOf(answer: Answer): Reason {
    match answer
    case Failed(NoEcho) => NoEcho
    case Failed(NotDelivered) => NotDelivered
    case Failed(NotStopped) => NotStopped
    case Failed(Busy) => Busy
    case Failed(BadPoint) => BadPoint
    case Failed(Timeout) => Timeout
    case _ => Unknown
  }

  // ---------------------------------------------------------------- an ending

  /** An ending that has no stop to write ends the session there and then: for its reason, with nothing moving,
      waited for, queued or owned. One that has leaves nothing live and waits; and when it comes back, to
      a session that is still live, it ends it for its reason whatever the world looks like by then. Either
      way an ended session is left exactly as it is. */
  lemma EndingComes(s: State, w: World, reason: EndReason, stop: bool, w1: World)
    requires Inv(s)
    ensures var r := AsyncEnd(s, w, reason, stop);
            && Inv(r)
            && (s.life.ended ==> r == s && Finish(s, w, reason) == s)
            && (!s.life.ended && stop && WaitsForAStop(w) ==>
                  && !r.life.ended && NoLiveJob(r.engine) && r.life.endings == s.life.endings + [reason]
                  && Turn(r, w1, EndingReturns(|s.life.endings|)).life.outcome == Some(reason))
            && (!s.life.ended && !(stop && WaitsForAStop(w)) ==>
                  && r.life.outcome == Some(reason) && Quiet(r.engine, r.place.at)
                  && r.life.owner.None? && !r.life.claimed)
  {
    hide Settled, Over, NoLiveJob, End, Finish, Quiet;
    var r := AsyncEnd(s, w, reason, stop);
    if s.life.ended { FinishedTwice(s, w, reason); }
    else {
      LiveIsSettled(s);
      AsyncEndKeeps(s, w, reason, stop);
      if stop && WaitsForAStop(w) {
        NothingLiveLeft(s, r.engine);
        assert r.life.endings[|s.life.endings|] == reason;
        EndsForGood(r.(life := r.life.(endings := Without(r.life.endings, |s.life.endings|))), w1, reason);
      } else {
        EndsForGood(NextGeneration(s), w, reason);
      }
    }
  }

  lemma NothingLiveLeft(s: State, e: Engine)
    requires Settled(s) && e == s.engine.(generation := s.engine.generation + 1)
    ensures NoLiveJob(e)
  {
    NextGenerationKeeps(s.engine, s.talk, s.place.at, e);
  }

  lemma EndsForGood(s: State, w: World, reason: EndReason)
    requires !s.life.ended
    ensures var r := End(s, w, reason);
            r.life.outcome == Some(reason) && Quiet(r.engine, r.place.at) && r.life.owner.None? && !r.life.claimed
  {
  }

  // ---------------------------------------------------------------- the presses at the end stops

  /** What `r` is, but for the pump task, of what `c` is. */
  predicate ButForThePump(c: State, r: State) {
    && r.talk == c.talk && r.place == c.place && r.life == c.life
    && r.engine == c.engine.(pumping := r.engine.pumping, tasks := r.engine.tasks)
  }

  lemma ActIsCarried(s: State, w: World, client: string, a: Action, v: Value)
    requires GuardAct(s, w, client, s.life.revision, a).None? && !NamesNoProfile(s.talk, w, a, v)
    ensures var s1 := Taken(s, w, client);
            && s1.talk == s.talk && s1.engine == s.engine && s1.place == s.place && s1.life.revision == s.life.revision
            && ButForThePump(Carried(s1, w, a, v), Turn(s, w, Act(client, s.life.revision, a, v)))
  {
    TakenCounts(s, w, client);
    hide GuardAct, Taken, Carried, NamesNoProfile;
  }

  /** What comes of a press at the end stop `d`. */
  predicate Pressed(s: State, w: World, r: State, d: Direction) {
    var timing := if d.Open? then r.talk.measured.opening else r.talk.measured.closing;
    var late := s.talk.instants.shownAt.Some? && w.now - s.talk.instants.shownAt.value > 90.0;
    && !r.talk.escaped && r.life.revision == s.life.revision + 1
    && (r.talk.shown.step.Problem? ==>
          && r.talk.measured == s.talk.measured && r.place == s.place && r.engine.movement == s.engine.movement
          && (r.talk.shown.step == Problem(Timeout) <==> late)
          && (late ==> r.engine.press == s.engine.press && r.engine.pressTimer == s.engine.pressTimer)
          && (!late ==> r.engine.press.None? && r.engine.pressTimer.None?))
    && (!r.talk.shown.step.Problem? ==>
          && !late && r.place.at == Some(d) && r.engine.movement.None? && r.engine.press.None?
          && r.engine.pressTimer.None?
          && timing.Some? && timing.value.run > 0.0
          && s.talk.instants.motorStart == Some(w.now - timing.value.run)
          && r.talk.measured == (if d.Open? then s.talk.measured.(opening := timing)
                                 else s.talk.measured.(closing := timing))
          && r.talk.shown.step == (if d.Close? then CloseResult
                                   else if s.talk.measured.liftGap.Some? then OpenResultGap else OpenResult)
          && (d.Close? ==> timing.value.slat.None?)
          && (d.Open? ==> timing.value.slat == Some(s.talk.measured.slatSeconds.GetOr(0.0))
                          && 0.0 <= timing.value.slat.value <= timing.value.run))
  }

  lemma PressIsPressed(s: State, w: World, d: Direction)
    requires s.talk.instants.motorStart.Some? && !s.talk.escaped
    ensures Pressed(s, w, PressStopped(s, w, d), d)
  {
    hide ShowProblem, ShowWith;
    ProblemShows(s, w, Timeout);
    ProblemShows(Unpressed(s), w, BadPoint);
    if !TimedOut(s, w) {
      var run := w.now - s.talk.instants.motorStart.value;
      var slat := s.talk.measured.slatSeconds.GetOr(0.0);
      var m := if d == Open then s.talk.measured.(opening := Some(Timing(Some(slat), run)))
               else s.talk.measured.(closing := Some(Timing(None, run)));
      AcceptedShows(s, w, d, m,
                    if d == Close then CloseResult else if m.liftGap.Some? then OpenResultGap else OpenResult);
    }
  }

  lemma AcceptedShows(s: State, w: World, d: Direction, m: Measured, step: Screen)
    ensures var r := Show(s.(talk := s.talk.(measured := m),
                             engine := s.engine.(press := None, pressTimer := None, movement := None),
                             place := Place(Some(d), s.place.trace + [Reached(d)])), w, step);
            && r.talk.shown.step == step && r.talk.measured == m && r.talk.escaped == s.talk.escaped
            && r.place.at == Some(d) && r.engine.movement.None? && r.engine.press.None? && r.engine.pressTimer.None?
            && r.life.revision == s.life.revision + 1
  {
  }

  lemma ProblemShows(s: State, w: World, reason: Reason)
    ensures var r := ShowProblem(s, w, reason);
            && r.talk.shown.step == Problem(CodeOf(reason)) && r.talk.measured == s.talk.measured
            && r.talk.escaped == s.talk.escaped && r.place == s.place && r.engine == s.engine
            && r.life.revision == s.life.revision + 1
  {
  }

  lemma PressedFrom(s: State, s1: State, c: State, r: State, w: World, d: Direction)
    requires Pressed(s1, w, c, d) && ButForThePump(c, r)
    requires s1.talk == s.talk && s1.engine == s.engine && s1.place == s.place && s1.life.revision == s.life.revision
    ensures Pressed(s, w, r, d)
  {
  }

  /** The press at an end stop. Too late, it leaves the run, the press and its timer as they were; out of order
      it is taken back and the run goes on; in neither case is anything measured or known. Accepted, it
      is where the shutter is known to be, and the run is timed from the motor's start, no shorter than the
      slat phase it is stored with. Nothing escapes: a press on the screen always knows its start. */
  lemma PressAtTheEndStop(s: State, w: World, client: string, a: Action, v: Value)
    requires Inv(s) && GuardAct(s, w, client, s.life.revision, a).None? && (a.StoppedOpen? || a.StoppedClosed?)
    ensures Pressed(s, w, Turn(s, w, Act(client, s.life.revision, a, v)), if a.StoppedOpen? then Open else Close)
  {
    hide Inv, GuardAct, Taken, Turn, Pressed, PressStopped, ButForThePump;
    PressIsKnown(s, w, client, a);
    ActIsCarried(s, w, client, a, v);
    var d := if a.StoppedOpen? then Open else Close;
    var s1 := Taken(s, w, client);
    PressIsPressed(s1, w, d);
    PressedFrom(s, s1, Carried(s1, w, a, v), Turn(s, w, Act(client, s.life.revision, a, v)), w, d);
  }

  lemma PressIsKnown(s: State, w: World, client: string, a: Action)
    requires Inv(s) && GuardAct(s, w, client, s.life.revision, a).None? && (a.StoppedOpen? || a.StoppedClosed?)
    ensures IsPress(s.talk.shown.step) && s.talk.instants.motorStart.Some? && !s.talk.escaped
  {
    hide Inv, Settled, GuardAct, TalkKept, MovingKept, JobsKept, TasksKept, TrustKept, LifeKept;
    InvIsSound(s);
    GuardsMean(s, w, client, a);
    RunScreens(s.talk, w, a);
    LiveIsSettled(s);
    assert MovingKept(s.talk, s.engine) by { SettledMoves(s); }
    PressKnowsItsStart(s.talk, s.engine);
  }

  lemma SettledMoves(s: State)
    requires Settled(s)
    ensures MovingKept(s.talk, s.engine)
  {
    hide TalkKept, MovingKept, JobsKept, TasksKept, TrustKept, LifeKept;
  }

  // ---------------------------------------------------------------- the tape

  /** A number a tape can have read, of a run that reported its seconds. */
  predicate IsAReading(t: Talk, v: Value) {
    v.Number? && 0.0 <= v.n && (t.measured.height.Some? ==> v.n <= t.measured.height.value) && t.report.Some?
  }

  function ReadingsOf(m: Measured, d: Direction): seq<(real, real)> { if d.Close? then m.descent else m.ascent }

  /** What comes of submitting `v` on the tape form of a run in direction `d`. */
  predicate Read(t: Talk, r: Talk, v: Value, d: Direction) {
    && (r.shown.formError.Some? <==> !IsAReading(t, v))
    && (!IsAReading(t, v)
        ==> r == t.(shown := t.shown.(problem := None, notice := None, formError := r.shown.formError)))
    && (IsAReading(t, v) ==>
          && r.shown.step == TapeResult && r.plan == t.plan && r.index == t.index
          && ReadingsOf(r.measured, d) == ReadingsOf(t.measured, d) + [(t.report.value, v.n)]
          && r.measured == t.measured.(descent := r.measured.descent, ascent := r.measured.ascent)
          && ReadingsOf(r.measured, OtherEnd(d)) == ReadingsOf(t.measured, OtherEnd(d)))
  }

  lemma ReadingIsRead(s: State, w: World, v: Value)
    requires s.talk.shown.step.MeasureDescent? || s.talk.shown.step.MeasureAscent?
    ensures Read(s.talk, SubmitReading(s, w, v).talk, v, if s.talk.shown.step.MeasureDescent? then Close else Open)
  {
    var t := s.talk;
    if IsAReading(t, v) {
      hide ShowWith;
      var point := (t.report.value, v.n);
      var d := if t.shown.step.MeasureDescent? then Close else Open;
      var m := if d.Close? then t.measured.(descent := t.measured.descent + [point])
               else t.measured.(ascent := t.measured.ascent + [point]);
      ScreenShows(s.(talk := t.(measured := m, aim := t.aim.(tapeTarget := Some(d)))), w, TapeResult, None);
    } else {
      hide ShowWith, Verified;
      ScreenShows(s, w, t.shown.step, Some(NotANumber));
      ScreenShows(s, w, t.shown.step, Some(OutOfRange));
      ScreenShows(s, w, t.shown.step, Some(AboveTheTravel));
    }
  }

  lemma ScreenShows(s: State, w: World, step: Screen, error: Option<FormError>)
    ensures ShowWith(s, w, step, error, None).talk == s.talk.(shown := Shown(step, None, None, error))
  {
  }

  /** A tape reading is appended, with the seconds its run reported, to the list of the direction of the stage
      the plan is at, and as the entry for that stage: at the place of the fitting stages before it. It
      is refused exactly when it is no number, negative, above the travel, or of a run that reported
      nothing; refused, it changes the error on the form and nothing else of the conversation. */
  lemma ReadingGoesToItsStage(s: State, w: World, client: string, v: Value)
    requires Inv(s) && GuardAct(s, w, client, s.life.revision, Submit).None?
    requires s.talk.shown.step.MeasureDescent? || s.talk.shown.step.MeasureAscent?
    ensures var t := s.talk;
            && OnPlan(t) && Movable(t.plan[t.index.value])
            && var d := RunDirection(t.plan[t.index.value]);
               && |ReadingsOf(t.measured, d)| == Fitted(t.plan, d, t.index.value)
               && Read(t, Turn(s, w, Act(client, s.life.revision, Submit, v)).talk, v, d)
  {
    hide Inv, GuardAct, Taken, Turn, SubmitReading, Read, Fitted, Offered;
    GuardsMean(s, w, client, Submit);
    FormIsAtItsStage(s);
    ActIsCarried(s, w, client, Submit, v);
    ReadingIsRead(Taken(s, w, client), w, v);
  }

  lemma FormIsAtItsStage(s: State)
    requires Inv(s) && !s.life.ended && (s.talk.shown.step.MeasureDescent? || s.talk.shown.step.MeasureAscent?)
    ensures OnPlan(s.talk) && Movable(s.talk.plan[s.talk.index.value])
    ensures s.talk.shown.step
            == if RunDirection(s.talk.plan[s.talk.index.value]).Close? then MeasureDescent else MeasureAscent
    ensures |s.talk.measured.descent| == Fitted(s.talk.plan, Close, s.talk.index.value)
    ensures |s.talk.measured.ascent| == Fitted(s.talk.plan, Open, s.talk.index.value)
  {
    hide PathKept, MovingKept, JobsKept, TasksKept, TrustKept, LifeKept, WellFormed, Fitted, NothingToFit;
  }

  // ---------------------------------------------------------------- somebody else's movement

  /** What a movement that is not the session's own makes of the screen. */
  ghost predicate Disturbed(s: State, r: State) {
    var step := s.talk.shown.step;
    if IsMoving(step) || IsPress(step) then
      && r.talk.shown == Shown(Problem(Interrupted), Some(Interrupted), None, None)
      && NoLiveJob(r.engine) && r.engine.queued.None? && r.engine.movement.None? && r.engine.press.None?
    else if IsTapeForm(step) then
      && r.talk.shown == Shown(step, None, Some(ReadingStale), None)
      && forall w1: World, a :: Offered(r.talk, w1, a) <==> a.RepeatTape? || a.Submit?
    else r.talk.shown == s.talk.shown && r.engine == s.engine
  }

  /** A movement in the direction of the one under way is the session's own and changes nothing. One that is not
      takes the position away and is published, whatever is on the screen. It interrupts a movement or a press,
      leaving nothing live behind the problem screen; it spoils a tape form, which then offers its run again and
      nothing else of its menu; and any other screen stays as it was. Nothing measured is lost. */
  lemma OutsideMovement(s: State, w: World, d: Direction)
    requires Inv(s) && !s.life.ended
    ensures var r := Turn(s, w, CoverMoves(d));
            if s.engine.movement.Some? && s.engine.movement.value.direction == d then r == s
            else
              && r.place == Place(None, s.place.trace + [Moved]) && r.life.revision == s.life.revision + 1
              && r.talk.measured == s.talk.measured && r.talk.plan == s.talk.plan && r.talk.index == s.talk.index
              && r.talk.externalMove && Disturbed(s, r)
  {
    hide Inv, Settled, NoLiveJob, Turn, ModeOf, IsMoving, IsPress, Offered;
    LiveIsSettled(s);
    OvertakenIsQuiet(s);
    MovingOrPress(s.talk.shown.step);
    IsExternal(s, w, d);
    StaleForm(External(s, w).talk);
  }

  lemma OvertakenIsQuiet(s: State)
    requires Settled(s)
    ensures NoLiveJob(Overtake(s.engine).(movement := None, press := None, pressTimer := None))
  {
    NextGenerationKeeps(s.engine, s.talk, s.place.at,
                        Overtake(s.engine).(movement := None, press := None, pressTimer := None));
  }

  lemma IsExternal(s: State, w: World, d: Direction)
    requires !s.life.ended
    ensures Turn(s, w, CoverMoves(d))
            == if s.engine.movement.Some? && s.engine.movement.value.direction == d then s else External(s, w)
  {
  }

  lemma StaleForm(t: Talk)
    ensures IsTapeForm(t.shown.step) && t.shown.notice == Some(ReadingStale) ==>
              forall w1: World, a :: Offered(t, w1, a) <==> a.RepeatTape? || a.Submit?
  {
  }
}
