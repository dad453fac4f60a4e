/** What holds at every moment of every run of a session. */
module Safety {
  import opened Wrappers
  import opened Plans
  import opened Screens
  import opened Session
  import opened SessionInvariant
  import opened SessionProof
  import opened SessionTurns
  import opened SessionEffects
  import opened Revisions
  import opened Endings

  function LifeOf(w: World, client: string, path: Option<Route>, profile: Option<string>,
                  turns: seq<(World, Event)>): State {
    Run(Born(w, client, path, profile), turns)
  }

  lemma LifeIsKept(w: World, client: string, path: Option<Route>, profile: Option<string>, turns: seq<(World, Event)>)
    ensures Inv(LifeOf(w, client, path, profile, turns))
  {
    BornKept(w, client, path, profile);
    hide Born, Inv;
    RunKeeps(Born(w, client, path, profile), turns);
  }

  // ---------------------------------------------------------------- one movement

  /** A job that still means something: queued, waiting for its stop, or with its primitive in flight. */
  predicate LiveJob(s: State, j: Job) {
    !Overtaken(s, j) && (s.engine.queued == Some(j) || Stopping(j) in s.engine.tasks || Driving(j) in s.engine.tasks)
  }

  predicate InFlight(s: State, j: Job) { Stopping(j) in s.engine.tasks || Driving(j) in s.engine.tasks }

  lemma LiveJobShows(s: State, j: Job)
    requires Inv(s) && LiveJob(s, j)
    ensures IsMoving(s.talk.shown.step) && MovesFor(s.engine.movement, j.primitive) && s.engine.press.None?
    ensures s.talk.shown.notice != Some(ReadingStale) && JobFits(s.talk, j)
    ensures InFlight(s, j) ==> s.place.at == None
    ensures s.engine.queued == Some(j) ==> forall i :: 0 <= i < |s.engine.tasks| ==>
              s.engine.tasks[i].Looping? || Overtaken(s, s.engine.tasks[i].job)
  {
    hide TrustKept, LifeKept, PlanKept, PathKept, ReadingsKept;
    assert Settled(s);
    if s.engine.queued == Some(j) { }
    else if Stopping(j) in s.engine.tasks {
      var i :| 0 <= i < |s.engine.tasks| && s.engine.tasks[i] == Stopping(j);
    } else {
      var i :| 0 <= i < |s.engine.tasks| && s.engine.tasks[i] == Driving(j);
    }
  }

  lemma OneTask(s: State, a: Task, b: Task)
    requires Inv(s) && a in s.engine.tasks && b in s.engine.tasks
    ensures a == b
  {
  }

  lemma MovingOffersNothing(t: Talk, w: World, a: Action)
    requires IsMoving(t.shown.step) && t.shown.notice != Some(ReadingStale)
    ensures !Offered(t, w, a)
  {
    MovingOrPress(t.shown.step);
  }

  /** At most one movement primitive is in flight. A job that is queued, or whose stop or primitive is
      awaited, and that nothing has overtaken, is the only such job; the movement the session says is under way
      is its own, and the screen is a movement's, which offers no action and no form, so that every act is
      refused and changes nothing. */
  lemma OneMovement(w: World, client: string, path: Option<Route>, profile: Option<string>, turns: seq<(World, Event)>)
    ensures var s := LifeOf(w, client, path, profile, turns);
            && |s.engine.tasks| <= 1
            && (forall j, k :: LiveJob(s, j) && LiveJob(s, k) ==> j == k)
            && (forall j :: LiveJob(s, j) ==>
                  && IsMoving(s.talk.shown.step) && MovesFor(s.engine.movement, j.primitive)
                  && (s.engine.queued == Some(j) ==> !InFlight(s, j))
                  && (forall w1, c, n, a, v :: Turn(s, w1, Act(c, n, a, v)) == s))
  {
    LifeIsKept(w, client, path, profile, turns);
    var s := LifeOf(w, client, path, profile, turns);
    hide LifeOf;
    assert |s.engine.tasks| <= 1;
    forall j, k | LiveJob(s, j) && LiveJob(s, k) ensures j == k { OnlyLiveJob(s, j, k); }
    forall j | LiveJob(s, j)
      ensures IsMoving(s.talk.shown.step) && (s.engine.queued == Some(j) ==> !InFlight(s, j))
      ensures MovesFor(s.engine.movement, j.primitive)
      ensures forall w1, c, n, a, v :: Turn(s, w1, Act(c, n, a, v)) == s
    {
      LiveJobShows(s, j);
      hide Inv, Turn;
      forall w1, c, n, a, v ensures Turn(s, w1, Act(c, n, a, v)) == s { MovingRefuses(s, w1, c, n, a, v); }
    }
  }

  lemma MovingRefuses(s: State, w: World, client: string, n: nat, a: Action, v: Value)
    requires IsMoving(s.talk.shown.step) && s.talk.shown.notice != Some(ReadingStale)
    ensures Turn(s, w, Act(client, n, a, v)) == s
  {
    MovingOffersNothing(s.talk, w, a);
    hide Pump, Carried;
  }

  lemma OnlyLiveJob(s: State, j: Job, k: Job)
    requires Inv(s) && LiveJob(s, j) && LiveJob(s, k)
    ensures j == k
  {
    LiveJobShows(s, j);
    LiveJobShows(s, k);
    hide Settled, Over, JobFits, IsMoving;
    if s.engine.queued != Some(j) && s.engine.queued != Some(k) {
      var a := if Stopping(j) in s.engine.tasks then Stopping(j) else Driving(j);
      var b := if Stopping(k) in s.engine.tasks then Stopping(k) else Driving(k);
      OneTask(s, a, b);
    }
  }

  // ---------------------------------------------------------------- the shutter

  /** Every frame of a measured run went out with the end stop it starts at as the last place anything can
      have moved the shutter to; and whatever the session says of where the shutter is, the last movement,
      stop or outside event was a completed homing or an accepted press at that end stop. */
  lemma RunsStartAtEndStops(w: World, client: string, path: Option<Route>, profile: Option<string>,
                            turns: seq<(World, Event)>)
    ensures var p := LifeOf(w, client, path, profile, turns).place;
            && (forall i :: 0 <= i < |p.trace| && (p.trace[i].FreeFrame? || p.trace[i].RunFrame?) ==>
                  LastMove(p.trace[..i]) == Some(Reached(OtherEnd(p.trace[i].way))))
            && (p.at.Some? ==> LastMove(p.trace) == Some(Reached(p.at.value)))
  {
    LifeIsKept(w, client, path, profile, turns);
    hide LifeOf;
  }

  /** `LastMove` passes over the stop frame of a `stop` with no movement on the screen, and has to: such a
      stop is written and the position is kept. */
  lemma IdleStopKeepsThePosition(s: State, w: World, client: string, answer: Answer)
    requires Inv(s) && !s.life.ended && !OwnedByAnother(s.life, w.now, client, false)
    requires s.engine.movement.None? && w.coverThere
    ensures var r := Turn(s, w, Stop(client, answer));
            r.place == Place(s.place.at, s.place.trace + [IdleStop]) && r.talk == s.talk && r.engine == s.engine
  {
    hide Inv;
  }

  // ---------------------------------------------------------------- the plan and the readings

  /** Whatever was repeated, interrupted, dealt again, grafted or replaced: a live session on a plan points
      into it, the plan ends in its only summary, the screen belongs to the stage pointed at, nothing has
      escaped, and each list of readings holds one entry for every fitting stage of its direction before
      the index, plus one only while `tape_result` shows that direction. */
  lemma PlanAndReadings(w: World, client: string, path: Option<Route>, profile: Option<string>,
                        turns: seq<(World, Event)>)
    ensures var s := LifeOf(w, client, path, profile, turns);
            var t := s.talk;
            && !t.escaped
            && (!s.life.ended && t.index.Some? ==>
                  && t.index.value < |t.plan| && WellFormed(t.plan) && Sits(t.shown.step, t.plan[t.index.value])
                  && |t.measured.descent| == Fitted(t.plan, Close, t.index.value) + Extra(t, Close)
                  && |t.measured.ascent| == Fitted(t.plan, Open, t.index.value) + Extra(t, Open))
            && (!s.life.ended && t.index.None? ==> t.measured.descent == [] && t.measured.ascent == [])
  {
    LifeIsKept(w, client, path, profile, turns);
    var s := LifeOf(w, client, path, profile, turns);
    InvIsSound(s);
    hide LifeOf, WellFormed, Fitted, NothingToFit;
  }

  // ---------------------------------------------------------------- nothing waits for ever

  ghost predicate HasLiveJob(s: State) {
    || LiveQueue(s.engine)
    || exists i :: 0 <= i < |s.engine.tasks| && !s.engine.tasks[i].Looping? && Live(s.engine, s.engine.tasks[i].job)
  }

  /** A movement screen has the job behind it that will take it away, unless the session is only waiting
      for the stop of an ending. */
  ghost predicate Going(s: State) {
    !s.life.ended && s.life.endings == [] && IsMoving(s.talk.shown.step) ==> HasLiveJob(s)
  }

  lemma ActGoes(s: State, w: World, client: string, revision: nat, a: Action, v: Value)
    requires Inv(s) && Going(s)
    ensures Going(TurnAct(s, w, client, revision, a, v))
  {
    hide Inv, Do, DoSubmit, AsyncEnd, GuardAct, Taken, Offered, Going, IsMoving;
    TakenCounts(s, w, client);
    var s1 := Taken(s, w, client);
    if GuardAct(s, w, client, revision, a).None? {
      if NamesNoProfile(s.talk, w, a, v) { SameGoes(s, s1) by { hide TurnAct; TakenEndings(s, w, client); } }
      else {
        var r := Carried(s1, w, a, v);
        if EndsTheSession(w, a) {
          PointsOnlyAdopts(s1, w);
          AsyncEndGoes(s1.(talk := Scoped(s1.talk, PointsOnly)), w, CoverGone, true);
        } else {
          ActCarries(s, w, client, revision, a, v);
          CarriedGoes(w, s1, r);
        }
        PumpGoes(r);
      }
    }
  }

  lemma TakenEndings(s: State, w: World, client: string)
    ensures Taken(s, w, client).life.endings == s.life.endings
  {
  }

  lemma SameGoes(s: State, r: State)
    requires Going(s) && r.talk.shown == s.talk.shown && r.life.ended == s.life.ended
             && r.life.endings == s.life.endings
    requires r.engine == s.engine.(movement := r.engine.movement, press := r.engine.press,
                                   pressTimer := r.engine.pressTimer)
    ensures Going(r)
  {
  }

  lemma CarriedGoes(w: World, s: State, r: State)
    requires Carries(w, s, r)
    ensures Going(r)
  {
  }

  lemma PumpGoes(s: State)
    requires Going(s)
    ensures Going(Pump(s))
  {
    if exists i :: 0 <= i < |s.engine.tasks| && !s.engine.tasks[i].Looping? && Live(s.engine, s.engine.tasks[i].job) {
      var i :| 0 <= i < |s.engine.tasks| && !s.engine.tasks[i].Looping? && Live(s.engine, s.engine.tasks[i].job);
      assert Pump(s).engine.tasks[i] == s.engine.tasks[i];
    }
  }

  lemma EndGoes(s: State, w: World, reason: EndReason)
    requires !s.life.ended
    ensures End(s, w, reason).life.ended && Finish(s, w, reason).life.ended
  {
  }

  lemma AsyncEndGoes(s: State, w: World, reason: EndReason, stop: bool)
    ensures Going(AsyncEnd(s, w, reason, stop))
  {
    hide End;
    if !s.life.ended { EndGoes(NextGeneration(s), w, reason); }
  }

  lemma ProblemGoes(s: State, w: World, reason: Reason)
    ensures Going(ShowProblem(s, w, reason))
  {
  }

  lemma VerbGoes(s: State, w: World, e: Event)
    requires Going(s)
    requires e.Attach? || e.Heartbeat? || e.Save?
    ensures Going(Turn(s, w, e))
  {
    hide Going, GuardSave, TurnAct;
    SameGoes(s, Turn(s, w, e));
  }

  lemma StopGoes(s: State, w: World, client: string, answer: Answer)
    requires Going(s)
    ensures Going(TurnStop(s, w, client, answer))
  {
    hide Going, ShowProblem;
    var r := TurnStop(s, w, client, answer);
    if !s.life.ended && !OwnedByAnother(s.life, w.now, client, false) && s.engine.movement.Some? {
      var s1 := StopSends(s, w, client);
      var s2 := if w.coverThere then Happens(s1, StopFrame) else s1;
      ProblemGoes(s2.(engine := s2.engine.(movement := None, press := None, pressTimer := None),
                      place := s2.place.(at := None)), w, StopRefused(w, answer).GetOr(Interrupted));
    } else {
      SameGoes(s, r);
    }
  }

  lemma EndingTurnGoes(s: State, w: World, e: Event)
    requires Going(s) && !s.life.ended
    requires e.Leave? || e.Cancel? || e.SaveReturns? || e.LeaseTimer? || e.Unload? || e.EndingReturns?
    ensures Going(Turn(s, w, e))
  {
    hide Going, End, AsyncEnd, Finish, AnythingMeasured, TurnAct;
    match e
    case Leave(client) => if Turn(s, w, e).life.ended { EndedGoes(Turn(s, w, e)); } else {
      EndGoes(s, w, Left); SameGoes(s, Turn(s, w, e)); }
    case Cancel(client, _) => AsyncEndGoes(Take(s, w, client), w, Cancelled, false);
    case SaveReturns(which, written) =>
      if which < |s.life.saves| {
        var s1 := s.(life := s.life.(saves := Without(s.life.saves, which)));
        EndGoes(s1, w, Saved);
        if written { EndedGoes(Finish(s1, w, Saved)); } else { SameGoes(s, s1); }
      }
    case LeaseTimer => AsyncEndGoes(s.(life := s.life.(lease := None)), w, Expired, true);
    case Unload => AsyncEndGoes(s, w, Unloaded, true);
    case EndingReturns(which) =>
      if which < |s.life.endings| {
        var s1 := s.(life := s.life.(endings := Without(s.life.endings, which)));
        EndGoes(s1, w, s.life.endings[which]);
        EndedGoes(End(s1, w, s.life.endings[which]));
      }
  }

  lemma EndedGoes(s: State)
    requires s.life.ended
    ensures Going(s)
  {
  }

  lemma CoverGoes(s: State, w: World, e: Event)
    requires Going(s)
    requires e.PressTimer? || e.CoverMoves? || e.CoverRests?
    ensures Going(Turn(s, w, e))
  {
    hide TurnAct, HasLiveJob;
    MovingOrPress(s.talk.shown.step);
    if e.PressTimer? && s.engine.pressTimer.Some? { SameGoes(s, s.(engine := s.engine.(pressTimer := None))); }
  }

  lemma ConcludeGoes(s: State, w: World, job: Job, answer: Answer, error: Option<Reason>)
    requires !Conclude(s, w, job, answer, error).talk.escaped
    requires job.next.ToScreen? ==> !IsMoving(job.next.screen)
    ensures Going(Conclude(s, w, job, answer, error))
  {
    hide Goto, AsyncEnd, ShowProblem, Settle, Carries, Going;
    if error.None? && answer.Done? {
      var s1 := Settle(s, job.primitive, answer);
      var goesOn := job.next.ToScreen? && IsPress(job.next.screen);
      var s2 := if goesOn then s1 else s1.(engine := s1.engine.(movement := None));
      GotoCarries(s2, w, job.next, job.notice);
      CarriedGoes(w, s2, Goto(s2, w, job.next, job.notice));
    } else {
      var s1 := s.(engine := s.engine.(movement := None));
      if error == Some(UnknownCover) {
        AsyncEndGoes(s1, w, CoverGone, true);
      } else {
        ProblemGoes(s1, w, error.GetOr(Unknown));
      }
    }
  }

  lemma DeadTaskGoes(s: State, which: nat, error: Option<Reason>)
    requires Going(s) && which < |s.engine.tasks|
             && (s.engine.tasks[which].Looping? || Overtaken(s, s.engine.tasks[which].job))
    ensures Going(TaskBecomes(s, which, Looping).(talk := s.talk.(error := error)))
    ensures Going(TaskBecomes(s, which, Looping))
  {
    var r := TaskBecomes(s, which, Looping);
    if exists i :: 0 <= i < |s.engine.tasks| && !s.engine.tasks[i].Looping? && Live(s.engine, s.engine.tasks[i].job) {
      var i :| 0 <= i < |s.engine.tasks| && !s.engine.tasks[i].Looping? && Live(s.engine, s.engine.tasks[i].job);
      if i != which { assert r.engine.tasks[i] == s.engine.tasks[i]; }
    }
  }

  lemma CompleteGoes(s: State, w: World, which: nat, job: Job, answer: Answer)
    requires which < |s.engine.tasks| && !Complete(s, w, which, job, answer).talk.escaped
    requires Overtaken(s, job) ==> Going(s) && (s.engine.tasks[which].Looping? || s.engine.tasks[which].job == job)
    requires Overtaken(s, job) || (job.next.ToScreen? ==> !IsMoving(job.next.screen))
    ensures Going(Complete(s, w, which, job, answer))
  {
    hide Conclude, Going, IsMoving;
    var error := if answer.Done? then s.talk.error else ErrorOf(answer);
    var s1 := TaskBecomes(s, which, Looping).(talk := s.talk.(error := error));
    if Overtaken(s1, job) { DeadTaskGoes(s, which, error); } else { ConcludeGoes(s1, w, job, answer, error); }
  }

  lemma LaunchGoes(s: State, w: World, which: nat, job: Job)
    requires which < |s.engine.tasks| && !Overtaken(s, job) && !Launch(s, w, which, job).talk.escaped
    requires job.next.ToScreen? ==> !IsMoving(job.next.screen)
    ensures Going(Launch(s, w, which, job))
  {
    if w.coverThere {
      var r := Launch(s, w, which, job);
      assert r.engine.tasks[which] == Driving(job);
    } else {
      hide Complete, Going, IsMoving;
      CompleteGoes(s, w, which, job, Failed(UnknownCover));
    }
  }

  lemma StartGoes(s: State, w: World, which: nat, job: Job)
    requires which < |s.engine.tasks| && !StartJob(s, w, which, job).talk.escaped
    requires Overtaken(s, job) ==> Going(s)
    requires Overtaken(s, job) || (job.next.ToScreen? ==> !IsMoving(job.next.screen))
    ensures Going(StartJob(s, w, which, job))
  {
    hide Launch, IsMoving;
    var s1 := s.(talk := s.talk.(error := None, stopFirst := false), place := s.place.(at := None));
    if !Overtaken(s, job) {
      if s.talk.stopFirst && w.coverThere { assert StartJob(s, w, which, job).engine.tasks[which] == Stopping(job); }
      else { LaunchGoes(s1, w, which, job); }
    }
  }

  lemma QueueGoes(s: State, w: World, which: nat, answer: Answer)
    requires Inv(s) && Going(s) && which < |s.engine.tasks| && s.engine.tasks[which].Looping?
    requires !RunTask(s, w, which, answer).talk.escaped
    ensures Going(RunTask(s, w, which, answer))
  {
    hide StartJob, JobFits, IsMoving, TalkKept, MovingKept, JobsKept, TrustKept, LifeKept;
    if s.engine.queued.Some? {
      var job := s.engine.queued.value;
      if !Overtaken(s, job) { QueuedNext(s); BehindNext(s.talk, job); }
      var s0 := s.(engine := s.engine.(queued := None));
      StartGoes(s0, w, which, job);
    } else {
      assert |s.engine.tasks| == 1;
    }
  }

  lemma TaskGoes(s: State, w: World, which: nat, answer: Answer)
    requires Inv(s) && Going(s) && which < |s.engine.tasks|
    ensures Going(RunTask(s, w, which, answer))
  {
    TaskTurnKeeps(s, w, which, answer);
    InvIsSound(RunTask(s, w, which, answer));
    hide Inv, Complete, Launch, StartJob, Going, IsMoving;
    if s.engine.tasks[which].Looping? { QueueGoes(s, w, which, answer); }
    else {
      LiveTask(s, which);
      var job := s.engine.tasks[which].job;
      if s.engine.tasks[which].Driving? || answer.FailedOtherwise? { CompleteGoes(s, w, which, job, answer); }
      else if Overtaken(s, job) { DeadTaskGoes(s, which, None); }
      else { LaunchGoes(s, w, which, job); }
    }
  }

  lemma TurnGoes(s: State, w: World, e: Event)
    requires Inv(s) && Going(s)
    ensures Going(Turn(s, w, e))
  {
    if s.life.ended {
      EndedTurnIsInert(s, w, e);
      hide Inv, Turn;
    } else {
      hide Inv, Going, TurnAct, RunTask, TurnStop;
      match e
      case Act(client, revision, action, value) => ActGoes(s, w, client, revision, action, value);
      case TaskTurn(which, answer) => if which < |s.engine.tasks| { TaskGoes(s, w, which, answer); }
      case Stop(client, answer) => StopGoes(s, w, client, answer);
      case Attach(_, _) | Heartbeat(_) | Save(_, _, _) => VerbGoes(s, w, e);
      case PressTimer | CoverMoves(_) | CoverRests(_) => CoverGoes(s, w, e);
      case _ => EndingTurnGoes(s, w, e);
    }
  }

  lemma {:induction false} RunGoes(s: State, turns: seq<(World, Event)>)
    requires Inv(s) && Going(s)
    ensures Going(Run(s, turns))
    decreases |turns|
  {
    if turns != [] {
      TurnKeeps(s, turns[0].0, turns[0].1);
      TurnGoes(s, turns[0].0, turns[0].1);
      hide Turn, Inv, Going;
      RunGoes(Turn(s, turns[0].0, turns[0].1), turns[1..]);
    }
  }

  lemma StillScreenAsks(t: Talk, w: World)
    requires !IsMoving(t.shown.step)
    requires t.shown.notice == Some(ReadingStale) ==> IsTapeForm(t.shown.step)
    ensures t.shown.step.Summing? || exists a :: Offered(t, w, a)
  {
    var step := t.shown.step;
    if FormOf(step).Some? { assert Offered(t, w, Submit); }
    else if step.ChoosePath? { assert Offered(t, w, ChooseFirst); }
    else if !step.Summing? {
      var a := match step
        case PathAWarning => Begin
        case RefineScope => DoTimesOnly
        case HomeClosedDone => ConfirmClosed
        case OpenLift => LiftedOff
        case LiftCheck | LiftCheckLate => LiftAccept
        case ClosedAgain => ConfirmClosedAgain
        case OpenTop => StoppedOpen
        case CloseBottom => StoppedClosed
        case HeightResult | TapeResult | VerifyResult | OpenResult | OpenResultGap | CloseResult => AcceptStep
        case TapeBriefing => StartTape
        case VerifyOffering => SkipVerify
        case _ => RepeatStep;
      assert Offered(t, w, a);
    }
  }

  lemma PressIsTimed(s: State)
    requires Settled(s)
    ensures IsPress(s.talk.shown.step) ==> s.engine.pressTimer.Some?
    ensures s.talk.shown.notice == Some(ReadingStale) ==> IsTapeForm(s.talk.shown.step)
  {
    hide TasksKept, TrustKept, LifeKept, JobsKept, PlanKept, PathKept, ReadingsKept;
  }

  lemma JobBehind(s: State)
    requires Inv(s) && HasLiveJob(s) && !s.life.ended
    ensures s.engine.pumping && exists j :: LiveJob(s, j)
  {
    hide Settled, Over;
    if LiveQueue(s.engine) { assert LiveJob(s, s.engine.queued.value); }
    else {
      var i :| 0 <= i < |s.engine.tasks| && !s.engine.tasks[i].Looping? && Live(s.engine, s.engine.tasks[i].job);
      var j := s.engine.tasks[i].job;
      assert s.engine.tasks[i] in s.engine.tasks;
      assert LiveJob(s, j);
      TasksPump(s);
    }
  }

  lemma TasksPump(s: State)
    requires Inv(s) && |s.engine.tasks| > 0
    ensures s.engine.pumping
  {
  }

  /** No bar spins for ever. A live session with no ending under way shows a movement with a job behind it
      and a pump running, or waits for a press with the clock of that press armed, or shows a screen that
      offers the user something: an action, a form, or an exit of the summary that a save of the owner, or
      of anybody while no owner is present, passes all its guards for. */
  lemma NeverStuck(w: World, client: string, path: Option<Route>, profile: Option<string>, turns: seq<(World, Event)>,
                   w1: World)
    ensures var s := LifeOf(w, client, path, profile, turns);
            !s.life.ended && s.life.endings == [] ==>
              if IsMoving(s.talk.shown.step) then s.engine.pumping && exists j :: LiveJob(s, j)
              else && (IsPress(s.talk.shown.step) ==> s.engine.pressTimer.Some?)
                   && (if s.talk.shown.step.Summing? then exists target :: SavedByAnyone(s, target)
                       else exists a :: Offered(s.talk, w1, a))
  {
    var s := LifeOf(w, client, path, profile, turns);
    LifeIsKept(w, client, path, profile, turns);
    BornKept(w, client, path, profile);
    BornGoes(w, client, path, profile);
    RunGoes(Born(w, client, path, profile), turns);
    hide LifeOf, Born, Settled, Over, IsMoving, HasLiveJob, IsPress, Offered, SavedByAnyone;
    if !s.life.ended && s.life.endings == [] {
      LiveIsSettled(s);
      PressIsTimed(s);
      if s.talk.shown.step.Summing? { SummaryHasAnExit(s); }
      if IsMoving(s.talk.shown.step) { JobBehind(s); } else { StillScreenAsks(s.talk, w1); }
    }
  }

  /** A save to that target passes every guard, on the revision there is, for every client that may act. */
  ghost predicate SavedByAnyone(s: State, target: Target) {
    forall w: World, c: string ::
      !OwnedByAnother(s.life, w.now, c, false) ==> GuardSave(s, w, c, s.life.revision, target) == None
  }

  lemma SummaryHasAnExit(s: State)
    requires Settled(s) && s.talk.shown.step.Summing?
    ensures SavedByAnyone(s, if s.talk.choice.path == Some(Profile) then ProfileTarget else CoverOnly)
  {
    hide TasksKept, TrustKept, LifeKept, JobsKept, MovingKept, PlanKept, ReadingsKept, AimKept, IsAName, OwnedByAnother,
      NothingToFit;
  }

  lemma LiveIsSettled(s: State)
    requires Inv(s) && !s.life.ended
    ensures Settled(s)
  {
  }

  lemma BornGoes(w: World, client: string, path: Option<Route>, profile: Option<string>)
    ensures Going(Born(w, client, path, profile))
  {
  }

  // ---------------------------------------------------------------- the queue

  lemma EndKeepsTheQueue(s: State, w: World, reason: EndReason, stop: bool)
    ensures var e := End(s, w, reason).engine; e.queued == None || e.queued == s.engine.queued
    ensures var e := Finish(s, w, reason).engine; e.queued == None || e.queued == s.engine.queued
    ensures var e := AsyncEnd(s, w, reason, stop).engine; e.queued == None || e.queued == s.engine.queued
  {
  }

  lemma DeadTaskKeepsTheQueue(s: State, w: World, which: nat, answer: Answer)
    requires which < |s.engine.tasks| && !s.engine.tasks[which].Looping? && Overtaken(s, s.engine.tasks[which].job)
    ensures RunTask(s, w, which, answer).engine.queued == s.engine.queued
  {
    hide Conclude;
  }

  lemma StartedQueueIsEmpty(s: State, w: World, which: nat, answer: Answer)
    requires which < |s.engine.tasks| && s.engine.tasks[which].Looping?
    ensures RunTask(s, w, which, answer).engine.queued == None
  {
    hide Goto, ShowProblem;
  }

  /** A live job in the queue is never overwritten: no turn puts another in its place. */
  lemma QueueIsNotOverwritten(s: State, w: World, e: Event)
    requires Inv(s) && s.engine.queued.Some? && LiveJob(s, s.engine.queued.value)
    ensures var q := Turn(s, w, e).engine.queued; q == None || q == s.engine.queued
  {
    LiveJobShows(s, s.engine.queued.value);
    match e
    case Act(client, revision, action, value) => MovingRefuses(s, w, client, revision, action, value); hide *;
    case TaskTurn(which, answer) =>
      hide RunTask, Inv, IsMoving;
      if which < |s.engine.tasks| {
        if s.engine.tasks[which].Looping? { StartedQueueIsEmpty(s, w, which, answer); }
        else { DeadTaskKeepsTheQueue(s, w, which, answer); }
      }
    case _ =>
      hide Inv, IsMoving, TurnAct, RunTask, End, Finish, AnythingMeasured, GuardSave;
      OtherTurnKeepsTheQueue(s, w, e);
  }

  lemma OtherTurnKeepsTheQueue(s: State, w: World, e: Event)
    requires !e.Act? && !e.TaskTurn?
    ensures var q := Turn(s, w, e).engine.queued; q == None || q == s.engine.queued
  {
    hide TurnAct, RunTask, End, Finish, AsyncEnd, AnythingMeasured, GuardSave;
    match e
    case Leave(client) => EndKeepsTheQueue(s, w, Left, false);
    case Cancel(client, _) => EndKeepsTheQueue(Take(s, w, client), w, Cancelled, false);
    case SaveReturns(which, _) =>
      if which < |s.life.saves| {
        EndKeepsTheQueue(s.(life := s.life.(saves := Without(s.life.saves, which))), w, Saved, false);
      }
    case LeaseTimer => EndKeepsTheQueue(s.(life := s.life.(lease := None)), w, Expired, true);
    case Unload => EndKeepsTheQueue(s, w, Unloaded, true);
    case EndingReturns(which) =>
      if which < |s.life.endings| {
        EndKeepsTheQueue(s.(life := s.life.(endings := Without(s.life.endings, which))), w, s.life.endings[which],
                         false);
      }
    case _ =>
  }
}
