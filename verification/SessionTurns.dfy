/** The turns of the machine one by one, and then a whole run: what `begin` publishes is well kept, and
    no event of any source breaks it. */
module SessionTurns {
  import opened Wrappers
  import opened Plans
  import opened Screens
  import opened Session
  import opened SessionInvariant
  import opened SessionProof

  // ---------------------------------------------------------------- the pump task

  lemma PumpEnds(s: State, which: nat)
    requires Settled(s) || Over(s)
    requires s.engine.queued.None? && which < |s.engine.tasks|
    ensures Inv(s.(engine := s.engine.(pumping := false, tasks := Without(s.engine.tasks, which))))
  {
    hide TrustKept, LifeKept, TalkKept, JobFits;
    assert |s.engine.tasks| == 1 && which == 0;
    assert Without(s.engine.tasks, which) == [];
  }

  lemma OverHasNoQueue(s: State)
    requires Over(s)
    ensures s.engine.queued == None
  {
  }

  lemma TaskTurnKeeps(s: State, w: World, which: nat, answer: Answer)
    requires Inv(s) && which < |s.engine.tasks|
    ensures Inv(RunTask(s, w, which, answer))
  {
    hide Complete, Launch, StartJob, Settled, Over;
    match s.engine.tasks[which]
    case Looping =>
      if s.engine.queued.None? { PumpEnds(s, which); }
      else {
        if Over(s) { OverHasNoQueue(s); }
        StartJobKeeps(s, w, which, s.engine.queued.value);
      }
    case Stopping(job) =>
      if answer.FailedOtherwise? { CompleteKeeps(s, w, which, job, answer); }
      else if Overtaken(s, job) { DeadTaskKeeps(s, which); }
      else { StoppedJobKeeps(s, w, which, job); }
    case Driving(job) => CompleteKeeps(s, w, which, job, answer);
  }

  // ---------------------------------------------------------------- interruptions

  /** Wherever something moves, the stage under way can be shown as a problem and repeated. */
  lemma MovingTalk(t: Talk, reason: Reason)
    requires TalkKept(t)
    requires IsMoving(t.shown.step) || IsPress(t.shown.step) || (t.shown.step.Problem? && OnPlan(t))
    ensures Ready(t, Problem(reason)) && Ready(t.(externalMove := true), Problem(reason))
  {
    hide Fitted, NothingToFit, WellFormed;
  }

  lemma UnderWay(t: Talk, e: Engine)
    requires MovingKept(t, e) && e.movement.Some?
    ensures IsMoving(t.shown.step) || IsPress(t.shown.step) || (t.shown.step.Problem? && OnPlan(t))
  {
  }

  lemma PressUnderWay(t: Talk, e: Engine)
    requires MovingKept(t, e) && e.press.Some?
    ensures e.movement.Some?
  {
  }

  /** Whatever was under way is overtaken, and the problem screen says why. */
  lemma OvertakenLands(s: State, w: World, talk: Talk, place: Place, reason: Reason)
    requires Settled(s) && TrustKept(place)
    requires talk == s.talk || talk == s.talk.(externalMove := true)
    requires var step := s.talk.shown.step; IsMoving(step) || IsPress(step) || (step.Problem? && OnPlan(s.talk))
    ensures Settled(ShowProblem(s.(talk := talk, place := place,
                                   engine := Overtake(s.engine).(movement := None, press := None,
                                                                 pressTimer := None)), w, reason))
  {
    hide TalkKept, MovingKept, JobsKept, TasksKept, TrustKept, LifeKept, NoLiveJob, Ready, ShowProblem;
    MovingTalk(s.talk, CodeOf(reason));
    var e := Overtake(s.engine).(movement := None, press := None, pressTimer := None);
    NextGenerationKeeps(s.engine, s.talk, s.place.at, e);
    ProblemLands(s.(talk := talk, place := place, engine := e), w, reason);
  }

  lemma AtNowhere(p: Place)
    requires TrustKept(p)
    ensures TrustKept(p.(at := None)) && TrustKept(Place(None, p.trace + [Moved]))
            && TrustKept(Place(None, p.trace + [StopFrame]))
    ensures TrustKept(p.(trace := p.trace + [IdleStop]))
  {
    TraceGrows(p.trace, Moved);
    TraceGrows(p.trace, StopFrame);
    TraceGrows(p.trace, IdleStop);
  }

  lemma InterruptKeeps(s: State, w: World)
    requires Settled(s)
    requires var step := s.talk.shown.step; IsMoving(step) || IsPress(step) || (step.Problem? && OnPlan(s.talk))
    ensures Settled(Interrupt(s, w))
  {
    AtNowhere(s.place);
    hide TalkKept, MovingKept, JobsKept, TasksKept, TrustKept, LifeKept, ShowProblem;
    OvertakenLands(s, w, s.talk, s.place.(at := None), Interrupted);
  }

  lemma StillIsIdle(t: Talk, e: Engine, at: Option<Direction>)
    requires JobsKept(t, e, at) && !IsMoving(t.shown.step)
    ensures NoLiveJob(e)
  {
  }

  lemma ExternalTalk(t: Talk, e: Engine)
    requires TalkKept(t) && MovingKept(t, e)
    ensures TalkKept(t.(externalMove := true)) && MovingKept(t.(externalMove := true), e)
  {
    hide Fitted, NothingToFit, WellFormed;
  }

  lemma PublishKeeps(s: State, w: World)
    requires Settled(s)
    ensures Settled(Publish(s, w))
  {
    hide TalkKept, MovingKept, JobsKept, TasksKept, TrustKept;
  }

  lemma ExternalKeeps(s: State, w: World)
    requires Settled(s)
    ensures Settled(External(s, w))
  {
    AtNowhere(s.place);
    ExternalTalk(s.talk, s.engine);
    MovingOrPress(s.talk.shown.step);
    hide TalkKept, MovingKept, JobsKept, TasksKept, TrustKept, LifeKept, NoLiveJob, ShowProblem, ShowWith;
    var talk := s.talk.(externalMove := true);
    var place := Place(None, s.place.trace + [Moved]);
    var mode := ModeOf(s.talk.shown.step);
    if mode.Running? || mode.Setting? {
      OvertakenLands(s, w, talk, place, Interrupted);
    } else {
      StillIsIdle(s.talk, s.engine, s.place.at);
      IdleJobs(talk, s.engine, None);
      var s1 := s.(talk := talk, place := place);
      if IsTapeForm(s.talk.shown.step) { TapeFormLands(s1, w, None, Some(ReadingStale)); } else { PublishKeeps(s1, w); }
    }
  }

  lemma CoverMovesKeeps(s: State, w: World, d: Direction)
    requires Inv(s)
    ensures Inv(TurnCoverMoves(s, w, d))
  {
    ExternalKeepsTheQueue(s, w);
    hide Settled, External;
    if Settled(s) { ExternalKeeps(s, w); }
  }

  lemma ExternalKeepsTheQueue(s: State, w: World)
    ensures var e := External(s, w).engine;
            (e.queued == None || e.queued == s.engine.queued) && e.pumping == s.engine.pumping
  {
  }

  lemma CoverRestsKeeps(s: State, w: World, wasMoving: bool)
    requires Inv(s)
    ensures Inv(TurnCoverRests(s, w, wasMoving))
  {
    if !s.life.ended && s.engine.press.Some? {
      PressUnderWay(s.talk, s.engine);
      UnderWay(s.talk, s.engine);
      InterruptKeeps(s, w);
      hide Settled, Over;
    }
  }

  // ---------------------------------------------------------------- the verbs but `act`

  lemma StopKeeps(s: State, w: World, client: string, answer: Answer)
    requires Inv(s)
    ensures Inv(TurnStop(s, w, client, answer))
  {
    if !s.life.ended && !OwnedByAnother(s.life, w.now, client, false) {
      TakenKeeps(s, w, client);
      AtNowhere(s.place);
      var s1 := Taken(s, w, client);
      if s.engine.movement.Some? {
        UnderWay(s.talk, s.engine);
        hide TalkKept, MovingKept, JobsKept, TasksKept, TrustKept, LifeKept, ShowProblem;
        var place := if w.coverThere then Place(None, s.place.trace + [StopFrame]) else s.place.(at := None);
        OvertakenLands(s1, w, s.talk, place, StopRefused(w, answer).GetOr(Interrupted));
        ProblemKeepsTheEngine(s1, w, place, StopRefused(w, answer).GetOr(Interrupted));
      } else {
        hide TalkKept, MovingKept, JobsKept, TasksKept, TrustKept, LifeKept;
      }
    }
  }

  lemma ProblemKeepsTheEngine(s: State, w: World, place: Place, reason: Reason)
    ensures ShowProblem(s.(place := place), w, reason).engine == s.engine
    ensures ShowProblem(s, w, reason).engine == s.engine
    ensures var e := Overtake(s.engine).(movement := None, press := None, pressTimer := None);
            ShowProblem(s.(place := place, engine := e), w, reason).engine == e
  {
  }

  lemma AttachKeeps(s: State, w: World, client: string, claim: bool)
    requires Inv(s)
    ensures Inv(TurnAttach(s, w, client, claim))
  {
    hide TalkKept, MovingKept, JobsKept, TasksKept, TrustKept, Quiet;
  }

  lemma HeartbeatKeeps(s: State, w: World, client: string)
    requires Inv(s)
    ensures Inv(TurnHeartbeat(s, w, client))
  {
    hide TalkKept, MovingKept, JobsKept, TasksKept, TrustKept, Quiet;
  }

  lemma EndingEmpties(s: State, w: World, reason: EndReason)
    requires !s.life.ended
    ensures End(s, w, reason).engine.queued == None
  {
  }

  lemma LeaveKeeps(s: State, w: World, client: string)
    requires Inv(s)
    ensures Inv(TurnLeave(s, w, client))
  {
    hide AnythingMeasured, Over, End;
    if !s.life.ended && s.life.owner == Some(client) {
      if Over(s) { OverIsEnded(s); }
      SettledIsSound(s);
      EndKeeps(s, w, Left);
      EndingEmpties(s, w, Left);
      hide TalkKept, MovingKept, JobsKept, TasksKept, TrustKept;
    }
  }

  lemma OverIsEnded(s: State)
    requires Over(s)
    ensures s.life.ended
  {
  }

  lemma CancelKeeps(s: State, w: World, client: string, force: bool)
    requires Inv(s)
    ensures Inv(TurnCancel(s, w, client, force))
  {
    if !s.life.ended && !OwnedByAnother(s.life, w.now, client, force) {
      hide TalkKept, MovingKept, JobsKept, TasksKept, TrustKept, AsyncEnd;
      assert Settled(Take(s, w, client));
      hide Settled, Over;
      AsyncEndKeeps(Take(s, w, client), w, Cancelled, false);
    }
  }

  lemma SaveKeeps(s: State, w: World, client: string, revision: nat, target: Target)
    requires Inv(s)
    ensures Inv(TurnSave(s, w, client, revision, target))
  {
    if GuardSave(s, w, client, revision, target).None? {
      TakenKeeps(s, w, client);
      hide TalkKept, MovingKept, JobsKept, TasksKept, TrustKept, Quiet;
    }
  }

  lemma SaveReturnsKeeps(s: State, w: World, which: nat, written: bool)
    requires Inv(s)
    ensures Inv(TurnSaveReturns(s, w, which, written))
  {
    if which < |s.life.saves| {
      var s1 := s.(life := s.life.(saves := Without(s.life.saves, which)));
      if Settled(s) { SettledIsSound(s); FinishKeeps(s1, w, Saved); }
      hide TalkKept, MovingKept, JobsKept, TasksKept, TrustKept;
    }
  }

  // ---------------------------------------------------------------- the timers and the endings

  lemma PressTimerKeeps(s: State, w: World)
    requires Inv(s)
    ensures Inv(TurnPressTimer(s, w))
  {
    if s.engine.pressTimer.Some? && !s.life.ended {
      if s.engine.press.Some? {
        PressUnderWay(s.talk, s.engine);
        UnderWay(s.talk, s.engine);
        hide TalkKept, MovingKept, JobsKept, TasksKept, TrustKept, LifeKept, ShowProblem;
        OvertakenLands(s, w, s.talk, s.place, Timeout);
        ProblemKeepsTheEngine(s, w, s.place, Timeout);
      } else {
        DisarmedKeeps(s);
        hide Settled, Over;
      }
    }
  }

  lemma DisarmedKeeps(s: State)
    requires Settled(s) && s.engine.press.None?
    ensures Settled(s.(engine := s.engine.(pressTimer := None)))
  {
    hide TalkKept, TrustKept, LifeKept, JobFits;
  }

  lemma LeaseTimerKeeps(s: State, w: World)
    requires Inv(s)
    ensures Inv(TurnLeaseTimer(s, w))
  {
    if s.life.lease.Some? && Settled(s) {
      SettledIsSound(s);
      var s1 := s.(life := s.life.(lease := None));
      var s2 := NextGeneration(s1);
      NextGenerationKeeps(s.engine, s.talk, s.place.at, s2.engine);
      if w.coverThere && w.shutterMoving {
        EndingStopIsTrusted(s.place);
        assert MovingKept(s.talk, s2.engine);
        hide TalkKept, JobsKept, TasksKept, TrustKept, MovingKept;
      } else {
        EndKeeps(s2, w, Expired);
        EndingEmpties(s2, w, Expired);
        hide Settled, Over, End;
      }
    }
  }

  lemma UnloadKeeps(s: State, w: World)
    requires Inv(s)
    ensures Inv(AsyncEnd(s, w, Unloaded, true))
  {
    if Settled(s) {
      hide Settled, Over, AsyncEnd;
      AsyncEndKeeps(s, w, Unloaded, true);
    }
  }

  lemma EndingReturnsKeeps(s: State, w: World, which: nat)
    requires Inv(s)
    ensures Inv(TurnEndingReturns(s, w, which))
  {
    if which < |s.life.endings| {
      var s1 := s.(life := s.life.(endings := Without(s.life.endings, which)));
      if Settled(s) {
        SettledIsSound(s);
        EndKeeps(s1, w, s.life.endings[which]);
        EndingEmpties(s1, w, s.life.endings[which]);
        hide Settled, Over, End;
      } else {
        hide TasksKept, TrustKept;
      }
    }
  }

  // ---------------------------------------------------------------- every turn, every run

  lemma TurnKeeps(s: State, w: World, e: Event)
    requires Inv(s)
    ensures Inv(Turn(s, w, e))
  {
    hide Inv, TurnAct, TurnStop, TurnAttach, TurnHeartbeat, TurnLeave, TurnCancel, TurnSave, TurnSaveReturns,
      TurnPressTimer, TurnLeaseTimer, TurnCoverMoves, TurnCoverRests, AsyncEnd, TurnEndingReturns, RunTask;
    match e
    case Act(client, revision, action, value) => ActKeeps(s, w, client, revision, action, value);
    case Stop(client, answer) => StopKeeps(s, w, client, answer);
    case Attach(client, claim) => AttachKeeps(s, w, client, claim);
    case Heartbeat(client) => HeartbeatKeeps(s, w, client);
    case Leave(client) => LeaveKeeps(s, w, client);
    case Cancel(client, force) => CancelKeeps(s, w, client, force);
    case Save(client, revision, target) => SaveKeeps(s, w, client, revision, target);
    case SaveReturns(which, written) => SaveReturnsKeeps(s, w, which, written);
    case PressTimer => PressTimerKeeps(s, w);
    case LeaseTimer => LeaseTimerKeeps(s, w);
    case CoverMoves(direction) => CoverMovesKeeps(s, w, direction);
    case CoverRests(wasMoving) => CoverRestsKeeps(s, w, wasMoving);
    case Unload => UnloadKeeps(s, w);
    case EndingReturns(which) => EndingReturnsKeeps(s, w, which);
    case TaskTurn(which, answer) => if which < |s.engine.tasks| { TaskTurnKeeps(s, w, which, answer); }
  }

  lemma BornTalk(path: Option<Route>, profile: Option<string>, ownHeight: Option<real>)
    ensures TalkKept(FreshTalk(path, profile, ownHeight)) && !IsPress(FreshTalk(path, profile, ownHeight).shown.step)
  {
    hide Fitted, WellFormed;
  }

  lemma BornKept(w: World, client: string, path: Option<Route>, profile: Option<string>)
    ensures Inv(Born(w, client, path, profile))
  {
    BornTalk(path, profile, w.ownHeight);
    hide TalkKept, FreshTalk;
  }

  /** Everything the invariant says holds after any sequence of turns, in any worlds. */
  lemma {:induction false} RunKeeps(s: State, turns: seq<(World, Event)>)
    requires Inv(s)
    ensures Inv(Run(s, turns))
    decreases |turns|
  {
    if turns != [] {
      TurnKeeps(s, turns[0].0, turns[0].1);
      hide Turn, Inv;
      RunKeeps(Turn(s, turns[0].0, turns[0].1), turns[1..]);
    }
  }
}
