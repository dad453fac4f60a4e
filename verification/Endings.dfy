/** A session ends once, for one reason, and nothing of it changes afterwards. */
module Endings {
  import opened Wrappers
  import opened Screens
  import opened Session
  import opened SessionInvariant
  import opened SessionProof
  import opened SessionTurns
  import opened SessionEffects
  import opened Revisions

  // ---------------------------------------------------------------- after the end

  /** Nothing but the error of a movement that was still out, and the work that was still suspended. */
  ghost predicate Frozen(s: State, r: State) {
    && r.talk == s.talk.(error := r.talk.error)
    && r.place == s.place
    && r.engine == s.engine.(tasks := r.engine.tasks, pumping := r.engine.pumping)
    && r.life == s.life.(saves := r.life.saves, endings := r.life.endings)
  }

  lemma EndedTaskIsInert(s: State, w: World, which: nat, answer: Answer)
    requires s.life.ended && s.engine.queued.None? && which < |s.engine.tasks|
    ensures Frozen(s, RunTask(s, w, which, answer))
  {
    hide Conclude;
  }

  lemma EndedVerbsAreInert(s: State, w: World, e: Event)
    requires s.life.ended && s.engine.pressTimer.None? && s.life.lease.None? && !e.TaskTurn?
    ensures Frozen(s, Turn(s, w, e))
  {
    hide Pump, Carried, Taken, RunTask, External, Interrupt, Offered, StopReturns, StopSends, AnythingMeasured;
  }

  lemma OverIsQuiet(s: State)
    requires Inv(s) && s.life.ended
    ensures s.engine.queued.None? && s.engine.pressTimer.None? && s.life.lease.None? && s.life.owner.None?
    ensures s.life.outcome.Some? && !s.life.claimed
  {
  }

  lemma EndedTurnIsInert(s: State, w: World, e: Event)
    requires Inv(s) && s.life.ended
    ensures Frozen(s, Turn(s, w, e))
  {
    OverIsQuiet(s);
    hide Inv, Frozen, RunTask;
    if e.TaskTurn? {
      if e.which < |s.engine.tasks| { EndedTaskIsInert(s, w, e.which, e.answer); } else { FrozenSelf(s); }
    } else {
      EndedVerbsAreInert(s, w, e);
    }
  }

  lemma FrozenSelf(s: State)
    ensures Frozen(s, s)
  {
  }

  /** After the end the outcome, the owner, what was measured, the plan, the queue, the timers, the revision
      and the shutter's history stay as they are, through any run: no frame ever goes out again. */
  lemma {:induction false} AfterTheEnd(s: State, turns: seq<(World, Event)>)
    requires Inv(s) && s.life.ended
    ensures Frozen(s, Run(s, turns))
    decreases |turns|
  {
    if turns == [] { FrozenSelf(s); }
    else {
      EndedTurnIsInert(s, turns[0].0, turns[0].1);
      TurnKeeps(s, turns[0].0, turns[0].1);
      hide Turn, Inv;
      AfterTheEnd(Turn(s, turns[0].0, turns[0].1), turns[1..]);
    }
  }

  lemma {:induction false} RunInTwo(s: State, first: seq<(World, Event)>, rest: seq<(World, Event)>)
    ensures Run(s, first + rest) == Run(Run(s, first), rest)
    decreases |first|
  {
    hide Turn;
    if first == [] { assert first + rest == rest; }
    else {
      assert (first + rest)[0] == first[0] && (first + rest)[1..] == first[1..] + rest;
      RunInTwo(Turn(s, first[0].0, first[0].1), first[1..], rest);
    }
  }

  lemma {:induction false} RunInOne(s: State, turns: seq<(World, Event)>)
    requires turns != []
    ensures var n := |turns| - 1; Run(s, turns) == Turn(Run(s, turns[..n]), turns[n].0, turns[n].1)
  {
    var n := |turns| - 1;
    assert turns == turns[..n] + [turns[n]];
    RunInTwo(s, turns[..n], [turns[n]]);
    hide Turn;
    assert [turns[n]][1..] == [];
    assert Run(Run(s, turns[..n]), [turns[n]]) == Turn(Run(s, turns[..n]), turns[n].0, turns[n].1);
  }

  /** An ended session stays so: one that is live after a run was live all the way. */
  lemma LiveBefore(s: State, w: World, e: Event)
    requires Inv(s) && s.life.ended
    ensures Turn(s, w, e).life.ended
  {
    EndedTurnIsInert(s, w, e);
    hide Turn, Inv;
  }

  /** However save, cancel, leave, the lease, a cover that is gone and an unload race, a session that has
      ended at some moment of its life has the same outcome, owner, values and plan at every later one. */
  lemma EndsOnce(w: World, client: string, path: Option<Route>, profile: Option<string>,
                 turns: seq<(World, Event)>, k: nat)
    requires k <= |turns|
    requires Run(Born(w, client, path, profile), turns[..k]).life.ended
    ensures Frozen(Run(Born(w, client, path, profile), turns[..k]), Run(Born(w, client, path, profile), turns))
    ensures Run(Born(w, client, path, profile), turns).life.outcome.Some?
  {
    var s := Born(w, client, path, profile);
    BornKept(w, client, path, profile);
    assert turns == turns[..k] + turns[k..];
    hide Born, Inv, Turn;
    RunInTwo(s, turns[..k], turns[k..]);
    RunKeeps(s, turns[..k]);
    AfterTheEnd(Run(s, turns[..k]), turns[k..]);
    RunKeeps(s, turns);
    OverIsQuiet(Run(s, turns));
  }

  /** Over every run: the shutter is held exactly while the session is live; once it has ended nobody owns it,
      nothing is queued and no timer runs; and while it is live its lease is armed, unless the ending that
      the lease began is still waiting for its stop. */
  lemma HeldWhileLive(w: World, client: string, path: Option<Route>, profile: Option<string>,
                      turns: seq<(World, Event)>)
    ensures var s := Run(Born(w, client, path, profile), turns);
            && (s.life.claimed <==> !s.life.ended) && (s.life.outcome.Some? <==> s.life.ended)
            && (s.life.ended ==> s.life.owner.None? && s.life.lease.None? && s.engine.pressTimer.None?
                                 && s.engine.queued.None? && s.engine.movement.None? && s.place.at.None?)
            && (!s.life.ended ==> s.life.lease.Some? || Expired in s.life.endings)
  {
    var s := Born(w, client, path, profile);
    BornKept(w, client, path, profile);
    hide Born;
    RunKeeps(s, turns);
    hide TalkKept, MovingKept, JobsKept, TasksKept, TrustKept, Run;
  }

  // ---------------------------------------------------------------- what ends a session

  /** The shutter runs on, so an ending that writes a stop has to wait for it first. */
  predicate WaitsForAStop(w: World) { w.coverThere && w.shutterMoving }

  /** The movement finds that the cover is not there any more. */
  predicate FindsNoCover(s: State, w: World, which: nat, answer: Answer) {
    which < |s.engine.tasks| &&
    match s.engine.tasks[which]
    case Looping => s.engine.queued.Some? && !Overtaken(s, s.engine.queued.value) && !w.coverThere
    case Stopping(job) => !Overtaken(s, job) && !answer.FailedOtherwise? && !w.coverThere
    case Driving(job) => !Overtaken(s, job) && answer == Failed(UnknownCover)
  }

  /** The session holds something nobody else has: a name, or anything measured but a travel taken over from
      elsewhere, a gap without its run, and what is only said about the rest. */
  predicate HoldsSomething(t: Talk) {
    t.choice.name.Some?
    || t.measured.(height := None, liftGap := None, liftLate := false, verifyFraction := None, precise := false,
                   timesAdopted := false) != NOTHING_MEASURED
  }

  lemma MeasuredIsHeld(t: Talk)
    ensures AnythingMeasured(t) <==> HoldsSomething(t)
  {
  }

  /** The reason a turn ends a live session for, if it does. */
  function EndedBy(s: State, w: World, e: Event): Option<EndReason> {
    match e
    case Act(client, revision, a, v) =>
      if GuardAct(s, w, client, revision, a).None? && EndsTheSession(w, a) && !WaitsForAStop(w) then Some(CoverGone)
      else None
    case Leave(client) => if s.life.owner == Some(client) && !HoldsSomething(s.talk) then Some(Left) else None
    case Cancel(client, force) => if OwnedByAnother(s.life, w.now, client, force) then None else Some(Cancelled)
    case SaveReturns(which, written) => if which < |s.life.saves| && written then Some(Saved) else None
    case LeaseTimer => if s.life.lease.Some? && !WaitsForAStop(w) then Some(Expired) else None
    case Unload => if WaitsForAStop(w) then None else Some(Unloaded)
    case EndingReturns(which) => if which < |s.life.endings| then Some(s.life.endings[which]) else None
    case TaskTurn(which, answer) =>
      if FindsNoCover(s, w, which, answer) && !WaitsForAStop(w) then Some(CoverGone) else None
    case _ => None
  }

  /** What a save and any other ending leave of the conversation: all of it, or nothing that was measured. */
  predicate LeftBy(reason: EndReason, t: Talk, r: Talk) {
    && r.shown.problem.None? && r.shown.notice.None? && r.shown.formError.None?
    && (if reason.Saved? then r.measured == t.measured && r.plan == t.plan && r.index == t.index && r.review == t.review
        else r.measured == NOTHING_MEASURED && r.plan == [] && r.index.None? && r.review.None? && r.check.None?
             && r.instants.liftOff.None? && r.instants.stopDelivered.None?)
  }

  /** A turn that ends the session, for that reason, and otherwise leaves it live and its lease armed,
      unless it is the lease's own timer. */
  ghost predicate Ends(s: State, r: State, why: Option<EndReason>, disarms: bool) {
    && r.life.outcome == why
    && (r.life.ended <==> why.Some?)
    && (why.None? && s.life.lease.Some? ==> (r.life.lease.None? <==> disarms))
    && (why.None? ==> r.life.reservedUntil == s.life.reservedUntil)
    && (why.Some? ==> LeftBy(why.value, s.talk, r.talk))
  }

  lemma FinishEnds(s: State, w: World, reason: EndReason)
    requires !s.life.ended
    ensures Ends(s, Finish(s, w, reason), Some(reason), false)
    ensures Ends(s, End(s, w, reason), Some(reason), false)
  {
  }

  lemma AsyncEndEnds(s: State, s1: State, w: World, reason: EndReason, stop: bool)
    requires !s1.life.ended && s1.life.outcome.None?
    requires s1.life.lease == s.life.lease || s1.life.lease.None?
    requires s1.life.reservedUntil == s.life.reservedUntil && !reason.Saved?
    ensures Ends(s, AsyncEnd(s1, w, reason, stop),
                 if stop && WaitsForAStop(w) then None else Some(reason), s1.life.lease.None?)
  {
    hide End;
    FinishEnds(NextGeneration(s1), w, reason);
  }

  lemma CarriedEndsNothing(w: World, s: State, s1: State, r: State)
    requires Carries(w, s1, r) && !s.life.ended && s.life.outcome.None?
    requires s1.life.ended == s.life.ended && s1.life.outcome == s.life.outcome
             && s1.life.reservedUntil == s.life.reservedUntil
    ensures Ends(s, r, None, false)
  {
  }

  lemma LiveOutcome(s: State)
    requires Inv(s) && !s.life.ended
    ensures s.life.outcome.None?
  {
  }

  lemma AdoptedEnds(s: State, w: World, client: string)
    requires !s.life.ended && s.life.outcome.None? && w.inUse.None?
    ensures Ends(s, Pump(Do(Taken(s, w, client), w, DoPointsOnly)),
                 if WaitsForAStop(w) then None else Some(CoverGone), false)
  {
    var s1 := Taken(s, w, client);
    TakenCounts(s, w, client);
    TakenReserves(s, w, client);
    assert s1.life.lease.Some?;
    PointsOnlyAdopts(s1, w);
    PumpCounts(Do(s1, w, DoPointsOnly));
    hide Pump, Do, AsyncEnd, Taken;
    AsyncEndEnds(s1, s1.(talk := Scoped(s1.talk, PointsOnly)), w, CoverGone, true);
  }

  lemma CarriedOnEnds(s: State, w: World, client: string, revision: nat, a: Action, v: Value)
    requires Inv(s) && !s.life.ended && s.life.outcome.None? && GuardAct(s, w, client, revision, a).None?
    requires !NamesNoProfile(s.talk, w, a, v) && !EndsTheSession(w, a)
    ensures Ends(s, Pump(Carried(Taken(s, w, client), w, a, v)), None, false)
  {
    hide Pump, Inv, Carried, Carries, GuardAct, Taken, Ends;
    var s1 := Taken(s, w, client);
    PumpCounts(Carried(s1, w, a, v));
    ActCarries(s, w, client, revision, a, v);
    TakenCounts(s, w, client);
    TakenReserves(s, w, client);
    CarriedEndsNothing(w, s, s1, Carried(s1, w, a, v));
    EndsByLife(s, Carried(s1, w, a, v), Pump(Carried(s1, w, a, v)));
  }

  lemma TakenReserves(s: State, w: World, client: string)
    ensures Taken(s, w, client).life.reservedUntil == s.life.reservedUntil
  {
  }

  lemma EndsByLife(s: State, r: State, r1: State)
    requires Ends(s, r, None, false) && r1.life == r.life
    ensures Ends(s, r1, None, false)
  {
  }

  lemma TakenEndsNothing(s: State, w: World, client: string)
    requires !s.life.ended && s.life.outcome.None?
    ensures Ends(s, Taken(s, w, client), None, false) && Ends(s, s, None, false)
  {
  }

  lemma ActEnds(s: State, w: World, client: string, revision: nat, a: Action, v: Value)
    requires Inv(s) && !s.life.ended
    ensures var e := Act(client, revision, a, v);
            Ends(s, TurnAct(s, w, client, revision, a, v), EndedBy(s, w, e), false)
  {
    LiveOutcome(s);
    TakenEndsNothing(s, w, client);
    hide Pump, Inv, Do, DoSubmit, GuardAct, Taken, Ends;
    if GuardAct(s, w, client, revision, a).None? && !NamesNoProfile(s.talk, w, a, v) {
      if EndsTheSession(w, a) { AdoptedEnds(s, w, client); } else { CarriedOnEnds(s, w, client, revision, a, v); }
    }
  }

  lemma VerbEnds(s: State, w: World, e: Event)
    requires !s.life.ended && s.life.outcome.None?
    requires e.Stop? || e.Attach? || e.Heartbeat? || e.Save? || e.CoverMoves? || e.CoverRests?
    ensures Ends(s, Turn(s, w, e), None, false)
  {
    hide AnythingMeasured, End, Finish, TurnAct, RunTask, TurnStop, External, Interrupt, GuardSave, OwnedByAnother;
    match e
    case Stop(client, answer) => StopEnds(s, w, client, answer);
    case CoverMoves(_) => ExternalEnds(s, w);
    case CoverRests(_) => InterruptEnds(s, s, w);
    case _ =>
  }

  lemma StopEnds(s: State, w: World, client: string, answer: Answer)
    requires !s.life.ended && s.life.outcome.None?
    ensures Ends(s, TurnStop(s, w, client, answer), None, false)
  {
    hide OwnedByAnother, StopRefused, WaitsFor;
  }

  lemma InterruptEnds(s: State, s1: State, w: World)
    requires !s.life.ended && s.life.outcome.None? && s1.life == s.life
    ensures Ends(s, Interrupt(s1, w), None, false)
  {
    hide WaitsFor;
  }

  lemma ExternalEnds(s: State, w: World)
    requires !s.life.ended && s.life.outcome.None?
    ensures Ends(s, External(s, w), None, false)
  {
    hide Interrupt, IsTapeForm, ModeOf, WaitsFor;
    InterruptEnds(s, s.(talk := s.talk.(externalMove := true), place := Place(None, s.place.trace + [Moved])), w);
  }

  lemma TimerEnds(s: State, w: World, e: Event)
    requires !s.life.ended && s.life.outcome.None?
    requires e.Leave? || e.Cancel? || e.SaveReturns? || e.PressTimer? || e.LeaseTimer? || e.Unload? || e.EndingReturns?
    ensures Ends(s, Turn(s, w, e), EndedBy(s, w, e), e.LeaseTimer?)
  {
    hide AnythingMeasured, HoldsSomething, End, Finish, AsyncEnd, TurnAct, RunTask;
    match e
    case Leave(client) => MeasuredIsHeld(s.talk); FinishEnds(s, w, Left);
    case Cancel(client, force) => AsyncEndEnds(s, Take(s, w, client), w, Cancelled, false);
    case SaveReturns(which, written) =>
      if which < |s.life.saves| { FinishEnds(s.(life := s.life.(saves := Without(s.life.saves, which))), w, Saved); }
    case PressTimer =>
    case LeaseTimer => AsyncEndEnds(s, s.(life := s.life.(lease := None)), w, Expired, true);
    case Unload => AsyncEndEnds(s, s, w, Unloaded, true);
    case EndingReturns(which) =>
      if which < |s.life.endings| {
        FinishEnds(s.(life := s.life.(endings := Without(s.life.endings, which))), w, s.life.endings[which]);
      }
  }

  lemma ConcludeEnds(s: State, w: World, job: Job, answer: Answer, error: Option<Reason>)
    requires !s.life.ended && s.life.outcome.None? && !Conclude(s, w, job, answer, error).talk.escaped
    requires job.next.ToScreen? ==> !IsMoving(job.next.screen)
    ensures Ends(s, Conclude(s, w, job, answer, error),
                 if !(error.None? && answer.Done?) && error == Some(UnknownCover) && !WaitsForAStop(w)
                 then Some(CoverGone) else None, false)
  {
    hide Goto, AsyncEnd, ShowProblem, Settle;
    if error.None? && answer.Done? {
      SettleKeeps(s, job.primitive, answer);
      var s1 := Settle(s, job.primitive, answer);
      var goesOn := job.next.ToScreen? && IsPress(job.next.screen);
      var s2 := if goesOn then s1 else s1.(engine := s1.engine.(movement := None));
      GotoCarries(s2, w, job.next, job.notice);
      CarriedEndsNothing(w, s, s2, Goto(s2, w, job.next, job.notice));
    } else {
      var s1 := s.(engine := s.engine.(movement := None));
      if error == Some(UnknownCover) { AsyncEndEnds(s, s1, w, CoverGone, true); }
      else {
        ProblemCarries(s1, w, error.GetOr(Unknown));
        CarriedEndsNothing(w, s, s1, ShowProblem(s1, w, error.GetOr(Unknown)));
      }
    }
  }

  lemma CompleteEnds(s: State, w: World, which: nat, job: Job, answer: Answer)
    requires !s.life.ended && s.life.outcome.None? && which < |s.engine.tasks|
    requires !Complete(s, w, which, job, answer).talk.escaped
    requires answer.Done? ==> s.talk.error.None? || Overtaken(s, job)
    requires Overtaken(s, job) || (job.next.ToScreen? ==> !IsMoving(job.next.screen))
    ensures Ends(s, Complete(s, w, which, job, answer),
                 if !Overtaken(s, job) && answer == Failed(UnknownCover) && !WaitsForAStop(w) then Some(CoverGone)
                 else None, false)
  {
    hide Conclude;
    var error := if answer.Done? then s.talk.error else ErrorOf(answer);
    var s1 := TaskBecomes(s, which, Looping).(talk := s.talk.(error := error));
    if !Overtaken(s1, job) { ConcludeEnds(s1, w, job, answer, error); }
  }

  lemma LaunchEnds(s: State, w: World, which: nat, job: Job)
    requires !s.life.ended && s.life.outcome.None? && which < |s.engine.tasks| && !Overtaken(s, job)
    requires !Launch(s, w, which, job).talk.escaped
    requires job.next.ToScreen? ==> !IsMoving(job.next.screen)
    ensures Ends(s, Launch(s, w, which, job), if w.coverThere then None else Some(CoverGone), false)
  {
    hide Complete;
    if !w.coverThere { CompleteEnds(s, w, which, job, Failed(UnknownCover)); }
  }

  lemma StartEnds(s: State, w: World, which: nat, job: Job)
    requires !s.life.ended && s.life.outcome.None? && which < |s.engine.tasks|
    requires !StartJob(s, w, which, job).talk.escaped
    requires Overtaken(s, job) || (job.next.ToScreen? ==> !IsMoving(job.next.screen))
    ensures Ends(s, StartJob(s, w, which, job),
                 if Overtaken(s, job) || w.coverThere then None else Some(CoverGone), false)
  {
    hide Launch;
    var s1 := s.(talk := s.talk.(error := None, stopFirst := false), place := s.place.(at := None));
    if !Overtaken(s, job) && !(s.talk.stopFirst && w.coverThere) { LaunchEnds(s1, w, which, job); }
  }

  lemma NoStaleError(s: State, which: nat)
    requires Inv(s) && which < |s.engine.tasks| && !s.engine.tasks[which].Looping?
    requires !Overtaken(s, s.engine.tasks[which].job)
    ensures s.talk.error.None?
  {
  }

  lemma QueueEnds(s: State, w: World, which: nat, answer: Answer)
    requires Inv(s) && !s.life.ended && s.life.outcome.None? && which < |s.engine.tasks|
             && s.engine.tasks[which].Looping?
    requires !RunTask(s, w, which, answer).talk.escaped
    ensures Ends(s, RunTask(s, w, which, answer), EndedBy(s, w, TaskTurn(which, answer)), false)
  {
    hide Inv, StartJob, JobFits, Ends, IsMoving;
    if s.engine.queued.Some? {
      var job := s.engine.queued.value;
      if !Overtaken(s, job) { QueuedNext(s); BehindNext(s.talk, job); }
      var s0 := s.(engine := s.engine.(queued := None));
      StartEnds(s0, w, which, job);
      EndsFrom(s, s0, StartJob(s0, w, which, job), if Overtaken(s, job) || w.coverThere then None else Some(CoverGone));
    } else {
      LiveOn(s, RunTask(s, w, which, answer));
    }
  }

  lemma LiveTask(s: State, which: nat)
    requires Inv(s) && which < |s.engine.tasks| && !s.engine.tasks[which].Looping?
    ensures var job := s.engine.tasks[which].job;
            Overtaken(s, job) || (s.talk.error.None? && (job.next.ToScreen? ==> !IsMoving(job.next.screen)))
  {
    hide Inv, JobFits, IsMoving;
    var job := s.engine.tasks[which].job;
    if !Overtaken(s, job) { NoStaleError(s, which); TaskNext(s, which); BehindNext(s.talk, job); }
  }

  lemma DrivingEnds(s: State, w: World, which: nat, answer: Answer)
    requires Inv(s) && !s.life.ended && s.life.outcome.None? && which < |s.engine.tasks|
             && s.engine.tasks[which].Driving?
    requires !RunTask(s, w, which, answer).talk.escaped
    ensures Ends(s, RunTask(s, w, which, answer), EndedBy(s, w, TaskTurn(which, answer)), false)
  {
    hide Inv, Complete, Ends, IsMoving;
    LiveTask(s, which);
    CompleteEnds(s, w, which, s.engine.tasks[which].job, answer);
  }

  lemma StoppingEnds(s: State, w: World, which: nat, answer: Answer)
    requires Inv(s) && !s.life.ended && s.life.outcome.None? && which < |s.engine.tasks|
             && s.engine.tasks[which].Stopping?
    requires !RunTask(s, w, which, answer).talk.escaped
    ensures Ends(s, RunTask(s, w, which, answer), EndedBy(s, w, TaskTurn(which, answer)), false)
  {
    hide Inv, Complete, Launch, Ends, IsMoving;
    LiveTask(s, which);
    var job := s.engine.tasks[which].job;
    if answer.FailedOtherwise? { CompleteEnds(s, w, which, job, answer); }
    else if Overtaken(s, job) { LiveOn(s, RunTask(s, w, which, answer)); }
    else { LaunchEnds(s, w, which, job); }
  }

  lemma TaskEnds(s: State, w: World, which: nat, answer: Answer)
    requires Inv(s) && !s.life.ended && which < |s.engine.tasks|
    ensures Ends(s, RunTask(s, w, which, answer), EndedBy(s, w, TaskTurn(which, answer)), false)
  {
    LiveOutcome(s);
    TaskTurnKeeps(s, w, which, answer);
    InvIsSound(RunTask(s, w, which, answer));
    hide Inv, Ends, RunTask, EndedBy;
    match s.engine.tasks[which]
    case Looping => QueueEnds(s, w, which, answer);
    case Stopping(_) => StoppingEnds(s, w, which, answer);
    case Driving(_) => DrivingEnds(s, w, which, answer);
  }

  lemma EndsFrom(s: State, s0: State, r: State, why: Option<EndReason>)
    requires Ends(s0, r, why, false) && s0.life == s.life && s0.talk == s.talk
    ensures Ends(s, r, why, false)
  {
  }

  lemma LiveOn(s: State, r: State)
    requires r.life == s.life && !s.life.ended && s.life.outcome.None?
    ensures Ends(s, r, None, false)
  {
  }

  /** A live session ends in a turn exactly for the reason `EndedBy` reads off the event, in no other turn: with
      everything it measured where it was saved, and emptied otherwise. In every turn it lives through, its lease
      goes on unless it was the lease's own timer. */
  lemma TurnEnds(s: State, w: World, e: Event)
    requires Inv(s) && !s.life.ended
    ensures Ends(s, Turn(s, w, e), EndedBy(s, w, e), e.LeaseTimer?)
  {
    LiveOutcome(s);
    hide Inv, TurnAct, RunTask, Ends, EndedBy;
    match e
    case Act(client, revision, action, value) => ActEnds(s, w, client, revision, action, value);
    case TaskTurn(which, answer) =>
      if which < |s.engine.tasks| { TaskEnds(s, w, which, answer); } else { NoSuchTask(s, w, which, answer); }
    case Leave(_) | Cancel(_, _) | SaveReturns(_, _) | PressTimer | LeaseTimer | Unload | EndingReturns(_) =>
      TimerEnds(s, w, e);
    case _ => VerbEnds(s, w, e); NothingEnds(s, w, e);
  }

  lemma NothingEnds(s: State, w: World, e: Event)
    requires e.Stop? || e.Attach? || e.Heartbeat? || e.Save? || e.CoverMoves? || e.CoverRests?
    ensures EndedBy(s, w, e) == None
  {
  }

  lemma NoSuchTask(s: State, w: World, which: nat, answer: Answer)
    requires |s.engine.tasks| <= which && !s.life.ended && s.life.outcome.None?
    ensures Ends(s, s, EndedBy(s, w, TaskTurn(which, answer)), false)
  {
  }

  /** Of two endings waiting for their stops the one that comes back first gives the outcome. */
  lemma FirstBackWins(s: State, w: World, w1: World, which: nat, other: nat)
    requires Inv(s) && !s.life.ended && which < |s.life.endings| && other + 1 < |s.life.endings|
    ensures var r := Turn(Turn(s, w, EndingReturns(which)), w1, EndingReturns(other));
            r.life.outcome == Some(s.life.endings[which])
  {
    TurnEnds(s, w, EndingReturns(which));
    TurnKeeps(s, w, EndingReturns(which));
    EndedTurnIsInert(Turn(s, w, EndingReturns(which)), w1, EndingReturns(other));
    hide Turn, Inv;
  }

  // ---------------------------------------------------------------- the reservation

  /** A session lets go of a shutter that still moves under it: some ending is reached, but not by a save, while the
      cover travels on and a movement of the session's is under way. */
  predicate LetsGoOfAMove(s: State, w: World, e: Event) {
    EndedBy(s, w, e).Some? && !e.SaveReturns? && s.engine.movement.Some? && WaitsForAStop(w)
  }

  /** The gateway is reserved in exactly those turns, until a full run from now is over. */
  lemma TurnReserves(s: State, w: World, e: Event)
    requires Inv(s) && !s.life.ended
    ensures Turn(s, w, e).life.reservedUntil
            == if LetsGoOfAMove(s, w, e) then Some(w.now + w.fullRun) else s.life.reservedUntil
  {
    TurnEnds(s, w, e);
    if EndedBy(s, w, e).Some? { EndingReserves(s, w, e); }
    hide Inv, Turn, EndedBy;
  }

  lemma EndingReserves(s: State, w: World, e: Event)
    requires !s.life.ended && EndedBy(s, w, e).Some?
    ensures Turn(s, w, e).life.reservedUntil
            == if LetsGoOfAMove(s, w, e) then Some(w.now + w.fullRun) else s.life.reservedUntil
  {
    hide TurnAct, RunTask, AnythingMeasured, HoldsSomething, OwnedByAnother, Finish, GuardAct;
    match e
    case Act(client, revision, a, v) => AdoptionReserves(s, w, client, revision, a, v);
    case TaskTurn(which, answer) => TaskReserves(s, w, which, answer);
    case SaveReturns(which, _) => FinishReserves(s.(life := s.life.(saves := Without(s.life.saves, which))), w, Saved);
    case Leave(_) => MeasuredIsHeld(s.talk); EndReserves(s, w, Left);
    case Cancel(client, _) => EndReserves(NextGeneration(Take(s, w, client)), w, Cancelled);
    case LeaseTimer => EndReserves(NextGeneration(s.(life := s.life.(lease := None))), w, Expired);
    case Unload => EndReserves(NextGeneration(s), w, Unloaded);
    case EndingReturns(which) =>
      EndReserves(s.(life := s.life.(endings := Without(s.life.endings, which))), w, s.life.endings[which]);
  }

  lemma FinishReserves(s: State, w: World, reason: EndReason)
    ensures Finish(s, w, reason).life.reservedUntil == s.life.reservedUntil
  {
  }

  lemma EndReserves(s: State, w: World, reason: EndReason)
    requires !s.life.ended
    ensures End(s, w, reason).life.reservedUntil
            == if WaitsForAStop(w) && s.engine.movement.Some? then Some(w.now + w.fullRun) else s.life.reservedUntil
  {
    hide Finish;
    FinishReserves(NextGeneration(s), w, reason);
    FinishReserves(NextGeneration(s).(life := s.life.(reservedUntil := Some(w.now + w.fullRun))), w, reason);
  }

  lemma AdoptionReserves(s: State, w: World, client: string, revision: nat, a: Action, v: Value)
    requires !s.life.ended && GuardAct(s, w, client, revision, a).None? && EndsTheSession(w, a) && !WaitsForAStop(w)
    ensures TurnAct(s, w, client, revision, a, v).life.reservedUntil == s.life.reservedUntil
  {
    hide GuardAct, Taken, Do, Pump, Finish;
    var s1 := Taken(s, w, client);
    TakenCounts(s, w, client);
    TakenReserves(s, w, client);
    PointsOnlyAdopts(s1, w);
    PumpCounts(Do(s1, w, DoPointsOnly));
    FinishReserves(NextGeneration(NextGeneration(s1.(talk := Scoped(s1.talk, PointsOnly)))), w, CoverGone);
  }

  lemma GotoReserves(s: State, w: World, next: Next, notice: Option<Notice>)
    ensures Goto(s, w, next, notice).life.reservedUntil == s.life.reservedUntil
  {
    hide LiftMeasured;
    LiftReserves(s, w);
  }

  lemma LiftReserves(s: State, w: World)
    ensures LiftMeasured(s, w).life.reservedUntil == s.life.reservedUntil
  {
  }

  lemma ConcludeReserves(s: State, w: World, job: Job, answer: Answer, error: Option<Reason>)
    ensures Conclude(s, w, job, answer, error).life.reservedUntil == s.life.reservedUntil
  {
    hide Goto, Finish;
    if error.None? && answer.Done? {
      var s1 := Settle(s, job.primitive, answer);
      SettleKeeps(s, job.primitive, answer);
      GotoReserves(s1, w, job.next, job.notice);
      GotoReserves(s1.(engine := s1.engine.(movement := None)), w, job.next, job.notice);
    } else {
      FinishReserves(NextGeneration(NextGeneration(s.(engine := s.engine.(movement := None)))), w, CoverGone);
    }
  }

  lemma TaskReserves(s: State, w: World, which: nat, answer: Answer)
    requires which < |s.engine.tasks|
    ensures RunTask(s, w, which, answer).life.reservedUntil == s.life.reservedUntil
  {
    hide Conclude;
    forall s1: State, job: Job, a: Answer, error: Option<Reason>
      ensures Conclude(s1, w, job, a, error).life.reservedUntil == s1.life.reservedUntil
    {
      ConcludeReserves(s1, w, job, a, error);
    }
  }
}
