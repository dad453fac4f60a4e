/** Who sends a frame to the shutter, and what an overtaken job still does. */
module Movements {
  import opened Wrappers
  import opened Screens
  import opened Session
  import opened SessionInvariant
  import opened SessionProof
  import opened SessionTurns
  import opened SessionEffects
  import opened Revisions
  import opened Endings

  predicate IsFrame(h: Happening) { h.HomeFrame? || h.FreeFrame? || h.RunFrame? }

  /** What came after `a` sent the shutter nowhere. */
  ghost predicate Extends(a: seq<Happening>, b: seq<Happening>) {
    a <= b && forall i :: |a| <= i < |b| ==> !IsFrame(b[i])
  }

  /** A turn that starts no primitive. */
  ghost predicate StartsNothing(s: State, r: State) {
    && r.engine.generation >= s.engine.generation
    && (s.life.ended ==> r.life.ended)
    && (forall j :: Driving(j) in r.engine.tasks ==> Driving(j) in s.engine.tasks)
    && Extends(s.place.trace, r.place.trace)
  }

  /** A turn that starts the primitive of a job nothing has overtaken. */
  ghost predicate Starts(s: State, r: State, job: Job) {
    && !Overtaken(s, job)
    && r.engine.generation >= s.engine.generation && r.life.ended == s.life.ended
    && r.place.trace == s.place.trace + [FrameOf(job.primitive)]
    && Driving(job) in r.engine.tasks
    && (forall j :: Driving(j) in r.engine.tasks ==> j == job || Driving(j) in s.engine.tasks)
  }

  ghost predicate StartsAtMostOne(s: State, r: State) { StartsNothing(s, r) || exists job :: Starts(s, r, job) }

  // ---------------------------------------------------------------- which turns send frames

  lemma SameEngineStartsNothing(s: State, r: State)
    requires r.engine.tasks == s.engine.tasks || r.engine.tasks == s.engine.tasks + [Looping]
    requires r.engine.generation >= s.engine.generation && (s.life.ended ==> r.life.ended)
    requires r.place.trace == s.place.trace || exists h :: !IsFrame(h) && r.place.trace == s.place.trace + [h]
    ensures StartsNothing(s, r)
  {
  }

  lemma CarriedStartsNothing(w: World, s: State, s1: State, r: State)
    requires Carries(w, s1, r) && s1.place.trace == s.place.trace && s1.life.ended == s.life.ended
    requires s1.engine.tasks == s.engine.tasks && s1.engine.generation == s.engine.generation
    ensures StartsNothing(s, r)
  {
    SameEngineStartsNothing(s, r);
  }

  lemma EndingStartsNothing(s: State, w: World, reason: EndReason, stop: bool)
    ensures StartsNothing(s, End(s, w, reason)) && StartsNothing(s, AsyncEnd(s, w, reason, stop))
    ensures StartsNothing(s, Finish(s, w, reason))
  {
    var r := AsyncEnd(s, w, reason, stop);
    assert r.place.trace == s.place.trace || r.place.trace == s.place.trace + [EndingStop];
  }

  lemma ActStartsNothing(s: State, w: World, client: string, revision: nat, a: Action, v: Value)
    requires Inv(s)
    ensures StartsNothing(s, TurnAct(s, w, client, revision, a, v))
  {
    hide Inv, Do, DoSubmit, Carries, AsyncEnd, GuardAct, StartsNothing, Taken, Pump, Offered;
    TakenCounts(s, w, client);
    var s1 := Taken(s, w, client);
    if GuardAct(s, w, client, revision, a).Some? || NamesNoProfile(s.talk, w, a, v) {
      SameEngineStartsNothing(s, TurnAct(s, w, client, revision, a, v));
    } else {
      var r := Carried(s1, w, a, v);
      if EndsTheSession(w, a) {
        PointsOnlyAdopts(s1, w);
        EndingStartsNothing(s1.(talk := Scoped(s1.talk, PointsOnly)), w, CoverGone, true);
        FromHere(s, s1.(talk := Scoped(s1.talk, PointsOnly)), r);
      } else {
        ActCarries(s, w, client, revision, a, v);
        CarriedStartsNothing(w, s, s1, r);
      }
      PumpStartsNothing(s, r);
    }
  }

  lemma FromHere(s: State, s1: State, r: State)
    requires StartsNothing(s1, r) && s1.place.trace == s.place.trace && s1.life.ended == s.life.ended
    requires s1.engine.tasks == s.engine.tasks && s1.engine.generation == s.engine.generation
    ensures StartsNothing(s, r)
  {
  }

  lemma PumpStartsNothing(s: State, r: State)
    requires StartsNothing(s, r)
    ensures StartsNothing(s, Pump(r))
  {
  }

  lemma VerbStartsNothing(s: State, w: World, e: Event)
    requires e.Stop? || e.Attach? || e.Heartbeat? || e.Save? || e.PressTimer? || e.CoverMoves? || e.CoverRests?
    ensures StartsNothing(s, Turn(s, w, e))
  {
    hide StartsNothing, TurnAct, RunTask, End, AsyncEnd, Finish, GuardSave;
    var r := Turn(s, w, e);
    assert r.place.trace == s.place.trace || r.place.trace == s.place.trace + [StopFrame]
           || r.place.trace == s.place.trace + [IdleStop] || r.place.trace == s.place.trace + [Moved];
    SameEngineStartsNothing(s, r);
  }

  lemma EndingTurnStartsNothing(s: State, w: World, e: Event)
    requires e.Leave? || e.Cancel? || e.SaveReturns? || e.LeaseTimer? || e.Unload? || e.EndingReturns?
    ensures StartsNothing(s, Turn(s, w, e))
  {
    hide StartsNothing, TurnAct, RunTask, End, AsyncEnd, Finish, AnythingMeasured;
    match e
    case Leave(client) =>
      EndingStartsNothing(s, w, Left, false);
      if !(s.life.owner == Some(client) && !AnythingMeasured(s.talk)) { SameEngineStartsNothing(s, Turn(s, w, e)); }
      else if s.life.ended { SameEngineStartsNothing(s, s); }
    case Cancel(client, force) =>
      var s1 := Take(s, w, client);
      EndingStartsNothing(s1, w, Cancelled, false);
      FromHere(s, s1, AsyncEnd(s1, w, Cancelled, false));
      SameEngineStartsNothing(s, s);
    case SaveReturns(which, written) =>
      SameEngineStartsNothing(s, s);
      if which < |s.life.saves| {
        var s1 := s.(life := s.life.(saves := Without(s.life.saves, which)));
        SameEngineStartsNothing(s, s1);
        EndingStartsNothing(s1, w, Saved, false);
        FromHere(s, s1, Finish(s1, w, Saved));
      }
    case LeaseTimer =>
      var s1 := s.(life := s.life.(lease := None));
      SameEngineStartsNothing(s, s);
      EndingStartsNothing(s1, w, Expired, true);
      FromHere(s, s1, AsyncEnd(s1, w, Expired, true));
    case Unload => EndingStartsNothing(s, w, Unloaded, true);
    case EndingReturns(which) =>
      SameEngineStartsNothing(s, s);
      if which < |s.life.endings| {
        var s1 := s.(life := s.life.(endings := Without(s.life.endings, which)));
        EndingStartsNothing(s1, w, s.life.endings[which], false);
        FromHere(s, s1, End(s1, w, s.life.endings[which]));
      }
  }

  // ---------------------------------------------------------------- the task's own turns

  lemma Onwards(s: State, s1: State, r: State)
    requires StartsNothing(s, s1) && StartsNothing(s1, r)
    ensures StartsNothing(s, r)
  {
  }

  lemma SettleStartsNothing(s: State, p: Primitive, answer: Answer)
    requires answer.Done?
    ensures StartsNothing(s, Settle(s, p, answer))
  {
  }

  lemma ConcludeStartsNothing(s: State, w: World, job: Job, answer: Answer, error: Option<Reason>)
    requires !Conclude(s, w, job, answer, error).talk.escaped
    requires job.next.ToScreen? ==> !IsMoving(job.next.screen)
    ensures StartsNothing(s, Conclude(s, w, job, answer, error))
  {
    hide Goto, AsyncEnd, ShowProblem, Settle, Carries, StartsNothing;
    if error.None? && answer.Done? {
      SettleStartsNothing(s, job.primitive, answer);
      SettleKeeps(s, job.primitive, answer);
      var s1 := Settle(s, job.primitive, answer);
      var goesOn := job.next.ToScreen? && IsPress(job.next.screen);
      var s2 := if goesOn then s1 else s1.(engine := s1.engine.(movement := None));
      GotoCarries(s2, w, job.next, job.notice);
      CarriedStartsNothing(w, s1, s2, Goto(s2, w, job.next, job.notice));
      Onwards(s, s1, Goto(s2, w, job.next, job.notice));
    } else {
      var s1 := s.(engine := s.engine.(movement := None));
      if error == Some(UnknownCover) {
        EndingStartsNothing(s1, w, CoverGone, true);
        FromHere(s, s1, AsyncEnd(s1, w, CoverGone, true));
      } else {
        ProblemCarries(s1, w, error.GetOr(Unknown));
        CarriedStartsNothing(w, s, s1, ShowProblem(s1, w, error.GetOr(Unknown)));
      }
    }
  }

  lemma BecomesLooping(s: State, which: nat, error: Option<Reason>)
    requires which < |s.engine.tasks|
    ensures StartsNothing(s, TaskBecomes(s, which, Looping))
    ensures StartsNothing(s, TaskBecomes(s, which, Looping).(talk := s.talk.(error := error)))
  {
  }

  lemma CompleteStartsNothing(s: State, w: World, which: nat, job: Job, answer: Answer)
    requires which < |s.engine.tasks| && !Complete(s, w, which, job, answer).talk.escaped
    requires Overtaken(s, job) || (job.next.ToScreen? ==> !IsMoving(job.next.screen))
    ensures StartsNothing(s, Complete(s, w, which, job, answer))
  {
    hide Conclude, StartsNothing, IsMoving;
    var error := if answer.Done? then s.talk.error else ErrorOf(answer);
    var s1 := TaskBecomes(s, which, Looping).(talk := s.talk.(error := error));
    BecomesLooping(s, which, error);
    if !Overtaken(s1, job) {
      ConcludeStartsNothing(s1, w, job, answer, error);
      Onwards(s, s1, Conclude(s1, w, job, answer, error));
    }
  }

  lemma LaunchStarts(s: State, w: World, which: nat, job: Job)
    requires which < |s.engine.tasks| && !Overtaken(s, job) && !Launch(s, w, which, job).talk.escaped
    requires job.next.ToScreen? ==> !IsMoving(job.next.screen)
    ensures if w.coverThere then Starts(s, Launch(s, w, which, job), job)
            else StartsNothing(s, Launch(s, w, which, job))
  {
    if w.coverThere {
      assert Launch(s, w, which, job).engine.tasks[which] == Driving(job);
    } else {
      hide Complete, StartsNothing;
      CompleteStartsNothing(s, w, which, job, Failed(UnknownCover));
    }
  }

  lemma StoppingStartsNothing(s: State, w: World, which: nat, job: Job)
    requires which < |s.engine.tasks|
    ensures StartsNothing(s, Happens(TaskBecomes(s, which, Stopping(job)), StopFrame))
  {
  }

  lemma StartStarts(s: State, w: World, which: nat, job: Job)
    requires which < |s.engine.tasks| && !StartJob(s, w, which, job).talk.escaped
    requires Overtaken(s, job) || (job.next.ToScreen? ==> !IsMoving(job.next.screen))
    ensures StartsAtMostOne(s, StartJob(s, w, which, job))
  {
    hide Launch, StartsNothing, IsMoving;
    var s1 := s.(talk := s.talk.(error := None, stopFirst := false), place := s.place.(at := None));
    var r := StartJob(s, w, which, job);
    if Overtaken(s, job) { SameEngineStartsNothing(s, s); }
    else if s.talk.stopFirst && w.coverThere { StoppingStartsNothing(s1, w, which, job); FromHere(s, s1, r); }
    else {
      LaunchStarts(s1, w, which, job);
      if w.coverThere { assert Starts(s, r, job); } else { FromHere(s, s1, r); }
    }
  }

  lemma QueueStarts(s: State, w: World, which: nat, answer: Answer)
    requires Inv(s) && which < |s.engine.tasks| && s.engine.tasks[which].Looping?
    requires !RunTask(s, w, which, answer).talk.escaped
    ensures StartsAtMostOne(s, RunTask(s, w, which, answer))
  {
    hide Inv, StartJob, JobFits, IsMoving, Starts, StartsNothing;
    if s.engine.queued.Some? {
      var job := s.engine.queued.value;
      if !Overtaken(s, job) { QueuedNext(s); BehindNext(s.talk, job); }
      var s0 := s.(engine := s.engine.(queued := None));
      StartStarts(s0, w, which, job);
      StartsFrom0(s, s0, StartJob(s0, w, which, job));
    } else {
      PumpEndStartsNothing(s, which);
    }
  }

  lemma PumpEndStartsNothing(s: State, which: nat)
    requires which < |s.engine.tasks|
    ensures StartsNothing(s, s.(engine := s.engine.(pumping := false, tasks := Without(s.engine.tasks, which))))
  {
  }

  lemma StartsFrom0(s: State, s0: State, r: State)
    requires StartsAtMostOne(s0, r) && s0 == s.(engine := s.engine.(queued := None))
    ensures StartsAtMostOne(s, r)
  {
    if !StartsNothing(s0, r) {
      var job :| Starts(s0, r, job);
      assert Starts(s, r, job);
    }
  }

  lemma TaskStarts(s: State, w: World, which: nat, answer: Answer)
    requires Inv(s) && which < |s.engine.tasks|
    ensures StartsAtMostOne(s, RunTask(s, w, which, answer))
  {
    TaskTurnKeeps(s, w, which, answer);
    InvIsSound(RunTask(s, w, which, answer));
    hide Inv, Complete, Launch, StartJob, Starts, StartsNothing, IsMoving;
    if s.engine.tasks[which].Looping? { QueueStarts(s, w, which, answer); }
    else {
      LiveTask(s, which);
      var job := s.engine.tasks[which].job;
      if s.engine.tasks[which].Driving? || answer.FailedOtherwise? { CompleteStartsNothing(s, w, which, job, answer); }
      else if Overtaken(s, job) { BecomesLooping(s, which, None); }
      else { LaunchStarts(s, w, which, job); }
    }
  }

  /** A turn starts at most one primitive; it belongs to a job that nothing has overtaken, which is then
      the one in flight; and no other turn sends the shutter anywhere. */
  lemma TurnStarts(s: State, w: World, e: Event)
    requires Inv(s)
    ensures StartsAtMostOne(s, Turn(s, w, e))
    ensures !e.TaskTurn? ==> StartsNothing(s, Turn(s, w, e))
  {
    hide Inv, TurnAct, RunTask, StartsNothing, Starts;
    match e
    case Act(client, revision, action, value) => ActStartsNothing(s, w, client, revision, action, value);
    case TaskTurn(which, answer) =>
      if which < |s.engine.tasks| { TaskStarts(s, w, which, answer); } else { SameEngineStartsNothing(s, s); }
    case Leave(_) | Cancel(_, _) | SaveReturns(_, _) | LeaseTimer | Unload | EndingReturns(_) =>
      EndingTurnStartsNothing(s, w, e);
    case _ => VerbStartsNothing(s, w, e);
  }

  // ---------------------------------------------------------------- overtaken jobs

  /** An overtaken job that comes back leaves nothing behind but its error. */
  lemma OvertakenJobIsInert(s: State, w: World, which: nat, answer: Answer)
    requires which < |s.engine.tasks| && !s.engine.tasks[which].Looping? && Overtaken(s, s.engine.tasks[which].job)
    ensures var r := Turn(s, w, TaskTurn(which, answer));
            r == TaskBecomes(s, which, Looping).(talk := s.talk.(error := r.talk.error))
            && Conversation(r) == Conversation(s) && r.life == s.life && r.place == s.place
  {
    hide Conclude, TurnAct, AsyncEnd, End, Finish;
  }

  /** An overtaken job that had not begun never sends its frame, in any run. */
  lemma {:induction false} OvertakenNeverStarts(s: State, job: Job, turns: seq<(World, Event)>)
    requires Inv(s) && Overtaken(s, job) && job.generation <= s.engine.generation && Driving(job) !in s.engine.tasks
    ensures Overtaken(Run(s, turns), job) && Driving(job) !in Run(s, turns).engine.tasks
    decreases |turns|
  {
    if turns != [] {
      TurnStarts(s, turns[0].0, turns[0].1);
      TurnKeeps(s, turns[0].0, turns[0].1);
      var r := Turn(s, turns[0].0, turns[0].1);
      hide Turn, Inv;
      OvertakenNeverStarts(r, job, turns[1..]);
    }
  }
}
