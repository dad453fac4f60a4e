/** The lease: what every turn does to it, and exactly when a live session is left without one. */
module Leases {
  import opened Wrappers
  import opened Screens
  import opened Session
  import opened SessionInvariant
  import opened SessionProof
  import opened SessionTurns
  import opened SessionEffects
  import opened Revisions
  import opened Endings
  import opened Safety

  /** A verb of a client that gets past the guards of its kind and takes the session for it. */
  predicate GetsThrough(s: State, w: World, e: Event) {
    match e
    case Act(client, revision, action, _) => GuardAct(s, w, client, revision, action).None?
    case Stop(client, _) => !s.life.ended && !OwnedByAnother(s.life, w.now, client, false)
    case Save(client, revision, target) => GuardSave(s, w, client, revision, target).None?
    case _ => false
  }

  /** A turn that starts the lease again: it publishes a revision, or a client gets through in it. */
  predicate Arms(s: State, w: World, e: Event) {
    Turn(s, w, e).life.revision > s.life.revision || GetsThrough(s, w, e)
  }

  /** What a turn nobody gets through in does to the lease of a session it does not end: it starts it with
      the revision it publishes, or it leaves both. */
  ghost predicate Leased(w: World, s: State, r: State) {
    !r.life.ended ==>
      || (r.life.lease == s.life.lease && r.life.revision == s.life.revision)
      || (r.life.lease == Anew(w, r) && r.life.revision > s.life.revision)
  }

  /** The lease started again on the screen there is. */
  function Anew(w: World, r: State): Option<real> { Some(w.now + WaitsFor(r.talk.shown.step)) }

  // ---------------------------------------------------------------- the pump

  lemma AsyncEndLeases(s: State, w: World, reason: EndReason, stop: bool)
    requires !s.life.ended
    ensures Leased(w, s, AsyncEnd(s, w, reason, stop))
  {
    hide End;
    EndGoes(NextGeneration(s), w, reason);
  }

  lemma ConcludeLeases(s: State, w: World, job: Job, answer: Answer, error: Option<Reason>)
    requires !s.life.ended && !Conclude(s, w, job, answer, error).talk.escaped
    requires job.next.ToScreen? ==> !IsMoving(job.next.screen)
    ensures Leased(w, s, Conclude(s, w, job, answer, error))
  {
    hide Goto, AsyncEnd, ShowProblem, Settle;
    if error.None? && answer.Done? {
      SettleKeeps(s, job.primitive, answer);
      var s1 := Settle(s, job.primitive, answer);
      var goesOn := job.next.ToScreen? && IsPress(job.next.screen);
      GotoCarries(if goesOn then s1 else s1.(engine := s1.engine.(movement := None)), w, job.next, job.notice);
    } else {
      var s1 := s.(engine := s.engine.(movement := None));
      if error == Some(UnknownCover) { AsyncEndLeases(s1, w, CoverGone, true); }
      else { ProblemCarries(s1, w, error.GetOr(Unknown)); }
    }
  }

  lemma CompleteLeases(s: State, w: World, which: nat, job: Job, answer: Answer)
    requires !s.life.ended && which < |s.engine.tasks| && !Complete(s, w, which, job, answer).talk.escaped
    requires Overtaken(s, job) || (job.next.ToScreen? ==> !IsMoving(job.next.screen))
    ensures Leased(w, s, Complete(s, w, which, job, answer))
  {
    hide Conclude;
    var error := if answer.Done? then s.talk.error else ErrorOf(answer);
    var s1 := TaskBecomes(s, which, Looping).(talk := s.talk.(error := error));
    if !Overtaken(s1, job) { ConcludeLeases(s1, w, job, answer, error); }
  }

  lemma LaunchLeases(s: State, w: World, which: nat, job: Job)
    requires !s.life.ended && which < |s.engine.tasks| && !Launch(s, w, which, job).talk.escaped
    requires Overtaken(s, job) || (job.next.ToScreen? ==> !IsMoving(job.next.screen))
    ensures Leased(w, s, Launch(s, w, which, job))
  {
    hide Complete;
    if !w.coverThere { CompleteLeases(s, w, which, job, Failed(UnknownCover)); }
  }

  lemma StartLeases(s: State, w: World, which: nat, job: Job)
    requires !s.life.ended && which < |s.engine.tasks| && !StartJob(s, w, which, job).talk.escaped
    requires Overtaken(s, job) || (job.next.ToScreen? ==> !IsMoving(job.next.screen))
    ensures Leased(w, s, StartJob(s, w, which, job))
  {
    hide Launch;
    var s1 := s.(talk := s.talk.(error := None, stopFirst := false), place := s.place.(at := None));
    if !Overtaken(s, job) && !(s.talk.stopFirst && w.coverThere) { LaunchLeases(s1, w, which, job); }
  }

  lemma TaskLeases(s: State, w: World, which: nat, answer: Answer)
    requires Inv(s) && !s.life.ended && which < |s.engine.tasks|
    ensures Leased(w, s, RunTask(s, w, which, answer))
  {
    TaskTurnKeeps(s, w, which, answer);
    InvIsSound(RunTask(s, w, which, answer));
    hide Inv, StartJob, Complete, Launch, JobFits, IsMoving;
    match s.engine.tasks[which]
    case Looping =>
      if s.engine.queued.Some? {
        var job := s.engine.queued.value;
        if !Overtaken(s, job) { QueuedNext(s); BehindNext(s.talk, job); }
        StartLeases(s.(engine := s.engine.(queued := None)), w, which, job);
      }
    case Stopping(job) =>
      LiveTask(s, which);
      if answer.FailedOtherwise? { CompleteLeases(s, w, which, job, answer); }
      else if !Overtaken(s, job) { LaunchLeases(s, w, which, job); }
    case Driving(job) =>
      LiveTask(s, which);
      CompleteLeases(s, w, which, job, answer);
  }

  // ---------------------------------------------------------------- the other turns

  lemma ActArms(s: State, w: World, client: string, revision: nat, a: Action, v: Value)
    requires Inv(s) && !s.life.ended && GuardAct(s, w, client, revision, a).None?
    ensures var r := TurnAct(s, w, client, revision, a, v); !r.life.ended ==> r.life.lease == Anew(w, r)
  {
    var s1 := Taken(s, w, client);
    TakenCounts(s, w, client);
    TakenLeases(s, w, client);
    PumpCounts(Carried(s1, w, a, v));
    hide Pump, Taken, Do, DoSubmit, Inv, GuardAct;
    if !NamesNoProfile(s.talk, w, a, v) {
      if EndsTheSession(w, a) {
        PointsOnlyAdopts(s1, w);
        AsyncEndLeases(s1.(talk := Scoped(s1.talk, PointsOnly)), w, CoverGone, true);
        hide AsyncEnd;
      } else {
        ActCarries(s, w, client, revision, a, v);
      }
    }
  }

  lemma TakenLeases(s: State, w: World, client: string)
    ensures !s.life.ended ==> Taken(s, w, client).life.lease == Anew(w, s)
  {
  }

  lemma VerbLeases(s: State, w: World, e: Event)
    requires !s.life.ended && (e.Stop? || e.Save?)
    ensures if GetsThrough(s, w, e) then Turn(s, w, e).life.lease == Anew(w, Turn(s, w, e)) else Turn(s, w, e) == s
  {
    hide GuardSave, TurnAct, RunTask, Taken, ShowProblem, WaitsFor;
    var client := e.client;
    TakenLeases(s, w, client);
    TakenCounts(s, w, client);
    if e.Stop? && GetsThrough(s, w, e) {
      var s1 := StopSends(s, w, client);
      var s2 := if w.coverThere then Happens(s1, if s.engine.movement.Some? then StopFrame else IdleStop) else s1;
      ProblemCarries(s2.(engine := s2.engine.(movement := None, press := None, pressTimer := None),
                         place := s2.place.(at := None)), w, StopRefused(w, e.answer).GetOr(Interrupted));
    }
  }

  lemma QuietLeases(s: State, w: World, e: Event)
    requires !s.life.ended
    requires e.Attach? || e.Heartbeat? || e.PressTimer? || e.CoverMoves? || e.CoverRests?
    ensures Leased(w, s, Turn(s, w, e))
  {
    hide TurnAct, RunTask, ShowProblem, ShowWith, Publish, WaitsFor, IsTapeForm, ModeOf;
    match e
    case Attach(client, _) => PublishLeases(Take(s, w, client), w);
    case PressTimer =>
      ProblemCarries(s.(engine := Overtake(s.engine).(pressTimer := None, press := None, movement := None)), w,
                     Timeout);
    case CoverMoves(_) => ExternalLeases(s, w);
    case CoverRests(_) => InterruptLeases(s, w);
    case _ =>
  }

  lemma PublishLeases(s: State, w: World)
    requires !s.life.ended
    ensures var r := Publish(s, w);
            r.talk == s.talk && r.life.lease == Anew(w, r) && r.life.revision == s.life.revision + 1
  {
  }

  lemma InterruptLeases(s: State, w: World)
    requires !s.life.ended
    ensures var r := Interrupt(s, w); r.life.lease == Anew(w, r) && r.life.revision == s.life.revision + 1
  {
    hide ShowProblem, WaitsFor;
    ProblemCarries(s.(engine := Overtake(s.engine).(movement := None, press := None, pressTimer := None),
                      place := s.place.(at := None)), w, Interrupted);
  }

  lemma ExternalLeases(s: State, w: World)
    requires !s.life.ended
    ensures var r := External(s, w); r.life.lease == Anew(w, r) && r.life.revision == s.life.revision + 1
  {
    hide Interrupt, ShowWith, Publish, WaitsFor, IsTapeForm, ModeOf;
    var s1 := s.(talk := s.talk.(externalMove := true), place := Place(None, s.place.trace + [Moved]));
    InterruptLeases(s1, w);
    PublishLeases(s1, w);
    if IsTapeForm(s.talk.shown.step) { FormLeases(s1, w); }
  }

  lemma FormLeases(s: State, w: World)
    requires !s.life.ended && IsTapeForm(s.talk.shown.step)
    ensures var r := ShowWith(s, w, s.talk.shown.step, None, Some(ReadingStale));
            r.life.lease == Anew(w, r) && r.life.revision == s.life.revision + 1
  {
    ScreenCarries(s, w, s.talk.shown.step, None, Some(ReadingStale));
    hide ShowWith, WaitsFor;
  }

  lemma TimerLeases(s: State, w: World, e: Event)
    requires !s.life.ended && !e.Act? && !e.Stop? && !e.Save? && !e.LeaseTimer? && !e.TaskTurn?
    ensures Leased(w, s, Turn(s, w, e))
  {
    hide AnythingMeasured, End, AsyncEnd, Finish, TurnAct, RunTask, External;
    match e
    case Attach(_, _) | Heartbeat(_) | PressTimer | CoverMoves(_) | CoverRests(_) => QuietLeases(s, w, e); hide Turn;
    case Leave(client) => EndGoes(s, w, Left);
    case Cancel(client, force) => AsyncEndLeases(Take(s, w, client), w, Cancelled, false);
    case SaveReturns(which, written) =>
      if which < |s.life.saves| { EndGoes(s.(life := s.life.(saves := Without(s.life.saves, which))), w, Saved); }
    case Unload => AsyncEndLeases(s, w, Unloaded, true);
    case EndingReturns(which) =>
      if which < |s.life.endings| {
        EndGoes(s.(life := s.life.(endings := Without(s.life.endings, which))), w, s.life.endings[which]);
      }
  }

  /** The lease of a session that lives through a turn: its own timer takes it away; a turn that publishes, or that a
      client gets through in, starts it again, from now and for as long as the screen it leaves is worth waiting
      on; and no other turn touches it. */
  lemma TurnLeases(s: State, w: World, e: Event)
    requires Inv(s) && !s.life.ended && !Turn(s, w, e).life.ended
    ensures var r := Turn(s, w, e);
            r.life.lease == if e.LeaseTimer? then None else if Arms(s, w, e) then Anew(w, r) else s.life.lease
  {
    hide Inv, TurnAct, RunTask, GuardAct, GuardSave, TurnStop, TurnSave, OwnedByAnother;
    match e
    case Act(client, revision, action, value) =>
      if GuardAct(s, w, client, revision, action).None? { ActArms(s, w, client, revision, action, value); }
      else { RefusedAct(s, w, client, revision, action, value); }
    case Stop(_, _) | Save(_, _, _) => VerbLeases(s, w, e); hide Turn;
    case LeaseTimer => TimerDisarms(s, w);
    case TaskTurn(which, answer) => if which < |s.engine.tasks| { TaskLeases(s, w, which, answer); }
    case _ => TimerLeases(s, w, e); hide Turn;
  }

  lemma TimerDisarms(s: State, w: World)
    requires !s.life.ended && !TurnLeaseTimer(s, w).life.ended
    ensures var r := TurnLeaseTimer(s, w); r.life.lease.None? && r.life.revision == s.life.revision
  {
    hide End;
    if s.life.lease.Some? { EndGoes(NextGeneration(s.(life := s.life.(lease := None))), w, Expired); }
  }

  // ---------------------------------------------------------------- whole runs

  /** The lease's timer ran out in turn `k`, and no later turn starts the lease again. */
  ghost predicate RanOut(s: State, turns: seq<(World, Event)>, k: nat) {
    && k < |turns| && turns[k].1.LeaseTimer?
    && forall m: nat :: k < m < |turns| ==> !Arms(Run(s, turns[..m]), turns[m].0, turns[m].1)
  }

  lemma RanOutBefore(s: State, turns: seq<(World, Event)>, k: nat)
    requires turns != []
    ensures var n := |turns| - 1;
            RanOut(s, turns, k)
            <==> if k == n then turns[n].1.LeaseTimer?
                 else RanOut(s, turns[..n], k) && !Arms(Run(s, turns[..n]), turns[n].0, turns[n].1)
  {
    hide Arms, Run;
    var n := |turns| - 1;
    assert forall m: nat :: m < n ==> turns[..n][..m] == turns[..m] && turns[..n][m] == turns[m];
    if k < n && RanOut(s, turns[..n], k) && !Arms(Run(s, turns[..n]), turns[n].0, turns[n].1) {
      forall m: nat | k < m < |turns| ensures !Arms(Run(s, turns[..m]), turns[m].0, turns[m].1) {
        if m < n { assert !Arms(Run(s, turns[..n][..m]), turns[..n][m].0, turns[..n][m].1); }
      }
    }
    if k < n && RanOut(s, turns, k) {
      forall m: nat | k < m < n ensures !Arms(Run(s, turns[..n][..m]), turns[..n][m].0, turns[..n][m].1) {
        assert !Arms(Run(s, turns[..m]), turns[m].0, turns[m].1);
      }
    }
  }

  /** Over every run: a live session has no lease exactly when the lease's timer ran out in some turn and none
      after it started it again; in such a session the ending that timer began waits for its stop. */
  lemma {:induction false} UnarmedExactly(s: State, turns: seq<(World, Event)>)
    requires Inv(s) && s.life.lease.Some? && !Run(s, turns).life.ended
    ensures Run(s, turns).life.lease.None? <==> exists k :: RanOut(s, turns, k)
    ensures Run(s, turns).life.lease.None? ==> Expired in Run(s, turns).life.endings
    decreases |turns|
  {
    hide Inv, Turn, Arms;
    RunKeeps(s, turns);
    LeaseOrExpired(Run(s, turns));
    if turns != [] {
      var n := |turns| - 1;
      var t := Run(s, turns[..n]);
      RunInOne(s, turns);
      RunKeeps(s, turns[..n]);
      if t.life.ended { LiveBefore(t, turns[n].0, turns[n].1); }
      hide Run;
      UnarmedExactly(s, turns[..n]);
      TurnLeases(t, turns[n].0, turns[n].1);
      forall k: nat ensures RanOut(s, turns, k)
            <==> if k == n then turns[n].1.LeaseTimer?
                 else RanOut(s, turns[..n], k) && !Arms(t, turns[n].0, turns[n].1)
      {
        RanOutBefore(s, turns, k);
      }
      if turns[n].1.LeaseTimer? { assert RanOut(s, turns, n); }
      else if t.life.lease.None? && !Arms(t, turns[n].0, turns[n].1) {
        var k :| RanOut(s, turns[..n], k);
        assert RanOut(s, turns, k);
      }
    }
  }

  lemma LeaseOrExpired(s: State)
    requires Inv(s) && !s.life.ended
    ensures s.life.lease.None? ==> Expired in s.life.endings
  {
  }
}
