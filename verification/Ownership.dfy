/** Who holds a session, and what anybody else can do to it. */
module Ownership {
  import opened Wrappers
  import opened Screens
  import opened Session
  import opened SessionInvariant
  import opened SessionProof
  import opened SessionTurns
  import opened SessionEffects
  import opened Revisions
  import opened Endings

  /** The event is a verb of `client`, without `claim` or `force`. */
  predicate PlainVerb(e: Event, client: string) {
    match e
    case Act(c, _, _, _) => c == client
    case Stop(c, _) => c == client
    case Attach(c, claim) => c == client && !claim
    case Heartbeat(c) => c == client
    case Leave(c) => c == client
    case Cancel(c, force) => c == client && !force
    case Save(c, _, _) => c == client
    case _ => false
  }

  /** While the owner is present no other client's verb changes anything at all, unless it claims or forces. */
  lemma OthersChangeNothing(s: State, w: World, e: Event, client: string)
    requires Present(s.life, w.now) && s.life.owner != Some(client) && PlainVerb(e, client)
    ensures Turn(s, w, e) == s
  {
    hide Carried, Pump, RunTask, End, Finish, AsyncEnd, Offered, StopReturns, StopSends;
  }

  /** Who may: without a claim a client takes a live session exactly where nobody owns it, it does so itself, or its
      owner has been silent for 45 seconds; and it is refused for the owner's sake in exactly the other cases. */
  lemma SilentOwnerIsNoBar(s: State, w: World, client: string, claim: bool, revision: nat, a: Action)
    requires !s.life.ended
    ensures var held := s.life.owner.Some? && s.life.owner != Some(client) && w.now - s.life.ownerSeen < 45.0;
            && (Turn(s, w, Attach(client, claim)).life.owner == Some(client) <==> claim || !held)
            && (GuardAct(s, w, client, revision, a) == Some(SessionOwned) <==> held)
  {
    hide Offered;
  }

  /** The verbs that hand a session over: somebody else's claim or force, or the owner's own leave. */
  predicate HandsOver(e: Event, owner: string) {
    match e
    case Attach(c, claim) => c != owner && claim
    case Cancel(c, force) => c != owner && force
    case Leave(c) => c == owner
    case _ => false
  }

  // ---------------------------------------------------------------- who may become the owner

  /** The owner a turn leaves: the same, nobody, or the client of the verb. */
  ghost predicate OwnedOn(s: State, r: State, w: World, client: Option<string>) {
    || r.life.ended
    || (r.life.owner == s.life.owner && r.life.ownerSeen == s.life.ownerSeen)
    || (r.life.owner == client && client.Some? && r.life.ownerSeen == w.now)
  }

  function ClientOf(e: Event): Option<string> {
    match e
    case Act(c, _, _, _) => Some(c)
    case Stop(c, _) => Some(c)
    case Attach(c, _) => Some(c)
    case Heartbeat(c) => Some(c)
    case Leave(c) => Some(c)
    case Cancel(c, _) => Some(c)
    case Save(c, _, _) => Some(c)
    case _ => None
  }

  lemma ActOwns(s: State, w: World, client: string, revision: nat, a: Action, v: Value)
    requires Inv(s)
    ensures OwnedOn(s, TurnAct(s, w, client, revision, a, v), w, Some(client))
  {
    hide Pump, Inv, Do, DoSubmit, Carries, AsyncEnd, GuardAct, Offered;
    if GuardAct(s, w, client, revision, a).Some? { RefusedAct(s, w, client, revision, a, v); }
    else if NamesNoProfile(s.talk, w, a, v) { TakenOwns(s, w, client); }
    else {
      var s1 := Taken(s, w, client);
      TakenOwns(s, w, client);
      var r := Carried(s1, w, a, v);
      PumpCounts(r);
      if EndsTheSession(w, a) {
        PointsOnlyAdopts(s1, w);
        AsyncEndOwns(s1.(talk := Scoped(s1.talk, PointsOnly)), w, CoverGone, true);
      } else {
        ActCarries(s, w, client, revision, a, v);
        CarriedOwns(w, s1, r);
      }
    }
  }

  lemma CarriedOwns(w: World, s: State, r: State)
    requires Carries(w, s, r)
    ensures r.life.owner == s.life.owner && r.life.ownerSeen == s.life.ownerSeen
  {
  }

  lemma TakenOwns(s: State, w: World, client: string)
    ensures Taken(s, w, client).life.owner == Some(client) && Taken(s, w, client).life.ownerSeen == w.now
  {
  }

  lemma AsyncEndOwns(s: State, w: World, reason: EndReason, stop: bool)
    ensures var r := AsyncEnd(s, w, reason, stop);
            r.life.ended || (r.life.owner == s.life.owner && r.life.ownerSeen == s.life.ownerSeen)
  {
  }

  lemma VerbOwns(s: State, w: World, e: Event)
    requires e.Stop? || e.Attach? || e.Heartbeat? || e.Save? || e.CoverMoves? || e.CoverRests? || e.PressTimer?
    ensures OwnedOn(s, Turn(s, w, e), w, ClientOf(e))
  {
    hide TurnAct, RunTask, End, Finish, AsyncEnd, GuardSave, AnythingMeasured;
  }

  lemma EndingTurnOwns(s: State, w: World, e: Event)
    requires e.Cancel? || e.SaveReturns? || e.LeaseTimer? || e.Unload? || e.EndingReturns?
    ensures OwnedOn(s, Turn(s, w, e), w, ClientOf(e))
  {
    hide TurnAct, RunTask, End, AsyncEnd, Finish, AnythingMeasured;
    match e
    case Cancel(client, _) => AsyncEndOwns(Take(s, w, client), w, Cancelled, false);
    case SaveReturns(which, _) =>
      if which < |s.life.saves| { FinishOwns(s.(life := s.life.(saves := Without(s.life.saves, which))), w, Saved); }
    case LeaseTimer => AsyncEndOwns(s.(life := s.life.(lease := None)), w, Expired, true);
    case Unload => AsyncEndOwns(s, w, Unloaded, true);
    case EndingReturns(which) =>
      if which < |s.life.endings| {
        FinishOwns(s.(life := s.life.(endings := Without(s.life.endings, which))), w, s.life.endings[which]);
      }
  }

  lemma FinishOwns(s: State, w: World, reason: EndReason)
    ensures Finish(s, w, reason).life.ended && End(s, w, reason).life.ended
  {
  }

  // ---- the pump writes nothing about the owner

  lemma ConcludeOwns(s: State, w: World, job: Job, answer: Answer, error: Option<Reason>)
    requires !Conclude(s, w, job, answer, error).talk.escaped
    requires job.next.ToScreen? ==> !IsMoving(job.next.screen)
    ensures var r := Conclude(s, w, job, answer, error);
            r.life.ended || (r.life.owner == s.life.owner && r.life.ownerSeen == s.life.ownerSeen)
  {
    hide Goto, AsyncEnd, ShowProblem, Settle, Carries;
    if error.None? && answer.Done? {
      SettleKeeps(s, job.primitive, answer);
      var s1 := Settle(s, job.primitive, answer);
      var goesOn := job.next.ToScreen? && IsPress(job.next.screen);
      var s2 := if goesOn then s1 else s1.(engine := s1.engine.(movement := None));
      GotoCarries(s2, w, job.next, job.notice);
      CarriedOwns(w, s2, Goto(s2, w, job.next, job.notice));
    } else {
      var s1 := s.(engine := s.engine.(movement := None));
      if error == Some(UnknownCover) { AsyncEndOwns(s1, w, CoverGone, true); }
      else {
        ProblemCarries(s1, w, error.GetOr(Unknown));
        CarriedOwns(w, s1, ShowProblem(s1, w, error.GetOr(Unknown)));
      }
    }
  }

  ghost predicate SameOwner(s: State, r: State) {
    r.life.ended || (r.life.owner == s.life.owner && r.life.ownerSeen == s.life.ownerSeen)
  }

  lemma CompleteOwns(s: State, w: World, which: nat, job: Job, answer: Answer)
    requires which < |s.engine.tasks| && !Complete(s, w, which, job, answer).talk.escaped
    requires Overtaken(s, job) || (job.next.ToScreen? ==> !IsMoving(job.next.screen))
    ensures SameOwner(s, Complete(s, w, which, job, answer))
  {
    hide Conclude, IsMoving;
    var error := if answer.Done? then s.talk.error else ErrorOf(answer);
    var s1 := TaskBecomes(s, which, Looping).(talk := s.talk.(error := error));
    if !Overtaken(s1, job) { ConcludeOwns(s1, w, job, answer, error); }
  }

  lemma LaunchOwns(s: State, w: World, which: nat, job: Job)
    requires which < |s.engine.tasks| && !Launch(s, w, which, job).talk.escaped
    requires Overtaken(s, job) || (job.next.ToScreen? ==> !IsMoving(job.next.screen))
    ensures SameOwner(s, Launch(s, w, which, job))
  {
    hide Complete, IsMoving;
    if !w.coverThere { CompleteOwns(s, w, which, job, Failed(UnknownCover)); }
  }

  lemma StartOwns(s: State, w: World, which: nat, job: Job)
    requires which < |s.engine.tasks| && !StartJob(s, w, which, job).talk.escaped
    requires Overtaken(s, job) || (job.next.ToScreen? ==> !IsMoving(job.next.screen))
    ensures SameOwner(s, StartJob(s, w, which, job))
  {
    hide Launch, IsMoving;
    var s1 := s.(talk := s.talk.(error := None, stopFirst := false), place := s.place.(at := None));
    if !Overtaken(s, job) && !(s.talk.stopFirst && w.coverThere) { LaunchOwns(s1, w, which, job); }
  }

  lemma TaskOwns(s: State, w: World, which: nat, answer: Answer)
    requires Inv(s) && which < |s.engine.tasks|
    ensures SameOwner(s, RunTask(s, w, which, answer))
  {
    TaskTurnKeeps(s, w, which, answer);
    InvIsSound(RunTask(s, w, which, answer));
    hide Inv, Complete, Launch, StartJob, IsMoving, JobFits;
    if s.engine.tasks[which].Looping? {
      if s.engine.queued.Some? {
        var job := s.engine.queued.value;
        if !Overtaken(s, job) { QueuedNext(s); BehindNext(s.talk, job); }
        StartOwns(s.(engine := s.engine.(queued := None)), w, which, job);
      }
    } else {
      LiveTask(s, which);
      var job := s.engine.tasks[which].job;
      if s.engine.tasks[which].Driving? || answer.FailedOtherwise? { CompleteOwns(s, w, which, job, answer); }
      else if !Overtaken(s, job) { LaunchOwns(s, w, which, job); }
    }
  }

  /** A turn changes the owner only by letting the client of its verb in, by the owner's own leave, or by
      ending the session. */
  lemma TurnOwns(s: State, w: World, e: Event)
    requires Inv(s) && !e.Leave?
    ensures OwnedOn(s, Turn(s, w, e), w, ClientOf(e))
  {
    hide Inv, TurnAct, RunTask, OwnedOn;
    match e
    case Act(client, revision, action, value) => ActOwns(s, w, client, revision, action, value);
    case TaskTurn(which, answer) => TaskTurnOwns(s, w, which, answer);
    case Cancel(_, _) | SaveReturns(_, _) | LeaseTimer | Unload | EndingReturns(_) => EndingTurnOwns(s, w, e);
    case _ => VerbOwns(s, w, e);
  }

  lemma TaskTurnOwns(s: State, w: World, which: nat, answer: Answer)
    requires Inv(s)
    ensures OwnedOn(s, Turn(s, w, TaskTurn(which, answer)), w, None)
  {
    hide RunTask, Inv, TurnAct;
    if which < |s.engine.tasks| { TaskOwns(s, w, which, answer); }
  }

  /** A heartbeat never makes anybody the owner, and never keeps anybody present but the owner. */
  lemma HeartbeatNeverAcquires(s: State, w: World, client: string)
    ensures var r := Turn(s, w, Heartbeat(client));
            r.life.owner == s.life.owner
            && (r == s || (s.life.owner == Some(client) && r == s.(life := s.life.(ownerSeen := w.now))))
  {
    hide TurnAct, RunTask;
  }

  // ---------------------------------------------------------------- whole runs

  /** In this schedule `client` never lets 45 seconds go by after its last heartbeat (the one before the
      schedule came at `beat`), and nobody claims, forces or leaves. It says nothing of the session. */
  ghost predicate KeepsBeating(turns: seq<(World, Event)>, client: string, beat: real)
    decreases |turns|
  {
    turns == [] ||
      (var (w, e) := turns[0];
       && beat <= w.now < beat + 45.0
       && !HandsOver(e, client)
       && KeepsBeating(turns[1..], client, if e == Heartbeat(client) then w.now else beat))
  }

  lemma OwnerStays(s: State, w: World, e: Event, client: string, beat: real)
    requires Inv(s) && !s.life.ended && s.life.owner == Some(client) && s.life.ownerSeen >= beat
    requires beat <= w.now < beat + 45.0 && !HandsOver(e, client)
    ensures var r := Turn(s, w, e);
            r.life.ended
            || (r.life.owner == Some(client) && r.life.ownerSeen >= (if e == Heartbeat(client) then w.now else beat))
  {
    var r := Turn(s, w, e);
    if ClientOf(e).Some? && ClientOf(e) != Some(client) && PlainVerb(e, ClientOf(e).value) {
      OthersChangeNothing(s, w, e, ClientOf(e).value);
    } else if e == Heartbeat(client) {
      hide TurnAct, RunTask;
    } else {
      hide Turn;
      TurnOwns(s, w, e);
    }
  }

  /** A live session whose owner beats in time is lost to it only by a claim, a force, its own leave or an
      ending, whatever other clients, timers, the shutter and the pump do. */
  lemma {:induction false} BeatingOwnerKeepsTheSession(s: State, turns: seq<(World, Event)>, client: string, beat: real)
    requires Inv(s) && !s.life.ended && s.life.owner == Some(client) && s.life.ownerSeen >= beat
    requires KeepsBeating(turns, client, beat)
    ensures var r := Run(s, turns); r.life.ended || r.life.owner == Some(client)
    decreases |turns|
  {
    if turns != [] {
      var (w, e) := turns[0];
      TurnKeeps(s, w, e);
      OwnerStays(s, w, e, client, beat);
      var r := Turn(s, w, e);
      var next := if e == Heartbeat(client) then w.now else beat;
      hide Turn, Inv;
      if r.life.ended { AfterTheEnd(r, turns[1..]); }
      else { BeatingOwnerKeepsTheSession(r, turns[1..], client, next); }
    }
  }
}
