/** `revision` as a compare-and-swap over the conversation. */
module Revisions {
  import opened Wrappers
  import opened Plans
  import opened Screens
  import opened Session
  import opened SessionInvariant
  import opened SessionProof
  import opened SessionTurns
  import opened SessionEffects

  /** What a revision stands for: all of the conversation but the error of the last movement, the stop the
      next one owes the shutter and the scope of a correction; the press waited for; the outcome. */
  function Conversation(s: State): (Talk, Option<Press>, Option<EndReason>) {
    (s.talk.(error := None, stopFirst := false, choice := s.talk.choice.(scope := None)), s.engine.press,
     s.life.outcome)
  }

  /** Either a later revision, or the same one and the same conversation. */
  ghost predicate Counted(s: State, r: State) {
    r.life.revision > s.life.revision || (r.life.revision == s.life.revision && Conversation(r) == Conversation(s))
  }

  // ---------------------------------------------------------------- endings

  lemma FinishCounts(s: State, w: World, reason: EndReason)
    requires !s.life.ended
    ensures Finish(s, w, reason).life.revision == s.life.revision + 1
  {
  }

  lemma EndCounts(s: State, w: World, reason: EndReason)
    requires !s.life.ended
    ensures End(s, w, reason).life.revision == s.life.revision + 1
  {
    hide Finish;
    FinishCounts(NextGeneration(s), w, reason);
    FinishCounts(NextGeneration(s).(life := s.life.(reservedUntil := Some(w.now + w.fullRun))), w, reason);
  }

  /** An ending publishes at once unless it has a stop to write first. */
  lemma AsyncEndCounts(s: State, w: World, reason: EndReason, stop: bool)
    requires !s.life.ended
    ensures var r := AsyncEnd(s, w, reason, stop);
            if stop && w.coverThere && w.shutterMoving
            then r.life.revision == s.life.revision && Conversation(r) == Conversation(s)
            else r.life.revision == s.life.revision + 1
  {
    hide End;
    EndCounts(NextGeneration(s), w, reason);
  }

  // ---------------------------------------------------------------- acts

  /** The two acts that pass the guards and leave the revision where it was. */
  predicate LeavesTheRevision(t: Talk, w: World, a: Action, v: Value) {
    NamesNoProfile(t, w, a, v) || (EndsTheSession(w, a) && w.coverThere && w.shutterMoving)
  }

  lemma PumpCounts(s: State)
    ensures Pump(s).life == s.life && Pump(s).talk == s.talk && Pump(s).engine.press == s.engine.press
  {
  }

  /** An act that passes the guards publishes exactly one revision, but for those two; and those two
      change nothing a revision stands for. */
  lemma ActCounts(s: State, w: World, client: string, revision: nat, a: Action, v: Value)
    requires Inv(s) && GuardAct(s, w, client, revision, a).None?
    ensures var r := TurnAct(s, w, client, revision, a, v);
            if LeavesTheRevision(s.talk, w, a, v)
            then r.life.revision == s.life.revision && Conversation(r) == Conversation(s)
            else r.life.revision == s.life.revision + 1
  {
    hide TurnAct, Inv, GuardAct, Conversation, NamesNoProfile, EndsTheSession;
    if NamesNoProfile(s.talk, w, a, v) { NamedCounts(s, w, client, revision, a, v); }
    else if EndsTheSession(w, a) { AdoptionCounts(s, w, client, revision, a, v); }
    else { CarriedCounts(s, w, client, revision, a, v); }
  }

  lemma NamedCounts(s: State, w: World, client: string, revision: nat, a: Action, v: Value)
    requires GuardAct(s, w, client, revision, a).None? && NamesNoProfile(s.talk, w, a, v)
    ensures var r := TurnAct(s, w, client, revision, a, v);
            r.life.revision == s.life.revision && Conversation(r) == Conversation(s)
  {
    hide Taken, GuardAct, NamesNoProfile, Conversation;
    TakenCounts(s, w, client);
    SameConversation(s, Taken(s, w, client));
  }

  lemma AdoptionCounts(s: State, w: World, client: string, revision: nat, a: Action, v: Value)
    requires GuardAct(s, w, client, revision, a).None? && EndsTheSession(w, a)
    ensures var r := TurnAct(s, w, client, revision, a, v);
            if w.coverThere && w.shutterMoving
            then r.life.revision == s.life.revision && Conversation(r) == Conversation(s)
            else r.life.revision == s.life.revision + 1
  {
    hide Taken, GuardAct, Conversation, Pump, Do, AdoptTheTimes;
    GuardsPassed(s, w, client, revision, a);
    var s1 := Taken(s, w, client);
    TakenCounts(s, w, client);
    SameConversation(s, s1);
    PointsOnlyAdopts(s1, w);
    AdoptingCounts(s1, w);
    PumpCounts(AdoptTheTimes(s1, w));
    SameConversation(AdoptTheTimes(s1, w), Pump(AdoptTheTimes(s1, w)));
  }

  lemma CarriedCounts(s: State, w: World, client: string, revision: nat, a: Action, v: Value)
    requires Inv(s) && GuardAct(s, w, client, revision, a).None?
    requires !NamesNoProfile(s.talk, w, a, v) && !EndsTheSession(w, a)
    ensures TurnAct(s, w, client, revision, a, v).life.revision == s.life.revision + 1
  {
    hide Inv, Taken, GuardAct, NamesNoProfile, EndsTheSession, Pump, Carried;
    TakenCounts(s, w, client);
    ActCarries(s, w, client, revision, a, v);
    PumpCounts(Carried(Taken(s, w, client), w, a, v));
  }

  lemma SameConversation(s: State, r: State)
    requires r.talk == s.talk && r.engine.press == s.engine.press && r.life.outcome == s.life.outcome
    ensures Conversation(r) == Conversation(s)
  {
  }

  lemma GuardsPassed(s: State, w: World, client: string, revision: nat, a: Action)
    requires GuardAct(s, w, client, revision, a).None?
    ensures !s.life.ended
  {
  }

  lemma TakenCounts(s: State, w: World, client: string)
    ensures var r := Taken(s, w, client);
            r.life.revision == s.life.revision && r.life.outcome == s.life.outcome && r.life.ended == s.life.ended
            && r.talk == s.talk && r.engine == s.engine && r.place == s.place
  {
  }

  lemma AdoptingCounts(s: State, w: World)
    requires !s.life.ended && w.inUse.None?
    ensures var r := AdoptTheTimes(s, w);
            if w.coverThere && w.shutterMoving
            then r.life.revision == s.life.revision && Conversation(r) == Conversation(s)
            else r.life.revision == s.life.revision + 1
  {
    hide AsyncEnd;
    AsyncEndCounts(s.(talk := Scoped(s.talk, PointsOnly)), w, CoverGone, true);
  }

  // ---------------------------------------------------------------- movements

  lemma SettleKeeps(s: State, p: Primitive, answer: Answer)
    requires answer.Done?
    ensures Settle(s, p, answer).life == s.life && Settle(s, p, answer).engine == s.engine
  {
  }

  lemma ConcludeCounts(s: State, w: World, job: Job, answer: Answer, error: Option<Reason>)
    requires !s.life.ended && !Conclude(s, w, job, answer, error).talk.escaped
    requires job.next.ToScreen? ==> !IsMoving(job.next.screen)
    ensures var r := Conclude(s, w, job, answer, error);
            r.life.revision == s.life.revision + 1
            || (r.life.revision == s.life.revision && error == Some(UnknownCover) && w.coverThere
                && Conversation(r) == Conversation(s))
  {
    hide Goto, AsyncEnd, ShowProblem, Settle;
    if error.None? && answer.Done? {
      SettleKeeps(s, job.primitive, answer);
      var s1 := Settle(s, job.primitive, answer);
      var goesOn := job.next.ToScreen? && IsPress(job.next.screen);
      GotoCarries(if goesOn then s1 else s1.(engine := s1.engine.(movement := None)), w, job.next, job.notice);
    } else {
      var s1 := s.(engine := s.engine.(movement := None));
      if error == Some(UnknownCover) { AsyncEndCounts(s1, w, CoverGone, true); }
      else { ProblemCarries(s1, w, error.GetOr(Unknown)); }
    }
  }

  lemma BehindNext(t: Talk, job: Job)
    requires JobFits(t, job)
    ensures job.next.ToScreen? ==> !IsMoving(job.next.screen)
  {
    if t.shown.step.Positioning? { assert Behind(t.shown.step, job.primitive, job.next); }
  }

  lemma CompleteCounts(s: State, w: World, which: nat, job: Job, answer: Answer)
    requires which < |s.engine.tasks| && !Complete(s, w, which, job, answer).talk.escaped
    requires Overtaken(s, job) || (job.next.ToScreen? ==> !IsMoving(job.next.screen))
    ensures Counted(s, Complete(s, w, which, job, answer))
  {
    hide Conclude;
    var error := if answer.Done? then s.talk.error else ErrorOf(answer);
    var s1 := TaskBecomes(s, which, Looping).(talk := s.talk.(error := error));
    if !Overtaken(s1, job) { ConcludeCounts(s1, w, job, answer, error); }
  }

  lemma InvIsSound(s: State)
    requires Inv(s)
    ensures !s.talk.escaped
  {
    if Settled(s) { SettledIsSound(s); }
  }

  lemma QueuedNext(s: State)
    requires Inv(s) && s.engine.queued.Some? && !Overtaken(s, s.engine.queued.value)
    ensures JobFits(s.talk, s.engine.queued.value)
  {
  }

  lemma TaskNext(s: State, which: nat)
    requires Inv(s) && which < |s.engine.tasks| && !s.engine.tasks[which].Looping?
    requires !Overtaken(s, s.engine.tasks[which].job)
    ensures JobFits(s.talk, s.engine.tasks[which].job)
  {
  }

  lemma LaunchCounts(s: State, w: World, which: nat, job: Job)
    requires which < |s.engine.tasks| && !Launch(s, w, which, job).talk.escaped
    requires Overtaken(s, job) || (job.next.ToScreen? ==> !IsMoving(job.next.screen))
    ensures Counted(s, Launch(s, w, which, job))
  {
    hide Complete;
    if !w.coverThere { CompleteCounts(s, w, which, job, Failed(UnknownCover)); }
  }

  lemma StartCounts(s: State, w: World, which: nat, job: Job)
    requires which < |s.engine.tasks| && !StartJob(s, w, which, job).talk.escaped
    requires Overtaken(s, job) || (job.next.ToScreen? ==> !IsMoving(job.next.screen))
    ensures Counted(s, StartJob(s, w, which, job))
  {
    hide Launch;
    if !Overtaken(s, job) {
      var s1 := s.(talk := s.talk.(error := None, stopFirst := false), place := s.place.(at := None));
      if !(s.talk.stopFirst && w.coverThere) { LaunchCounts(s1, w, which, job); }
    }
  }

  lemma TaskCounts(s: State, w: World, which: nat, answer: Answer)
    requires Inv(s) && which < |s.engine.tasks|
    ensures Counted(s, RunTask(s, w, which, answer))
  {
    TaskTurnKeeps(s, w, which, answer);
    InvIsSound(RunTask(s, w, which, answer));
    hide Inv, StartJob, Complete, Launch, JobFits;
    match s.engine.tasks[which]
    case Looping =>
      if s.engine.queued.Some? {
        var job := s.engine.queued.value;
        if !Overtaken(s, job) { QueuedNext(s); BehindNext(s.talk, job); }
        StartCounts(s.(engine := s.engine.(queued := None)), w, which, job);
      }
    case Stopping(job) =>
      if !Overtaken(s, job) { TaskNext(s, which); BehindNext(s.talk, job); }
      if answer.FailedOtherwise? { CompleteCounts(s, w, which, job, answer); }
      else if !Overtaken(s, job) { LaunchCounts(s, w, which, job); }
    case Driving(job) =>
      if !Overtaken(s, job) { TaskNext(s, which); BehindNext(s.talk, job); }
      CompleteCounts(s, w, which, job, answer);
  }

  // ---------------------------------------------------------------- every turn

  lemma StopCounts(s: State, w: World, client: string, answer: Answer)
    ensures Counted(s, TurnStop(s, w, client, answer))
  {
  }

  lemma VerbsCount(s: State, w: World, client: string, flag: bool)
    ensures Counted(s, TurnAttach(s, w, client, flag))
    ensures Counted(s, TurnHeartbeat(s, w, client))
  {
  }

  lemma LeaveCounts(s: State, w: World, client: string, force: bool)
    ensures Counted(s, TurnLeave(s, w, client))
    ensures Counted(s, TurnCancel(s, w, client, force))
  {
    hide End, AsyncEnd, AnythingMeasured;
    if !s.life.ended {
      EndCounts(s, w, Left);
      AsyncEndCounts(Take(s, w, client), w, Cancelled, false);
    }
  }

  lemma SaveCounts(s: State, w: World, client: string, revision: nat, target: Target, which: nat, written: bool)
    ensures Counted(s, TurnSave(s, w, client, revision, target))
    ensures Counted(s, TurnSaveReturns(s, w, which, written))
  {
    hide GuardSave, Finish;
    if which < |s.life.saves| {
      var s1 := s.(life := s.life.(saves := Without(s.life.saves, which)));
      if s.life.ended { assert Finish(s1, w, Saved) == s1 by { FinishedTwice(s1, w, Saved); } }
      else { FinishCounts(s1, w, Saved); }
    }
  }

  lemma FinishedTwice(s: State, w: World, reason: EndReason)
    requires s.life.ended
    ensures Finish(s, w, reason) == s && End(s, w, reason) == s
  {
  }

  lemma TimersCount(s: State, w: World, which: nat)
    requires Inv(s)
    ensures Counted(s, TurnPressTimer(s, w)) && Counted(s, TurnLeaseTimer(s, w))
    ensures Counted(s, AsyncEnd(s, w, Unloaded, true))
    ensures Counted(s, TurnEndingReturns(s, w, which))
  {
    hide Settled, End;
    if !s.life.ended {
      AsyncEndCounts(s, w, Unloaded, true);
      AsyncEndCounts(s.(life := s.life.(lease := None)), w, Expired, true);
    }
    if which < |s.life.endings| {
      var s1 := s.(life := s.life.(endings := Without(s.life.endings, which)));
      if s.life.ended { FinishedTwice(s1, w, s.life.endings[which]); } else { EndCounts(s1, w, s.life.endings[which]); }
    }
    hide AsyncEnd;
  }

  lemma CoverCounts(s: State, w: World, direction: Direction, wasMoving: bool)
    ensures Counted(s, TurnCoverMoves(s, w, direction)) && Counted(s, TurnCoverRests(s, w, wasMoving))
  {
  }

  /** No turn takes the revision back, and one that leaves it leaves the conversation. */
  lemma TurnCounts(s: State, w: World, e: Event)
    requires Inv(s)
    ensures Counted(s, Turn(s, w, e))
  {
    hide Inv, TurnAct, TurnStop, TurnAttach, TurnHeartbeat, TurnLeave, TurnCancel, TurnSave, TurnSaveReturns,
      TurnPressTimer, TurnLeaseTimer, TurnCoverMoves, TurnCoverRests, AsyncEnd, TurnEndingReturns, RunTask;
    match e
    case Act(client, revision, action, value) =>
      if GuardAct(s, w, client, revision, action).None? { ActCounts(s, w, client, revision, action, value); }
      else { RefusedAct(s, w, client, revision, action, value); }
    case Stop(client, answer) => StopCounts(s, w, client, answer);
    case Attach(client, claim) => VerbsCount(s, w, client, claim);
    case Heartbeat(client) => VerbsCount(s, w, client, false);
    case Leave(client) => LeaveCounts(s, w, client, false);
    case Cancel(client, force) => LeaveCounts(s, w, client, force);
    case Save(client, revision, target) => SaveCounts(s, w, client, revision, target, 0, false);
    case SaveReturns(which, written) => SaveCounts(s, w, "", 0, CoverOnly, which, written);
    case PressTimer => TimersCount(s, w, 0);
    case LeaseTimer => TimersCount(s, w, 0);
    case CoverMoves(direction) => CoverCounts(s, w, direction, false);
    case CoverRests(wasMoving) => CoverCounts(s, w, Close, wasMoving);
    case Unload => TimersCount(s, w, 0);
    case EndingReturns(which) => TimersCount(s, w, which);
    case TaskTurn(which, answer) => if which < |s.engine.tasks| { TaskCounts(s, w, which, answer); }
  }

  lemma RefusedAct(s: State, w: World, client: string, revision: nat, action: Action, value: Value)
    requires GuardAct(s, w, client, revision, action).Some?
    ensures TurnAct(s, w, client, revision, action, value) == s
  {
  }

  // ---------------------------------------------------------------- whole runs

  /** Over any run the revision never decreases, and two moments with one revision have one conversation. */
  lemma {:induction false} EqualRevisions(s: State, turns: seq<(World, Event)>)
    requires Inv(s)
    ensures Run(s, turns).life.revision >= s.life.revision
    ensures Run(s, turns).life.revision == s.life.revision ==> Conversation(Run(s, turns)) == Conversation(s)
    decreases |turns|
  {
    if turns != [] {
      TurnCounts(s, turns[0].0, turns[0].1);
      TurnKeeps(s, turns[0].0, turns[0].1);
      hide Turn, Inv, Conversation;
      EqualRevisions(Turn(s, turns[0].0, turns[0].1), turns[1..]);
    }
  }

  /** From here on no act on that revision does anything, whoever sends it and whatever happens first. */
  ghost predicate Spent(s: State, revision: nat) {
    forall turns, w: World, client, a, v ::
      Turn(Run(s, turns), w, Act(client, revision, a, v)) == Run(s, turns)
  }

  lemma CountedIsSpent(s: State, revision: nat)
    requires Inv(s) && revision < s.life.revision
    ensures Spent(s, revision)
  {
    hide Inv, TurnAct;
    forall turns, w: World, client, a, v
      ensures Turn(Run(s, turns), w, Act(client, revision, a, v)) == Run(s, turns)
    {
      EqualRevisions(s, turns);
      RefusedAct(Run(s, turns), w, client, revision, a, v);
    }
  }

  /** The act that gets a second time onto the revision an act has left: the same form with the profile
      defined meanwhile, or another of the scopes still on the screen. */
  function AgainOn(w: World, a: Action, v: Value): (World, Action) {
    if a == Submit then (w.(profiles := {Written(v)}), Submit) else (w, DoTimesOnly)
  }

  lemma LeftIsOffered(s: State, w: World, client: string, a: Action, v: Value)
    requires Inv(s) && GuardAct(s, w, client, s.life.revision, a).None? && LeavesTheRevision(s.talk, w, a, v)
    ensures var r := TurnAct(s, w, client, s.life.revision, a, v);
            var (w1, a1) := AgainOn(w, a, v);
            && r.life.revision == s.life.revision && GuardAct(r, w1, client, s.life.revision, a1).None?
            && !LeavesTheRevision(r.talk, w1, a1, v)
  {
    LeftAsItWas(s, w, client, a, v);
    OfferedAgain(s.talk, TurnAct(s, w, client, s.life.revision, a, v).talk, w, a, v);
    hide Inv, TurnAct, Offered, LeavesTheRevision;
  }

  lemma OfferedAgain(t: Talk, t1: Talk, w: World, a: Action, v: Value)
    requires Offered(t, w, a) && LeavesTheRevision(t, w, a, v) && t1.shown == t.shown
    ensures var (w1, a1) := AgainOn(w, a, v); Offered(t1, w1, a1) && !LeavesTheRevision(t1, w1, a1, v)
  {
  }

  lemma LeftAsItWas(s: State, w: World, client: string, a: Action, v: Value)
    requires Inv(s) && GuardAct(s, w, client, s.life.revision, a).None? && LeavesTheRevision(s.talk, w, a, v)
    ensures var r := TurnAct(s, w, client, s.life.revision, a, v);
            && r.talk.shown == s.talk.shown && r.life.owner == Some(client) && !r.life.ended
            && r.life.revision == s.life.revision
  {
    ActCounts(s, w, client, s.life.revision, a, v);
    hide Inv, Do, Offered;
    if !NamesNoProfile(s.talk, w, a, v) { PointsOnlyAdopts(Taken(s, w, client), w); }
  }

  /** An act that is carried out spends its revision, unless it is one of the two that leave it; and then its
      own client can have a second act carried out on that revision. */
  lemma OneActPerRevision(s: State, w: World, client: string, a: Action, v: Value)
    requires Inv(s) && GuardAct(s, w, client, s.life.revision, a).None?
    ensures var r := Turn(s, w, Act(client, s.life.revision, a, v));
            && (Spent(r, s.life.revision) <==> !LeavesTheRevision(s.talk, w, a, v))
            && (LeavesTheRevision(s.talk, w, a, v) ==>
                  exists w1, a1 ::
                    Turn(r, w1, Act(client, s.life.revision, a1, v)).life.revision == s.life.revision + 1)
  {
    var n := s.life.revision;
    var r := Turn(s, w, Act(client, n, a, v));
    ActCounts(s, w, client, n, a, v);
    ActKeeps(s, w, client, n, a, v);
    hide Inv, TurnAct, LeavesTheRevision, GuardAct, Spent;
    if LeavesTheRevision(s.talk, w, a, v) {
      LeftIsOffered(s, w, client, a, v);
      var (w1, a1) := AgainOn(w, a, v);
      ActCounts(r, w1, client, n, a1, v);
      assert Turn(r, w1, Act(client, n, a1, v)).life.revision == n + 1;
      NotSpent(r, n, w1, client, a1, v);
    } else {
      CountedIsSpent(r, n);
    }
  }

  lemma NotSpent(s: State, revision: nat, w: World, client: string, a: Action, v: Value)
    requires Turn(s, w, Act(client, revision, a, v)) != s
    ensures !Spent(s, revision)
  {
    hide Turn;
    assert Run(s, []) == s;
  }
}
