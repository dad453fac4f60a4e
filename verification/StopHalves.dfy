/** Why `stop` is one turn here. In the source it waits for the bus between its two halves and reads nothing
    again when it comes back; these are the runs in which something happens meanwhile. */
module StopHalves {
  import opened Wrappers
  import opened Screens
  import opened Session
  import opened SessionInvariant
  import opened SessionProof
  import opened SessionTurns
  import opened Safety

  /** The two halves with nothing between them are the whole. */
  lemma HalvesMakeAStop(s: State, w: World, client: string, answer: Answer)
    requires !s.life.ended && !OwnedByAnother(s.life, w.now, client, false)
    ensures Turn(s, w, Stop(client, answer)) == StopReturns(StopSends(s, w, client), w, s.engine.movement.Some?, answer)
  {
    hide TurnAct, RunTask, StopReturns, StopSends;
  }

  /** The first half leaves a kept session. */
  lemma SentKeeps(s: State, w: World, client: string)
    requires Inv(s) && !s.life.ended
    ensures Inv(StopSends(s, w, client))
  {
    TakenKeeps(s, w, client);
    NextGenerationKeeps(s.engine, s.talk, s.place.at, Overtake(s.engine));
    hide TalkKept, JobsKept, TasksKept, TrustKept, LifeKept;
  }

  /** A session that is shown a problem while nothing live is behind its screen. */
  lemma ProblemIsSafe(s: State, w: World, answer: Answer)
    requires Settled(s) && !HasLiveJob(s) && OnPlan(s.talk) && !s.talk.shown.step.TapeResult?
    ensures Settled(StopReturns(s, w, true, answer))
  {
    var reason := StopRefused(w, answer).GetOr(Interrupted);
    AnyProblem(s.talk, CodeOf(reason));
    NothingLive(s);
    AtNowhere(s.place);
    var e := s.engine.(movement := None, press := None, pressTimer := None);
    var place := if w.coverThere then Place(None, s.place.trace + [StopFrame]) else s.place.(at := None);
    hide TalkKept, MovingKept, JobsKept, TasksKept, TrustKept, LifeKept, NoLiveJob, Ready, ShowProblem, HasLiveJob;
    ProblemLands(s.(engine := e, place := place), w, reason);
  }

  lemma AnyProblem(t: Talk, reason: Reason)
    requires TalkKept(t) && OnPlan(t) && !t.shown.step.TapeResult?
    ensures Ready(t, Problem(reason))
  {
    hide Fitted, NothingToFit, WellFormed;
  }

  lemma NothingLive(s: State)
    requires Settled(s) && !HasLiveJob(s)
    ensures var e := s.engine.(movement := None, press := None, pressTimer := None); TasksKept(e) && NoLiveJob(e)
  {
    hide TalkKept, TrustKept, LifeKept, JobFits;
  }

  lemma ProblemIsNotSafe(s: State, w: World, answer: Answer)
    requires Settled(s) && (!OnPlan(s.talk) || s.talk.shown.step.TapeResult?)
    ensures !Settled(StopReturns(s, w, true, answer)) && !StopReturns(s, w, true, answer).life.ended
  {
    hide MovingKept, JobsKept, TasksKept, TrustKept, NothingToFit, WellFormed, Sits, AimedAt;
  }

  /** Whatever happens between the two halves, the second leaves a live session well kept exactly when no
      movement has been begun meanwhile, a plan is being walked, and no reading has just been taken: the
      guards that the source does not ask again when it comes back. With nothing in between the two are
      the stop of the machine. */
  lemma LateStopIsSafeExactly(s: State, w: World, client: string, turns: seq<(World, Event)>, w1: World, answer: Answer)
    requires Inv(s) && !s.life.ended && s.engine.movement.Some?
    ensures var t := Run(StopSends(s, w, client), turns);
            && Inv(t)
            && (!t.life.ended ==>
                  (Inv(StopReturns(t, w1, true, answer))
                   <==> (!HasLiveJob(t) && OnPlan(t.talk) && !t.talk.shown.step.TapeResult?)))
            && (turns == [] && w1 == w && !OwnedByAnother(s.life, w.now, client, false) ==>
                  StopReturns(t, w1, true, answer) == Turn(s, w, Stop(client, answer)))
  {
    if turns == [] && w1 == w && !OwnedByAnother(s.life, w.now, client, false) {
      HalvesMakeAStop(s, w, client, answer);
    }
    SentKeeps(s, w, client);
    RunKeeps(StopSends(s, w, client), turns);
    var t := Run(StopSends(s, w, client), turns);
    hide Run, StopSends, Settled, Over, HasLiveJob, OnPlan;
    if !t.life.ended {
      LiveIsSettled(t);
      if HasLiveJob(t) {
        JobBehind(t);
        var j :| LiveJob(t, j);
        LateStopExposesTheMovement(t, w1, answer, j);
      } else if !OnPlan(t.talk) || t.talk.shown.step.TapeResult? {
        ProblemIsNotSafe(t, w1, answer);
        if Inv(StopReturns(t, w1, true, answer)) { LiveIsSettled(StopReturns(t, w1, true, answer)); }
      } else {
        ProblemIsSafe(t, w1, answer);
        KeepsTheQueue(t, w1, answer);
      }
    }
  }

  lemma KeepsTheQueue(s: State, w: World, answer: Answer)
    ensures var e := StopReturns(s, w, true, answer).engine;
            e.queued == s.engine.queued && e.pumping == s.engine.pumping
  {
  }

  /** A stop that comes back to a movement begun meanwhile puts a problem screen over it, and that screen
      offers the step again: a second movement can then be queued behind the first. */
  lemma LateStopExposesTheMovement(s: State, w: World, answer: Answer, j: Job)
    requires LiveJob(s, j)
    ensures var r := StopReturns(s, w, true, answer);
            LiveJob(r, j) && Offered(r.talk, w, RepeatStep) && !Inv(r)
  {
    var r := StopReturns(s, w, true, answer);
    assert r.engine == s.engine.(movement := None, press := None, pressTimer := None);
    if Inv(r) { LiveJobShows(r, j); }
  }

  /** And there is such a movement: a press that came too late leaves its run going behind the problem
      screen; a stop sent there and the step repeated before it comes back are enough. */
  lemma RepeatedBeforeTheStopReturns(s: State, w: World, client: string, w1: World, w2: World, answer: Answer)
    requires Inv(s) && !s.life.ended && s.life.owner == Some(client)
    requires s.talk.shown.step.Problem? && s.engine.movement.Some? && !s.talk.stopFirst
    ensures var sent := StopSends(s, w, client);
            var again := Turn(sent, w1, Act(client, sent.life.revision, RepeatStep, Blank));
            exists j :: LiveJob(again, j) && !Inv(StopReturns(again, w2, true, answer))
  {
    var sent := StopSends(s, w, client);
    ProblemMovement(s);
    SentLands(s, w, client);
    hide Inv, StopSends, Turn, StopReturns, IsTimed;
    RepeatQueues(sent, w1, client);
    var again := Turn(sent, w1, Act(client, sent.life.revision, RepeatStep, Blank));
    var j :| LiveJob(again, j);
    LateStopExposesTheMovement(again, w2, answer, j);
  }

  lemma RepeatQueues(s: State, w: World, client: string)
    requires !s.life.ended && s.life.owner == Some(client) && OnPlan(s.talk) && IsTimed(s.talk.plan[s.talk.index.value])
    requires s.talk.shown.step.Problem? && s.talk.shown.notice != Some(ReadingStale)
    ensures exists j :: LiveJob(Turn(s, w, Act(client, s.life.revision, RepeatStep, Blank)), j)
  {
    hide Do, Pump, Taken, IsTimed, OnPlan, Turn;
    var t := Taken(s, w, client);
    TakenIsTaken(s, w, client);
    var r := Do(t, w, RepeatStep);
    TimedAgain(t, w);
    PumpLeavesTheQueue(r);
    RepeatIsDone(s, w, client);
    assert LiveJob(Pump(r), r.engine.queued.value);
  }

  lemma RepeatIsDone(s: State, w: World, client: string)
    requires !s.life.ended && s.life.owner == Some(client)
    requires s.talk.shown.step.Problem? && s.talk.shown.notice != Some(ReadingStale)
    ensures Turn(s, w, Act(client, s.life.revision, RepeatStep, Blank)) == Pump(Do(Taken(s, w, client), w, RepeatStep))
  {
    hide Do, Pump, Taken;
  }

  lemma TakenIsTaken(s: State, w: World, client: string)
    ensures Taken(s, w, client).talk == s.talk && Taken(s, w, client).life.ended == s.life.ended
  {
  }

  lemma PumpLeavesTheQueue(s: State)
    ensures Pump(s).engine.queued == s.engine.queued && Pump(s).engine.generation == s.engine.generation
    ensures Pump(s).life == s.life
  {
  }

  lemma ProblemMovement(s: State)
    requires Inv(s) && !s.life.ended && s.talk.shown.step.Problem? && s.engine.movement.Some?
    ensures OnPlan(s.talk) && IsTimed(s.talk.plan[s.talk.index.value])
    ensures s.talk.shown.notice != Some(ReadingStale)
  {
    hide PlanKept, PathKept, ReadingsKept, TrustKept, JobsKept, TasksKept, LifeKept;
  }

  lemma SentLands(s: State, w: World, client: string)
    requires !s.life.ended && s.engine.movement.Some?
    ensures var r := StopSends(s, w, client);
            r.talk == s.talk && r.place == s.place && r.life.owner == Some(client) && r.life.ended == s.life.ended
            && r.engine == Overtake(s.engine)
  {
  }

  lemma TimedAgain(s: State, w: World)
    requires OnPlan(s.talk) && IsTimed(s.talk.plan[s.talk.index.value]) && !s.life.ended
    ensures var r := Do(s, w, RepeatStep); r.engine.queued.Some? && !Overtaken(r, r.engine.queued.value)
  {
    hide FractionStage, Reordered, Goto, ShowProblem, VariantOf;
  }

  /** A stop that comes back to a session that has ended publishes a problem screen after the end. */
  lemma LateStopPublishesAfterTheEnd(s: State, w: World, answer: Answer)
    requires Inv(s) && s.life.ended
    ensures var r := StopReturns(s, w, true, answer);
            r.life.revision == s.life.revision + 1 && r.talk.shown.step.Problem? && r.talk.shown.problem.Some?
  {
  }
}
