/** Runs of the machine, turn by turn, that show what the results about whole runs leave open does happen. */
module Witnesses {
  import opened Wrappers
  import opened Plans
  import opened Screens
  import opened Session
  import opened SessionInvariant
  import opened Endings
  import opened Safety
  import opened StopHalves

  /** A world in which the cover stands still and every frame is taken. */
  function Still(now: real): World {
    World(now, true, false, {}, None, None, NoModel, None, None, 0.0)
  }

  /** A world in which the shutter moves and every frame is taken. */
  function Shutting(now: real): World { Still(now).(shutterMoving := true) }

  // ---------------------------------------------------------------- path A, down to its first press

  /** The user's own screen on path A, with nothing to do in the pump. */
  ghost predicate Waiting(s: State, step: Screen, index: nat, revision: nat) {
    && !s.life.ended && s.life.owner == Some("a") && s.life.revision == revision && s.life.endings == []
    && s.talk.shown.step == step && s.talk.shown.notice != Some(ReadingStale)
    && s.talk.plan == PLAN_FULL && s.talk.index == Some(index)
    && !s.talk.stopFirst && !s.talk.homeAnyway
    && s.engine.queued.None? && s.engine.tasks == [Looping] && s.engine.pumping
  }

  const BEGIN: (World, Event) := (Still(1.0), Act("a", 1, Begin, Blank))
  const GOES: (World, Event) := (Still(2.0), TaskTurn(0, FailedOtherwise))
  const CLOSED: (World, Event) := (Still(3.0), TaskTurn(0, Done(0.0, 0.0)))

  /** Path A has brought the shutter down. */
  function Lowered(): State { LifeOf(Still(0.0), "a", Some(First), None, [BEGIN, GOES, CLOSED]) }

  lemma LoweredWaits()
    ensures Waiting(Lowered(), HomeClosedDone, 0, 3) && Inv(Lowered())
    ensures Lowered().place == Place(Some(Close), [HomeFrame(Close), Reached(Close)])
    ensures Lowered().engine.movement.None? && Lowered().engine.press.None?
  {
    hide Turn, Born, Inv;
    var s0 := Born(Still(0.0), "a", Some(First), None);
    var s1 := Turn(s0, BEGIN.0, BEGIN.1);
    FirstHoming(s0);
    FirstTalk(s0);
    var job := Job(Home(Close), ToScreen(HomeClosedDone), None, 0);
    var s2 := Turn(s1, GOES.0, GOES.1);
    FirstFrame(s1, job);
    FirstReached(s2, job);
    LifeIsKept(Still(0.0), "a", Some(First), None, [BEGIN, GOES, CLOSED]);
    RunOfThree(s0, BEGIN, GOES, CLOSED);
  }

  lemma RunOfThree(s: State, a: (World, Event), b: (World, Event), c: (World, Event))
    ensures Run(s, [a, b, c]) == Turn(Turn(Turn(s, a.0, a.1), b.0, b.1), c.0, c.1)
  {
    hide Turn;
    var s1 := Turn(s, a.0, a.1);
    assert [a, b, c][1..] == [b, c] && [b, c][1..] == [c] && [c][1..] == [];
    assert Run(Turn(s1, b.0, b.1), [c]) == Turn(Turn(s1, b.0, b.1), c.0, c.1);
    assert Run(s1, [b, c]) == Run(Turn(s1, b.0, b.1), [c]);
  }

  lemma FirstHoming(s: State)
    requires s == Born(Still(0.0), "a", Some(First), None)
    ensures var r := Turn(s, BEGIN.0, BEGIN.1);
            && r.engine == Engine(Some(Movement(Homing, Close)), None, None,
                                  Some(Job(Home(Close), ToScreen(HomeClosedDone), None, 0)), true, 0, [Looping])
            && !r.life.ended && r.life.owner == Some("a") && !r.talk.stopFirst && r.place == Place(None, [])
  {
  }

  lemma FirstFrame(s: State, job: Job)
    requires s.engine.queued == Some(job) && s.engine.tasks == [Looping] && !Overtaken(s, job)
    requires !s.talk.stopFirst && job.primitive == Home(Close)
    ensures Turn(s, GOES.0, GOES.1)
            == State(s.talk.(error := None), s.engine.(queued := None, tasks := [Driving(job)]),
                     Place(None, s.place.trace + [HomeFrame(Close)]), s.life)
  {
  }

  lemma FirstTalk(s: State)
    requires s == Born(Still(0.0), "a", Some(First), None)
    ensures var r := Turn(s, BEGIN.0, BEGIN.1);
            && r.talk.plan == PLAN_FULL && r.talk.index == Some(0) && !r.talk.homeAnyway && r.talk.error.None?
            && r.life.revision == 2 && r.life.endings == []
  {
  }

  lemma FirstReached(s: State, job: Job)
    requires s.engine.tasks == [Driving(job)] && !Overtaken(s, job) && s.talk.error.None?
    requires job == Job(Home(Close), ToScreen(HomeClosedDone), None, 0)
    ensures var r := Turn(s, CLOSED.0, CLOSED.1);
            && r.engine == s.engine.(movement := None, tasks := [Looping])
            && r.talk == s.talk.(shown := Shown(HomeClosedDone, None, None, None))
            && r.place == Place(Some(Close), s.place.trace + [Reached(Close)])
            && r.life == s.life.(revision := s.life.revision + 1, lease := r.life.lease)
  {
  }

  lemma {:induction false} OneMore(turns: seq<(World, Event)>, path: Option<Route>, profile: Option<string>, w: World,
                                   e: Event)
    ensures LifeOf(Still(0.0), "a", path, profile, turns + [(w, e)])
            == Turn(LifeOf(Still(0.0), "a", path, profile, turns), w, e)
  {
    hide Turn, Born;
    RunInOne(Born(Still(0.0), "a", path, profile), turns + [(w, e)]);
    assert (turns + [(w, e)])[..|turns|] == turns;
  }

  lemma NoTurns(path: Option<Route>, profile: Option<string>)
    ensures LifeOf(Still(0.0), "a", path, profile, []) == Born(Still(0.0), "a", path, profile)
  {
    hide Born, Turn;
  }

  // ---------------------------------------------------------------- stops the position is kept through

  /** The position is known and the last thing written is a stop: the user presses stop on the screen that
      says the shutter is down. */
  lemma StopIsNotAlwaysAMove()
    ensures LifeOf(Still(0.0), "a", Some(First), None,
                   [BEGIN, GOES, CLOSED] + [(Still(4.0), Stop("a", Done(0.0, 0.0)))]).place
            == Place(Some(Close), [HomeFrame(Close), Reached(Close), IdleStop])
  {
    hide LifeOf, Turn, Inv;
    LoweredWaits();
    OneMore([BEGIN, GOES, CLOSED], Some(First), None, Still(4.0), Stop("a", Done(0.0, 0.0)));
    IdleStopKeepsThePosition(Lowered(), Still(4.0), "a", Done(0.0, 0.0));
  }

  /** And so it is while the stop of an ending is out: the integration unloads while the shutter, which the
      user has seen come down, is reported to move. */
  lemma EndingStopKeepsThePosition()
    ensures var s := LifeOf(Still(0.0), "a", Some(First), None, [BEGIN, GOES, CLOSED] + [(Shutting(4.0), Unload)]);
            !s.life.ended && s.place == Place(Some(Close), [HomeFrame(Close), Reached(Close), EndingStop])
  {
    hide LifeOf, Inv, TurnAct, RunTask;
    LoweredWaits();
    OneMore([BEGIN, GOES, CLOSED], Some(First), None, Shutting(4.0), Unload);
  }

  // ---------------------------------------------------------------- a lease that ran out

  const RUNS_OUT: (World, Event) := (Shutting(1.0), LeaseTimer)
  const ARMS_AGAIN: (World, Event) := (Shutting(2.0), Act("a", 1, Begin, Blank))
  const COMES_BACK: (World, Event) := (Still(3.0), EndingReturns(0))

  /** The lease runs out while the shutter moves: the session is live without one. A verb of its owner arms
      it again, and the ending the timer began still comes. */
  lemma ArmedAgainAndEnded()
    ensures var s := LifeOf(Still(0.0), "a", Some(First), None, [RUNS_OUT]);
            !s.life.ended && s.life.lease.None? && s.life.endings == [Expired]
    ensures var s := LifeOf(Still(0.0), "a", Some(First), None, [RUNS_OUT, ARMS_AGAIN]);
            !s.life.ended && s.life.lease.Some? && s.life.endings == [Expired]
    ensures LifeOf(Still(0.0), "a", Some(First), None, [RUNS_OUT, ARMS_AGAIN, COMES_BACK]).life.outcome == Some(Expired)
  {
    hide Turn, LifeOf, Born;
    var s := Born(Still(0.0), "a", Some(First), None);
    NoTurns(Some(First), None);
    OutOfTime(s);
    var s1 := Turn(s, RUNS_OUT.0, RUNS_OUT.1);
    InTimeAgain(s1);
    var s2 := Turn(s1, ARMS_AGAIN.0, ARMS_AGAIN.1);
    BackFromItsStop(s2);
    OneMore([], Some(First), None, RUNS_OUT.0, RUNS_OUT.1);
    OneMore([RUNS_OUT], Some(First), None, ARMS_AGAIN.0, ARMS_AGAIN.1);
    OneMore([RUNS_OUT, ARMS_AGAIN], Some(First), None, COMES_BACK.0, COMES_BACK.1);
    assert [] + [RUNS_OUT] == [RUNS_OUT] && [RUNS_OUT] + [ARMS_AGAIN] == [RUNS_OUT, ARMS_AGAIN];
    assert [RUNS_OUT, ARMS_AGAIN] + [COMES_BACK] == [RUNS_OUT, ARMS_AGAIN, COMES_BACK];
  }

  lemma OutOfTime(s: State)
    requires s == Born(Still(0.0), "a", Some(First), None)
    ensures var r := Turn(s, RUNS_OUT.0, RUNS_OUT.1);
            && r.life.lease.None? && r.life.endings == [Expired] && r.life.owner == Some("a") && !r.life.ended
            && r.life.revision == 1 && r.talk == FreshTalk(Some(First), None, None)
  {
  }

  lemma InTimeAgain(s: State)
    requires s.talk == FreshTalk(Some(First), None, None)
    requires s.life.lease.None? && s.life.owner == Some("a") && !s.life.ended && s.life.revision == 1
    ensures var r := Turn(s, ARMS_AGAIN.0, ARMS_AGAIN.1);
            r.life.lease.Some? && r.life.endings == s.life.endings && !r.life.ended
  {
    hide BeginTheRun, LiftMeasured, ArmPress, Reordered, FractionStage, ShowProblem;
    assert s.talk.shown == Shown(PathAWarning, None, None, None);
    OwnersAct(s, ARMS_AGAIN.0, Begin);
    hide Turn, Taken;
  }

  lemma BackFromItsStop(s: State)
    requires !s.life.ended && s.life.endings == [Expired]
    ensures Turn(s, COMES_BACK.0, COMES_BACK.1).life.outcome == Some(Expired)
  {
  }

  // ---------------------------------------------------------------- the two acts that leave the revision

  const NOBODYS: (World, Event) := (Still(1.0), Act("a", 1, Submit, Text("north")))
  const SOMEBODYS: (World, Event) := (Still(2.0).(profiles := {"north"}), Act("a", 1, Submit, Text("north")))

  /** Path B with a profile nobody defines: the revision stays, and once the profile is defined the same act
      on it is carried out. */
  lemma UndefinedProfileLeavesTheRevision()
    ensures LifeOf(Still(0.0), "a", Some(Profile), None, [NOBODYS]).life.revision == 1
    ensures LifeOf(Still(0.0), "a", Some(Profile), None, [NOBODYS, SOMEBODYS]).life.revision == 2
  {
    hide Turn, LifeOf, Born;
    var s := Born(Still(0.0), "a", Some(Profile), None);
    NoTurns(Some(Profile), None);
    OneMore([], Some(Profile), None, NOBODYS.0, NOBODYS.1);
    OneMore([NOBODYS], Some(Profile), None, SOMEBODYS.0, SOMEBODYS.1);
    NobodysProfile(s);
    SomebodysProfile(Turn(s, NOBODYS.0, NOBODYS.1));
    assert [] + [NOBODYS] == [NOBODYS] && [NOBODYS] + [SOMEBODYS] == [NOBODYS, SOMEBODYS];
  }

  lemma NobodysProfile(s: State)
    requires s == Born(Still(0.0), "a", Some(Profile), None)
    ensures var r := Turn(s, NOBODYS.0, NOBODYS.1);
            r.life.revision == 1 && r.talk == s.talk && r.life.owner == Some("a") && !r.life.ended
    ensures s.talk.shown == Shown(PathBForm, None, None, None) && s.talk.choice.path == Some(Profile)
  {
  }

  lemma SomebodysProfile(s: State)
    requires s.life.revision == 1 && s.life.owner == Some("a") && !s.life.ended
    requires s.talk.shown == Shown(PathBForm, None, None, None) && s.talk.choice.path == Some(Profile)
    ensures Turn(s, SOMEBODYS.0, SOMEBODYS.1).life.revision == 2
  {
  }

  const ADOPTS: (World, Event) := (Shutting(1.0), Act("a", 1, DoPointsOnly, Blank))
  const RESCOPES: (World, Event) := (Shutting(2.0), Act("a", 1, DoTimesOnly, Blank))

  /** A correction that adopts the times of a cover that has gone from the gateway while the shutter still
      moves: the revision stays, and another scope can be taken on it before the ending's stop is back. */
  lemma AdoptionLeavesTheRevision()
    ensures var s := LifeOf(Still(0.0), "a", Some(Refine), Some("north"), [ADOPTS]);
            s.life.revision == 1 && !s.life.ended && s.life.endings == [CoverGone]
    ensures LifeOf(Still(0.0), "a", Some(Refine), Some("north"), [ADOPTS, RESCOPES]).life.revision == 2
  {
    hide Turn, LifeOf, Born;
    var s := Born(Still(0.0), "a", Some(Refine), Some("north"));
    NoTurns(Some(Refine), Some("north"));
    OneMore([], Some(Refine), Some("north"), ADOPTS.0, ADOPTS.1);
    OneMore([ADOPTS], Some(Refine), Some("north"), RESCOPES.0, RESCOPES.1);
    AdoptsNothing(s);
    ScopedAgain(Turn(s, ADOPTS.0, ADOPTS.1));
    assert [] + [ADOPTS] == [ADOPTS] && [ADOPTS] + [RESCOPES] == [ADOPTS, RESCOPES];
  }

  lemma AdoptsNothing(s: State)
    requires s == Born(Still(0.0), "a", Some(Refine), Some("north"))
    ensures var r := Turn(s, ADOPTS.0, ADOPTS.1);
            && r.life.revision == 1 && r.life.owner == Some("a") && !r.life.ended && r.life.endings == [CoverGone]
            && r.talk.shown == Shown(RefineScope, None, None, None) && r.place.at.None?
  {
  }

  lemma ScopedAgain(s: State)
    requires s.life.revision == 1 && s.life.owner == Some("a") && !s.life.ended
    requires s.talk.shown == Shown(RefineScope, None, None, None) && s.place.at.None?
    ensures Turn(s, RESCOPES.0, RESCOPES.1).life.revision == 2
  {
  }

  // ---------------------------------------------------------------- a press that comes too late

  lemma ToTheBrief(s: State)
    requires Waiting(s, HomeClosedDone, 0, 3) && s.place.at == Some(Close)
    ensures var r := Turn(s, Still(4.0), Act("a", 3, ConfirmClosed, Blank));
            Waiting(r, OpenBrief, 1, 4) && r.place.at == Some(Close)
  {
    OwnersAct(s, Still(4.0), ConfirmClosed);
    hide Turn, Taken, Do;
    BriefNext(Taken(s, Still(4.0), "a"), Still(4.0));
  }

  /** An act of the owner, on the revision there is, on a screen whose menu has it. */
  lemma OwnersAct(s: State, w: World, a: Action)
    requires !s.life.ended && s.life.owner == Some("a")
    requires s.talk.shown.notice != Some(ReadingStale) && !s.talk.shown.step.ChoosePath?
    requires Offers(s.talk.shown.step, a) && a != Submit
    ensures var s1 := Taken(s, w, "a");
            && s1 == s.(life := s1.life) && s1.life == s.life.(ownerSeen := s1.life.ownerSeen, lease := s1.life.lease)
            && Turn(s, w, Act("a", s.life.revision, a, Blank)) == Pump(Do(s1, w, a))
  {
    hide Do, Offers, Pump;
  }

  lemma BriefNext(s: State, w: World)
    requires Waiting(s, HomeClosedDone, 0, 3) && s.place.at == Some(Close)
    ensures var r := Do(s, w, ConfirmClosed); Waiting(r, OpenBrief, 1, 4) && r.place.at == Some(Close)
  {
    hide BeginMovement, BeginTheRun, LiftMeasured, ArmPress, Reordered, FractionStage;
  }

  lemma ToTheStart(s: State)
    requires Waiting(s, OpenBrief, 1, 4) && s.place.at == Some(Close)
    ensures var r := Turn(s, Still(5.0), Act("a", 4, StartOpening, Blank));
            && Waiting(r.(engine := r.engine.(queued := None)), OpenStarting, 1, 5)
            && r.engine.queued == Some(Job(StartFree(Open), ToScreen(OpenLift), None, r.engine.generation))
            && r.engine.movement.Some?
  {
    OwnersAct(s, Still(5.0), StartOpening);
    hide Turn, Taken, Do;
    StartNext(Taken(s, Still(5.0), "a"), Still(5.0));
  }

  lemma StartNext(s: State, w: World)
    requires Waiting(s, OpenBrief, 1, 4) && s.place.at == Some(Close)
    ensures var r := Do(s, w, StartOpening);
            && Waiting(r.(engine := r.engine.(queued := None)), OpenStarting, 1, 5)
            && r.engine.queued == Some(Job(StartFree(Open), ToScreen(OpenLift), None, r.engine.generation))
            && r.engine.movement.Some?
  {
  }

  lemma ToTheFrame(s: State, job: Job)
    requires Waiting(s.(engine := s.engine.(queued := None)), OpenStarting, 1, 5)
    requires s.engine.queued == Some(job) && job.generation == s.engine.generation
    ensures var r := Turn(s, Still(6.0), TaskTurn(0, FailedOtherwise));
            && Waiting(r.(engine := r.engine.(tasks := [Looping])), OpenStarting, 1, 5)
            && r.engine.tasks == [Driving(job)] && r.engine.generation == s.engine.generation && r.talk.error.None?
            && r.engine.movement == s.engine.movement
  {
  }

  lemma ToTheLiftOff(s: State, job: Job)
    requires Waiting(s.(engine := s.engine.(tasks := [Looping])), OpenStarting, 1, 5) && s.talk.error.None?
    requires s.engine.tasks == [Driving(job)]
             && job == Job(StartFree(Open), ToScreen(OpenLift), None, s.engine.generation)
    ensures var r := Turn(s, Still(7.0), TaskTurn(0, Done(6.0, 0.0)));
            && Waiting(r, OpenLift, 1, 6)
            && r.talk.instants.shownAt == Some(7.0) && r.engine.movement == s.engine.movement
  {
  }

  lemma TooLate(s: State)
    requires Waiting(s, OpenLift, 1, 6) && s.talk.instants.shownAt == Some(7.0)
    ensures var r := Turn(s, Still(98.0), Act("a", 6, LiftedOff, Blank));
            && Waiting(r, Problem(Timeout), 1, 7) && r.engine.movement == s.engine.movement
  {
    OwnersAct(s, Still(98.0), LiftedOff);
    hide Turn, Taken, Do;
    TooLateNext(Taken(s, Still(98.0), "a"), Still(98.0));
  }

  lemma TooLateNext(s: State, w: World)
    requires Waiting(s, OpenLift, 1, 6) && s.talk.instants.shownAt == Some(7.0) && w.now == 98.0
    ensures var r := Do(s, w, LiftedOff);
            && Waiting(r, Problem(Timeout), 1, 7) && r.engine.movement == s.engine.movement
  {
  }

  const LATE: seq<(World, Event)> :=
    [(Still(4.0), Act("a", 3, ConfirmClosed, Blank)), (Still(5.0), Act("a", 4, StartOpening, Blank)),
     (Still(6.0), TaskTurn(0, FailedOtherwise)), (Still(7.0), TaskTurn(0, Done(6.0, 0.0))),
     (Still(98.0), Act("a", 6, LiftedOff, Blank))]

  function TooLateThere(): State { LifeOf(Still(0.0), "a", Some(First), None, [BEGIN, GOES, CLOSED] + LATE) }

  /** A problem screen with its movement still going: the lift-off press of path A, 91 seconds after its screen. */
  lemma LatePressLeavesItsMovement()
    ensures var s := TooLateThere();
            Waiting(s, Problem(Timeout), 1, 7) && s.engine.movement.Some? && Inv(s)
  {
    hide Turn, Waiting, Inv, Born, Run;
    var s := Lowered();
    LoweredWaits();
    LifeIsKept(Still(0.0), "a", Some(First), None, [BEGIN, GOES, CLOSED] + LATE);
    RunInTwo(Born(Still(0.0), "a", Some(First), None), [BEGIN, GOES, CLOSED], LATE);
    RunOfFive(s, LATE);
    FiveTurns(s);
  }

  /** From the screen that says the shutter is down to the problem screen over the run. */
  lemma FiveTurns(s: State)
    requires Waiting(s, HomeClosedDone, 0, 3) && s.place.at == Some(Close)
    ensures var s2 := Turn(Turn(s, LATE[0].0, LATE[0].1), LATE[1].0, LATE[1].1);
            var s5 := Turn(Turn(Turn(s2, LATE[2].0, LATE[2].1), LATE[3].0, LATE[3].1), LATE[4].0, LATE[4].1);
            Waiting(s5, Problem(Timeout), 1, 7) && s5.engine.movement.Some?
  {
    hide Turn, Waiting;
    ToTheBrief(s);
    var s1 := Turn(s, LATE[0].0, LATE[0].1);
    ToTheStart(s1);
    var s2 := Turn(s1, LATE[1].0, LATE[1].1);
    var job := s2.engine.queued.value;
    ToTheFrame(s2, job);
    var s3 := Turn(s2, LATE[2].0, LATE[2].1);
    ToTheLiftOff(s3, job);
    var s4 := Turn(s3, LATE[3].0, LATE[3].1);
    TooLate(s4);
  }

  lemma RunOfFive(s: State, turns: seq<(World, Event)>)
    requires |turns| == 5
    ensures var s2 := Turn(Turn(s, turns[0].0, turns[0].1), turns[1].0, turns[1].1);
            Run(s, turns)
            == Turn(Turn(Turn(s2, turns[2].0, turns[2].1), turns[3].0, turns[3].1), turns[4].0, turns[4].1)
  {
    hide Turn;
    var s1 := Turn(s, turns[0].0, turns[0].1);
    var s2 := Turn(s1, turns[1].0, turns[1].1);
    var rest := turns[2..];
    assert turns[1..][1..] == rest && turns[1..][0] == turns[1];
    assert Run(s, turns) == Run(s1, turns[1..]) == Run(s2, rest);
    assert rest == [turns[2], turns[3], turns[4]];
    RunOfThree(s2, turns[2], turns[3], turns[4]);
  }

  /** From there a stop and a repeat sent before it is back are enough: the stop then puts its problem screen
      over a movement that is still live, which the invariant of the one-turn stop never allows. */
  lemma RepeatExposesAMovement(w: World, w1: World, w2: World, answer: Answer)
    ensures var sent := StopSends(TooLateThere(), w, "a");
            var again := Turn(sent, w1, Act("a", sent.life.revision, RepeatStep, Blank));
            exists j :: LiveJob(again, j) && !Inv(StopReturns(again, w2, true, answer))
  {
    LatePressLeavesItsMovement();
    RepeatedBeforeTheStopReturns(TooLateThere(), w, "a", w1, w2, answer);
    hide *;
  }

}
