/** What stops a run and what starts one: a stop, the clock of a press, a shutter that rests, and the turns of the pump
    that send the frames. */
module Interruptions {
  import opened Wrappers
  import opened Screens
  import opened Session
  import opened SessionInvariant
  import opened SessionEffects
  import opened Revisions
  import opened Safety
  import opened Steps

  /** Nothing is under way any more behind a problem that says why; nothing measured is lost. */
  ghost predicate BroughtToRest(s: State, r: State, why: Reason) {
    && r.talk.shown == Shown(Problem(why), Some(why), None, None) && r.talk.measured == s.talk.measured
    && r.talk.plan == s.talk.plan && r.talk.index == s.talk.index
    && NoLiveJob(r.engine) && r.engine.queued.None? && r.engine.movement.None? && r.engine.press.None?
    && r.engine.pressTimer.None?
  }

  lemma RestsBehind(s: State, s1: State, w: World, reason: Reason)
    requires Settled(s) && s1.talk == s.talk
    requires s1.engine == Overtake(s.engine).(movement := None, press := None, pressTimer := None)
    ensures BroughtToRest(s, ShowProblem(s1, w, reason), CodeOf(reason))
    ensures ShowProblem(s1, w, reason).place == s1.place && ShowProblem(s1, w, reason).life.owner == s1.life.owner
  {
    hide Settled, NoLiveJob;
    OvertakenIsQuiet(s);
  }

  // ---------------------------------------------------------------- stops

  /** What a stop over a movement is shown as: an interruption where it got through, and what went wrong with it
      where it did not. */
  function StopShows(w: World, answer: Answer): Reason {
    if !w.coverThere then Unknown else if answer.Done? then Interrupted else FailureOf(answer)
  }

  /** A stop that gets through takes the session and writes its frame if there is a cover to write it to. Over a
      movement it brings everything to rest, whatever came of the frame, and the position is not known any more;
      with none it touches nothing. */
  lemma StopBringsToRest(s: State, w: World, client: string, answer: Answer)
    requires Inv(s) && !s.life.ended && !OwnedByAnother(s.life, w.now, client, false)
    ensures var r := Turn(s, w, Stop(client, answer));
            && r.life.owner == Some(client) && !r.life.ended
            && (if s.engine.movement.Some? then
                  && BroughtToRest(s, r, StopShows(w, answer)) && r.place.at.None?
                  && r.place.trace == s.place.trace + (if w.coverThere then [StopFrame] else [])
                else
                  && r.talk == s.talk && r.engine == s.engine && r.place.at == s.place.at
                  && r.place.trace == s.place.trace + (if w.coverThere then [IdleStop] else []))
  {
    hide Inv, Settled, Taken, OwnedByAnother, ShowProblem, BroughtToRest, StopRefused;
    LiveIsSettled(s);
    TakenIsTheSame(s, w, client);
    TakenCounts(s, w, client);
    StopIsShownAs(w, answer);
    if s.engine.movement.Some? {
      var s1 := StopSends(s, w, client);
      var s2 := if w.coverThere then Happens(s1, StopFrame) else s1;
      var reason := StopRefused(w, answer).GetOr(Interrupted);
      var s3 := s2.(engine := s2.engine.(movement := None, press := None, pressTimer := None),
                    place := s2.place.(at := None));
      RestsBehind(s, s3, w, reason);
      ProblemCarries(s3, w, reason);
    }
  }

  lemma StopIsShownAs(w: World, answer: Answer)
    ensures CodeOf(StopRefused(w, answer).GetOr(Interrupted)) == StopShows(w, answer)
  {
  }

  /** The clock of a press brings the run it waits for to rest; without a press, or once the session has ended, it is
      only taken away. */
  lemma PressRunsOut(s: State, w: World)
    requires Inv(s)
    ensures var r := Turn(s, w, PressTimer);
            if s.engine.pressTimer.Some? && s.engine.press.Some? && !s.life.ended then
              BroughtToRest(s, r, Timeout) && r.place == s.place
            else r == s.(engine := s.engine.(pressTimer := None))
  {
    hide Inv, Settled, ShowProblem, BroughtToRest;
    if !s.life.ended {
      LiveIsSettled(s);
      RestsBehind(s, s.(engine := Overtake(s.engine).(pressTimer := None, press := None, movement := None)), w,
                  Timeout);
    }
  }

  /** A shutter that comes to rest interrupts the lift-off run while its press is waited for, and nothing else: at an
      end stop it is only what was to be expected. */
  lemma RestInterruptsTheLift(s: State, w: World, wasMoving: bool)
    requires Inv(s) && !s.life.ended
    ensures var r := Turn(s, w, CoverRests(wasMoving));
            if wasMoving && s.engine.press == Some(LiftOffPress) then
              BroughtToRest(s, r, Interrupted) && r.place == s.place.(at := None)
            else r == s
  {
    hide Inv, Settled, ShowProblem, BroughtToRest;
    LiveIsSettled(s);
    RestsBehind(s, s.(engine := Overtake(s.engine).(movement := None, press := None, pressTimer := None),
                      place := s.place.(at := None)), w, Interrupted);
  }

  // ---------------------------------------------------------------- the pump

  /** The frame of `job` has gone out. */
  predicate Sent(s: State, which: nat, job: Job, r: State) {
    && which < |s.engine.tasks|
    && r.engine.tasks == s.engine.tasks[which := Driving(job)]
    && r.place == Place(None, s.place.trace + [match job.primitive
                                               case Home(end) => HomeFrame(end)
                                               case StartFree(way) => FreeFrame(way)
                                               case StopLift => StopFrame
                                               case RunTo(way, _) => RunFrame(way)])
  }

  /** A pump that looks at its queue: it ends without one, forgets one that was overtaken, and starts a live one,
      with a stop first where one is owed and with the frame of its own primitive otherwise. From then on the
      position is not known, the stop is not owed any more and no older error is. */
  lemma QueueStarts(s: State, w: World, which: nat, answer: Answer)
    requires Inv(s) && which < |s.engine.tasks| && s.engine.tasks[which].Looping? && w.coverThere
    ensures var r := Turn(s, w, TaskTurn(which, answer));
            && r.life == s.life && r.engine.queued.None?
            && (s.engine.queued.None? ==> r.engine == s.engine.(pumping := false, tasks := []) && r.talk == s.talk)
            && (s.engine.queued.Some? ==>
                  var job := s.engine.queued.value;
                  if Overtaken(s, job) then r == s.(engine := s.engine.(queued := None))
                  else
                    && r.talk == s.talk.(error := None, stopFirst := false)
                    && (if s.talk.stopFirst then
                          && r.engine.tasks == s.engine.tasks[which := Stopping(job)]
                          && r.place == Place(None, s.place.trace + [StopFrame])
                        else Sent(s, which, job, r)))
  {
    hide Inv, Complete, FrameOf;
    OnlyTask(s, which);
    if s.engine.queued.Some? { FrameIs(s.engine.queued.value.primitive); }
  }

  lemma FrameIs(p: Primitive)
    ensures FrameOf(p) == match p
                          case Home(end) => HomeFrame(end)
                          case StartFree(way) => FreeFrame(way)
                          case StopLift => StopFrame
                          case RunTo(way, _) => RunFrame(way)
  {
  }

  lemma OnlyTask(s: State, which: nat)
    requires Inv(s) && which < |s.engine.tasks|
    ensures |s.engine.tasks| == 1 && which == 0
  {
  }

  /** Back from the stop that was owed, a live job goes out whatever the bus said of it, and only a failure of
      another kind is a problem. */
  lemma StopComesBack(s: State, w: World, which: nat, answer: Answer)
    requires Inv(s) && !s.life.ended && which < |s.engine.tasks| && s.engine.tasks[which].Stopping? && w.coverThere
    requires !Overtaken(s, s.engine.tasks[which].job)
    ensures var r := Turn(s, w, TaskTurn(which, answer));
            if answer.FailedOtherwise? then
              r.talk.shown.step == Problem(Unknown) && r.engine.movement.None? && r.place.at.None?
            else Sent(s, which, s.engine.tasks[which].job, r) && r.talk == s.talk
  {
    hide Inv, Complete, LiveQueue;
    LostWhileStopping(s, which);
    if answer.FailedOtherwise? { StopFails(s, w, which); }
  }

  lemma StopFails(s: State, w: World, which: nat)
    requires !s.life.ended && which < |s.engine.tasks| && s.engine.tasks[which].Stopping?
    requires !Overtaken(s, s.engine.tasks[which].job) && s.place.at.None? && !LiveQueue(s.engine)
    ensures var r := Complete(s, w, which, s.engine.tasks[which].job, FailedOtherwise);
            r.talk.shown.step == Problem(Unknown) && r.engine.movement.None? && r.place.at.None?
  {
    hide Conclude;
    var s1 := TaskBecomes(s, which, Looping).(talk := s.talk.(error := Some(Unknown)));
    FailedComesBack(s1, w, s.engine.tasks[which].job, FailedOtherwise);
  }

  lemma LostWhileStopping(s: State, which: nat)
    requires Inv(s) && !s.life.ended && which < |s.engine.tasks| && s.engine.tasks[which].Stopping?
    requires !Overtaken(s, s.engine.tasks[which].job)
    ensures s.place.at.None? && !LiveQueue(s.engine)
  {
    hide TalkKept, MovingKept, TrustKept, LifeKept, JobFits, MovesFor;
  }
}
