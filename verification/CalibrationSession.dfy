/** The session as the source writes it: one object, updated in place, one method for each of its own
    (calibration_session.py). Every method is tied to the function of module `Session` that says what the
    turn does to the whole state, which is what the theorems are about. */
module GuidedCalibration {
  import opened Wrappers
  import opened Plans
  import opened Screens
  import opened Session
  import opened SessionInvariant
  import opened SessionTurns

  class CalibrationSession {
    // the conversation
    var choice: Choice
    var plan: seq<Stage>
    var index: Option<nat>
    var measured: Measured
    var shown: Shown
    var aim: Aim
    var instants: Instants
    var report: Option<real>
    var error: Option<Reason>
    var review: Option<Card>
    var check: Option<Check>
    var stopFirst: bool
    var homeAnyway: bool
    var externalMove: bool
    var escaped: bool           // an exception that nothing caught

    // the movement, the press waited for, the queue and the suspended coroutines of the pump
    var engine: Engine

    // the shutter
    var at: Option<Direction>
    ghost var trace: seq<Happening>

    // the owner, the lease, the ending, and the endings and saves that are suspended
    var life: Life

    /** The whole of it as one value. */
    ghost function State(): State
      reads this
    {
      Session.State(
        Talk(choice, plan, index, measured, shown, aim, instants, report, error, review, check,
             stopFirst, homeAnyway, externalMove, escaped),
        engine, Place(at, trace), life)
    }

    /** A session in its first state: claimed by `client`, on the screen of the chosen path, with an empty history. */
    constructor (w: World, client: string, chosen: Option<Route>, named: Option<string>)
      ensures State() == Born(w, client, chosen, named)
      ensures Inv(State())
    {
      var correcting := chosen == Some(Refine) && named.Some?;
      choice := Choice(chosen, if chosen == Some(Profile) || correcting then named else None, None, None);
      plan, index := [], None;
      measured := if correcting then NOTHING_MEASURED.(height := w.ownHeight) else NOTHING_MEASURED;
      var first := match chosen
                   case None => ChoosePath
                   case Some(First) => PathAWarning
                   case Some(Profile) => PathBForm
                   case Some(Refine) => if named.Some? then RefineScope else PathCForm;
      shown := Shown(first, None, None, None);
      aim := Aim(None, None, false, MeasureDescent);
      instants := Instants(None, None, None, None, None);
      report, error, review, check := None, None, None, None;
      stopFirst, homeAnyway, externalMove, escaped := false, false, false, false;
      engine := Engine(None, None, None, None, false, 0, []);
      at, trace := None, [];
      life := Life(Some(client), w.now, None, 0, false, None, None, true, [], []);
      new;
      Publish(w);
      BornKept(w, client, chosen, named);
    }

    // ---------------------------------------------------------------- publishing

    method Touch(w: World)
      modifies this
      ensures State() == Session.Touch(old(State()), w)
    {
      if !life.ended { life := life.(lease := Some(w.now + Patience(shown.step))); }
    }

    method Publish(w: World)
      modifies this
      ensures State() == Session.Publish(old(State()), w)
    {
      life := life.(revision := life.revision + 1);
      Touch(w);
    }

    /** Puts a screen up: problem cleared, notice and form error as given, one revision more. */
    method Show(w: World, screen: Screen, why: Option<FormError>, note: Option<Notice>)
      modifies this
      ensures State() == ShowWith(old(State()), w, screen, why, note)
    {
      hide Session.Publish;
      shown := Shown(screen, None, note, why);
      Publish(w);
    }

    method ShowProblem(w: World, reason: Reason)
      modifies this
      ensures State() == Session.ShowProblem(old(State()), w, reason)
    {
      hide Session.Publish;
      var code := CodeOf(reason);
      shown := Shown(Problem(code), Some(code), None, None);
      check := None;
      Publish(w);
    }

    // ---------------------------------------------------------------- the ending

    method EmptyTheConversation()
      modifies this
      ensures State() == old(State()).(talk := Emptied(old(State()).talk))
    {
      ForgetTheMeasurement();
      ForgetThePlan();
    }

    method ForgetTheMeasurement()
      modifies this
      ensures var t := old(State()).talk;
              State() == old(State()).(talk := t.(measured := NOTHING_MEASURED,
                                                  instants := t.instants.(liftOff := None, stopDelivered := None)))
    {
      measured := NOTHING_MEASURED;
      instants := instants.(liftOff := None, stopDelivered := None);
    }

    method ForgetThePlan()
      modifies this
      ensures State() == old(State()).(talk := old(State()).talk.(plan := [], index := None, review := None,
                                                                  check := None))
    {
      plan, index, review, check := [], None, None, None;
    }

    method LetGo(reason: EndReason)
      modifies this
      ensures State() == (var s := old(State());
                          Session.State(s.talk.(shown := Shown(s.talk.shown.step, None, None, None)),
                                        s.engine.(movement := None, press := None, pressTimer := None, queued := None),
                                        s.place.(at := None),
                                        s.life.(lease := None, owner := None, ended := true, outcome := Some(reason),
                                                claimed := false)))
    {
      life := life.(lease := None, owner := None, ended := true, outcome := Some(reason), claimed := false);
      engine := engine.(pressTimer := None, movement := None, press := None, queued := None);
      at := None;
      shown := shown.(problem := None, notice := None, formError := None);
    }

    method Finish(w: World, reason: EndReason)
      modifies this
      ensures State() == Session.Finish(old(State()), w, reason)
    {
      hide Session.Publish, Emptied;
      if life.ended { return; }
      LetGo(reason);
      if reason != Saved { EmptyTheConversation(); }
      Publish(w);
    }

    method End(w: World, reason: EndReason)
      modifies this
      ensures State() == Session.End(old(State()), w, reason)
    {
      hide Session.Finish;
      if life.ended { return; }
      engine := engine.(generation := engine.generation + 1);
      if w.coverThere && w.shutterMoving && engine.movement.Some? {
        life := life.(reservedUntil := Some(w.now + w.fullRun));
      }
      Finish(w, reason);
    }

    /** Up to the stop an ending may write; `EndingReturns` is the rest of it. */
    method AsyncEnd(w: World, reason: EndReason, stop: bool)
      modifies this
      ensures State() == Session.AsyncEnd(old(State()), w, reason, stop)
    {
      hide Session.End;
      if life.ended { return; }
      engine := engine.(generation := engine.generation + 1);
      if stop && w.coverThere && w.shutterMoving {
        trace := trace + [EndingStop];
        life := life.(endings := life.endings + [reason]);
      } else {
        End(w, reason);
      }
    }

    // ---------------------------------------------------------------- the movements

    method Take(w: World, client: string)
      modifies this
      ensures State() == Session.Take(old(State()), w, client)
    {
      life := life.(owner := Some(client), ownerSeen := w.now);
    }

    method Overtake()
      modifies this
      ensures State() == old(State()).(engine := Session.Overtake(old(State()).engine))
    {
      engine := engine.(generation := engine.generation + 1, queued := None);
    }

    method Interrupt(w: World)
      modifies this
      ensures State() == Session.Interrupt(old(State()), w)
    {
      hide Session.Overtake, Session.ShowProblem;
      Overtake();
      engine := engine.(movement := None, press := None, pressTimer := None);
      at := None;
      ShowProblem(w, Interrupted);
    }

    method BeginMovement(w: World, screen: Screen, kind: Kind, direction: Direction,
                         primitive: Primitive, next: Next, note: Option<Notice>)
      modifies this
      ensures State() == Session.BeginMovement(old(State()), w, screen, kind, direction, primitive, next, note)
    {
      engine := engine.(movement := Some(Movement(kind, direction)), press := None);
      externalMove := false;
      Show(w, screen, None, None);
      engine := engine.(queued := Some(Job(primitive, next, note, engine.generation)));
    }

    method ArmPress(w: World, kind: Press)
      modifies this
      ensures State() == Session.ArmPress(old(State()), w, kind)
    {
      instants := instants.(shownAt := Some(w.now));
      engine := engine.(press := Some(kind), pressTimer := Some(w.now + 90.0));
    }

    method LiftMeasured(w: World)
      modifies this
      ensures State() == Session.LiftMeasured(old(State()), w)
    {
      hide ShowWith, Session.ShowProblem;
      if instants.motorStart.None? || instants.liftOff.None? {
        escaped := true;
        return;
      }
      var slat := instants.liftOff.value - instants.motorStart.value;
      if slat < 0.0 {
        ShowProblem(w, BadPoint);
        return;
      }
      var run := if instants.motorStopped.Some? then Some(instants.motorStopped.value - instants.motorStart.value)
                 else measured.liftRun;
      var late := instants.stopDelivered.Some? && instants.stopDelivered.value - instants.liftOff.value > 1.0;
      measured := measured.(slatSeconds := Some(slat), liftRun := run, liftLate := late);
      Show(w, if late then LiftCheckLate else LiftCheck, None, None);
    }

    method Goto(w: World, next: Next, note: Option<Notice>)
      modifies this
      ensures State() == Session.Goto(old(State()), w, next, note)
    {
      hide Session.BeginMovement, ShowWith, Session.LiftMeasured, Session.ArmPress;
      match next
      case ToTheRun =>
        var (direction, fraction) := aim.pending.GetOr((Close, 0.5));
        BeginMovement(w, TapeRun, Fraction, direction, RunTo(direction, fraction), ToScreen(aim.form), None);
      case ToTheLift =>
        LiftMeasured(w);
      case ToScreen(screen) =>
        if IsPress(screen) {
          ArmPress(w, if screen == OpenLift then LiftOffPress else EndStopPress);
          Show(w, screen, None, None);
        } else {
          Show(w, screen, None, note);
        }
    }

    method BeginHoming(w: World, screen: Screen, direction: Direction, next: Next)
      modifies this
      ensures State() == Session.BeginHoming(old(State()), w, screen, direction, next)
    {
      hide Session.Goto, Session.BeginMovement;
      if at == Some(direction) && !homeAnyway {
        engine := engine.(movement := None, press := None);
        externalMove := false;
        Goto(w, next, None);
        return;
      }
      homeAnyway := false;
      BeginMovement(w, screen, Homing, direction, Home(direction), next, None);
    }

    method TimedRun(w: World, brief: Screen)
      modifies this
      ensures State() == Session.TimedRun(old(State()), w, brief)
    {
      hide Session.BeginMovement;
      var (direction, homingStep, screen, next) :=
        if brief == CloseBrief then (Close, Positioning(CloseTimed), CloseStarting, CloseBottom)
        else if brief == OpenBrief then (Open, Positioning(OpenTimed), OpenStarting, OpenLift)
        else (Open, OpenHomeAgain, OpenFullStarting, OpenTop);
      var from := OtherEnd(direction);
      if at != Some(from) {
        BeginMovement(w, homingStep, Homing, from, Home(from), ToScreen(brief), Some(Rehomed));
        return;
      }
      instants := instants.(motorStart := None);
      BeginMovement(w, screen, Free, direction, StartFree(direction), ToScreen(next), None);
    }

    // ---------------------------------------------------------------- the plan

    /** The maximal run of tape stages from `start` on. */
    method ReadTapePhase(start: nat) returns (phase: seq<Stage>)
      ensures phase == TapePhase(plan, start)
    {
      phase := [];
      var i := start;
      while i < |plan| && (Movable(plan[i]) || plan[i] == Verify || plan[i] == HeightRead)
        invariant start <= i
        invariant phase + TapePhase(plan, i) == TapePhase(plan, start)
        decreases |plan| - i
      {
        phase := phase + [plan[i]];
        i := i + 1;
      }
    }

    method ReorderThePlan() returns (stages: seq<Stage>)
      ensures stages == Reordered(plan, index.GetOr(0) + 1, at)
    {
      hide TapePhase, OrderOf;
      var start := index.GetOr(0) + 1;
      var phase := ReadTapePhase(start);
      if phase == [] { return plan; }
      var ordered := OrderTheReadings(phase, at);
      return plan[..start] + ordered + plan[start + |phase|..];
    }

    method OrderTheTapePhase()
      modifies this
      ensures var t := old(State().talk);
              State() == old(State()).(talk := t.(plan := Reordered(t.plan, Index(t) + 1, old(at))))
    {
      hide Reordered;
      plan := ReorderThePlan();
    }

    method BeginFraction(w: World, stage: Stage, fraction: real)
      modifies this
      ensures State() == FractionStage(old(State()), w, stage, fraction)
    {
      hide Session.BeginHoming;
      var direction := RunDirection(stage);
      aim := aim.(halfTravel := stage == VerifyB, pending := Some((direction, fraction)), form := FormAfter(stage),
                  tapeTarget := None);
      check := None;
      BeginHoming(w, Positioning(stage), OtherEnd(direction), ToTheRun);
    }

    method ForgetTheAscent()
      modifies this
      ensures State() == old(State()).(talk := WithoutTheAscent(old(State().talk)))
    {
      instants := instants.(liftOff := None, stopDelivered := None, motorStopped := None);
      measured := measured.(slatSeconds := None, liftRun := None, liftGap := None, liftLate := false);
    }

    method EnterTheSummary(w: World)
      modifies this
      ensures State() == EnterStage(old(State()), w, Summary)
    {
      hide ShowWith, Session.ShowProblem;
      if w.summary.None? {
        ShowProblem(w, BadPoint);
        return;
      }
      var variant := if measured.precise then Precise
                     else if choice.path == Some(First) then Basic
                     else if choice.path == Some(Refine) then Correction
                     else Short;
      review := Some(Card(variant, w.summary.value));
      Show(w, Summing(variant), None, None);
    }

    method EnterTheStage(w: World, stage: Stage)
      modifies this
      ensures State() == EnterStage(old(State()), w, stage)
    {
      hide Session.BeginHoming, ShowWith, Session.ShowProblem, FractionStage, Reordered;
      match stage
      case HomeClosed => BeginHoming(w, Positioning(HomeClosed), Close, ToScreen(HomeClosedDone));
      case OpenTimed =>
        ForgetTheAscent();
        BeginHoming(w, Positioning(OpenTimed), Close, ToScreen(OpenBrief));
      case HeightRead =>
        if stopFirst { measured := WithoutTheTravel(measured); }
        BeginHoming(w, Positioning(HeightRead), Open, ToScreen(HeightForm));
      case CloseTimed => BeginHoming(w, Positioning(CloseTimed), Open, ToScreen(CloseBrief));
      case TapeBrief =>
        OrderTheTapePhase();
        Show(w, TapeBriefing, None, None);
      case VerifyOffer => Show(w, VerifyOffering, None, None);
      case ProfileName => Show(w, NameForm, None, None);
      case Summary => EnterTheSummary(w);
      case VerifyB =>
        if w.halfTravel.None? { ShowProblem(w, BadPoint); } else { BeginFraction(w, VerifyB, w.halfTravel.value); }
      case _ => BeginFraction(w, stage, FractionOf(stage));
    }

    method Enter(w: World)
      modifies this
      ensures State() == Session.Enter(old(State()), w)
    {
      hide EnterStage;
      error := None;
      report := None;
      review := None;
      if index.GetOr(0) >= |plan| { escaped := true; } else { EnterTheStage(w, plan[index.GetOr(0)]); }
    }

    method StartPlan(w: World, stages: seq<Stage>)
      modifies this
      ensures State() == Session.StartPlan(old(State()), w, old(State().talk), stages)
    {
      hide Session.Enter;
      plan := stages;
      index := Some(0);
      Enter(w);
    }

    method Advance(w: World)
      modifies this
      ensures State() == Session.Advance(old(State()), w)
    {
      hide Session.Enter;
      index := Some(index.GetOr(0) + 1);
      Enter(w);
    }

    method StartThorough(w: World, fromHere: bool)
      modifies this
      ensures State() == Session.StartThorough(old(State()), w, old(State().talk), fromHere)
    {
      hide Session.Enter;
      measured := measured.(precise := true);
      var stages := if HeightKnown(measured) then PLAN_PRECISE else PLAN_PRECISE_TRAVEL;
      if !fromHere { StartPlan(w, stages); }
      else {
        plan := plan[..Least(index.GetOr(0), |plan|)] + stages;
        Enter(w);
      }
    }

    // ---------------------------------------------------------------- the actions

    method LiftedOffPressed(w: World)
      modifies this
      ensures State() == PressLiftedOff(old(State()), w)
    {
      hide Session.BeginMovement, Session.ShowProblem;
      if instants.shownAt.Some? && w.now - instants.shownAt.value > 90.0 {
        ShowProblem(w, Timeout);
        return;
      }
      if instants.liftOff.None? { instants := instants.(liftOff := Some(w.now)); }
      engine := engine.(pressTimer := None, press := None);
      BeginMovement(w, LiftStop, Free, Open, StopLift, ToTheLift, None);
    }

    method StoppedOpenPressed(w: World)
      modifies this
      ensures State() == PressStopped(old(State()), w, Open)
    {
      hide Session.ShowProblem, ShowWith;
      if instants.shownAt.Some? && w.now - instants.shownAt.value > 90.0 {
        ShowProblem(w, Timeout);
        return;
      }
      engine := engine.(pressTimer := None, press := None);
      if instants.motorStart.None? {
        escaped := true;
        return;
      }
      var run := w.now - instants.motorStart.value;
      var slat := measured.slatSeconds.GetOr(0.0);
      if run <= 0.0 || slat < 0.0 || slat > run {
        ShowProblem(w, BadPoint);
        return;
      }
      measured := measured.(opening := Some(Timing(Some(slat), run)));
      AtTheEnd(Open);
      Show(w, if measured.liftGap.Some? then OpenResultGap else OpenResult, None, None);
    }

    method StoppedClosedPressed(w: World)
      modifies this
      ensures State() == PressStopped(old(State()), w, Close)
    {
      hide Session.ShowProblem, ShowWith;
      if instants.shownAt.Some? && w.now - instants.shownAt.value > 90.0 {
        ShowProblem(w, Timeout);
        return;
      }
      engine := engine.(pressTimer := None, press := None);
      if instants.motorStart.None? {
        escaped := true;
        return;
      }
      var run := w.now - instants.motorStart.value;
      if run <= 0.0 {
        ShowProblem(w, BadPoint);
        return;
      }
      measured := measured.(closing := Some(Timing(None, run)));
      AtTheEnd(Close);
      Show(w, CloseResult, None, None);
    }

    /** The effects of an accepted press beside its measurement: nothing moves and the position is known. */
    method AtTheEnd(direction: Direction)
      modifies this
      ensures State() == old(State()).(place := Place(Some(direction), old(State()).place.trace + [Reached(direction)]),
                                       engine := old(State()).engine.(movement := None))
    {
      at := Some(direction);
      trace := trace + [Reached(direction)];
      engine := engine.(movement := None);
    }

    method ForgetTheReading()
      modifies this
      ensures State() == old(State()).(talk := WithoutTheReading(old(State().talk)))
    {
      if aim.tapeTarget == Some(Close) && measured.descent != [] {
        measured := measured.(descent := measured.descent[..|measured.descent| - 1]);
      } else if aim.tapeTarget == Some(Open) && measured.ascent != [] {
        measured := measured.(ascent := measured.ascent[..|measured.ascent| - 1]);
      }
    }

    method AdoptTheTimes(w: World)
      modifies this
      ensures State() == Session.AdoptTheTimes(old(State()), w)
    {
      hide Session.AsyncEnd, Session.Enter;
      choice := choice.(scope := Some(PointsOnly));
      if w.inUse.None? {
        AsyncEnd(w, CoverGone, true);
        return;
      }
      var u := w.inUse.value;
      measured := measured.(opening := Some(Timing(Some(u.slat), u.opening)), closing := Some(Timing(None, u.closing)),
                            timesAdopted := true);
      StartThorough(w, false);
    }

    method ChooseAPath(w: World, action: Action)
      requires action.ChooseFirst? || action.ChooseProfile? || action.ChooseRefine?
      modifies this
      ensures State() == Do(old(State()), w, action)
    {
      hide ShowWith;
      match action
      case ChooseFirst =>
        choice := choice.(path := Some(First));
        Show(w, PathAWarning, None, None);
      case ChooseProfile =>
        choice := choice.(path := Some(Profile));
        Show(w, PathBForm, None, None);
      case ChooseRefine =>
        choice := choice.(path := Some(Refine));
        check := None;
        Show(w, PathCForm, None, None);
    }

    method StartAPlan(w: World, action: Action)
      requires action.Begin? || action.DoTimesOnly? || action.DoTimesAndRolls?
      modifies this
      ensures State() == Do(old(State()), w, action)
    {
      hide Session.Enter;
      match action
      case Begin =>
        choice := choice.(path := Some(First));
        measured := NOTHING_MEASURED;
        StartPlan(w, PLAN_FULL);
      case DoTimesOnly =>
        choice := choice.(scope := Some(TimesOnly));
        StartPlan(w, PLAN_TIMES);
      case DoTimesAndRolls =>
        choice := choice.(scope := Some(TimesAndRolls));
        StartPlan(w, PLAN_TIMES_AND_ROLLS);
    }

    method Walk(w: World, action: Action)
      requires action.VerifyNow? || action.SkipVerify? || action.ConfirmClosed? || action.AcceptStep?
               || action.StartTape?
      modifies this
      ensures State() == Do(old(State()), w, action)
    {
      hide Session.Enter;
      if action.VerifyNow? {
        var here := Least(index.GetOr(0) + 1, |plan|);
        plan := plan[..here] + [VerifyB] + plan[here..];
      }
      Advance(w);
    }

    method RepeatTheStage(w: World, action: Action)
      requires action.RepeatStep? || action.NotRight? || action.LiftTooEarly?
      modifies this
      ensures State() == Do(old(State()), w, action)
    {
      hide Session.Enter;
      if action.NotRight? { stopFirst := true; }
      if !action.LiftTooEarly? { homeAnyway := true; }
      Enter(w);
    }

    method RepeatTheReading(w: World, action: Action)
      requires action.RepeatTape? || action.TapeNotRight?
      modifies this
      ensures State() == Do(old(State()), w, action)
    {
      hide Session.Enter, WithoutTheReading;
      ForgetTheReading();
      if action.TapeNotRight? { stopFirst, homeAnyway := true, true; }
      Enter(w);
    }

    method Dispatch(w: World, action: Action)
      modifies this
      ensures State() == Do(old(State()), w, action)
    {
      hide Session.TimedRun, ShowWith, Session.BeginHoming, PressLiftedOff, PressStopped, Session.Enter,
        Session.AdoptTheTimes, Session.StartThorough;
      match action
      case ConfirmClosedAgain => Show(w, OpenFullBrief, None, None);
      case StartOpening => TimedRun(w, OpenBrief);
      case StartFullOpening => TimedRun(w, OpenFullBrief);
      case StartClosing => TimedRun(w, CloseBrief);
      case LiftedOff => LiftedOffPressed(w);
      case LiftAccept => BeginHoming(w, OpenHomeAgain, Close, ToScreen(ClosedAgain));
      case LiftByTape => Show(w, LiftGap, None, None);
      case StoppedOpen => StoppedOpenPressed(w);
      case StoppedClosed => StoppedClosedPressed(w);
      case RepeatMeasure =>
        measured := WithoutTheTravel(measured);
        Show(w, HeightForm, None, None);
      case Submit =>
      case ChooseFirst | ChooseProfile | ChooseRefine => ChooseAPath(w, action);
      case Begin | DoTimesOnly | DoTimesAndRolls => StartAPlan(w, action);
      case DoPointsOnly => AdoptTheTimes(w);
      case GoThorough => StartThorough(w, true);
      case VerifyNow | SkipVerify | ConfirmClosed | AcceptStep | StartTape => Walk(w, action);
      case RepeatStep | NotRight | LiftTooEarly => RepeatTheStage(w, action);
      case RepeatTape | TapeNotRight => RepeatTheReading(w, action);
    }

    // ---------------------------------------------------------------- the forms

    method TakeHeight(w: World, v: Value)
      modifies this
      ensures State() == SubmitHeight(old(State()), w, v)
    {
      hide ShowWith;
      if !v.Number? { Show(w, HeightForm, Some(NotANumber), None); }
      else if !(20.0 <= v.n <= 500.0) { Show(w, HeightForm, Some(OutOfRange), None); }
      else {
        measured := measured.(height := Some(v.n), heightMeasured := true);
        Show(w, HeightResult, None, None);
      }
    }

    method TakeGap(w: World, v: Value)
      modifies this
      ensures State() == SubmitGap(old(State()), w, v)
    {
      hide Session.BeginHoming, ShowWith;
      if v.Blank? { BeginHoming(w, OpenHomeAgain, Close, ToScreen(ClosedAgain)); }
      else if !v.Number? { Show(w, LiftGap, Some(NotANumber), None); }
      else if !(0.0 <= v.n <= 50.0) { Show(w, LiftGap, Some(OutOfRange), None); }
      else if v.n < 1.0 { Show(w, LiftEarly, None, None); }
      else {
        measured := measured.(liftGap := Some(v.n));
        BeginHoming(w, OpenHomeAgain, Close, ToScreen(ClosedAgain));
      }
    }

    method TakeReading(w: World, v: Value)
      modifies this
      ensures State() == SubmitReading(old(State()), w, v)
    {
      hide ShowWith, Verified;
      if !v.Number? { Show(w, shown.step, Some(NotANumber), None); }
      else if v.n < 0.0 { Show(w, shown.step, Some(OutOfRange), None); }
      else if measured.height.Some? && v.n > measured.height.value { Show(w, shown.step, Some(AboveTheTravel), None); }
      else if shown.step == MeasureVerify { AnswerTheCheck(w, v.n); }
      else if report.None? { Show(w, shown.step, Some(AboveTheTravel), None); }
      else {
        if shown.step == MeasureDescent {
          measured := measured.(descent := measured.descent + [(report.value, v.n)]);
          aim := aim.(tapeTarget := Some(Close));
        } else {
          measured := measured.(ascent := measured.ascent + [(report.value, v.n)]);
          aim := aim.(tapeTarget := Some(Open));
        }
        Show(w, TapeResult, None, None);
      }
    }

    method AnswerTheCheck(w: World, cm: real)
      modifies this
      ensures State() == Verified(old(State()), w, cm)
    {
      hide ShowWith, Session.ShowProblem;
      if w.prediction == CannotFit {
        ShowProblem(w, BadPoint);
        return;
      }
      var gap: Option<real> := None;
      if w.prediction != NoModel && HeightKnown(measured) {
        if aim.halfTravel { gap := Some(cm - measured.height.value / 2.0); }
        else if report.Some? && w.prediction.Predicts? { gap := Some(cm - w.prediction.cm); }
      }
      var fraction := aim.pending.GetOr((Close, 0.4)).1;
      measured := measured.(deviation := gap, verifyFraction := Some(fraction));
      aim := aim.(tapeTarget := None);
      check := Some(Check(cm, fraction, gap));
      Show(w, VerifyResult, None, None);
    }

    method CorrectThisProfile(w: World, name: string)
      modifies this
      ensures State() == old(State()).(talk := Correcting(old(State().talk), w.ownHeight, name))
    {
      var measuredHere := measured.height.Some? && measured.heightMeasured;
      choice := choice.(profile := Some(name));
      measured := NOTHING_MEASURED.(height := if HeightKnown(measured) then measured.height else w.ownHeight,
                                    heightMeasured := measuredHere);
      choice := choice.(scope := None);
      check, review := None, None;
    }

    method TakeProfile(w: World, name: string)
      modifies this
      ensures State() == SubmitProfile(old(State()), w, name)
    {
      hide Correcting, ShowWith, Session.Enter;
      if choice.path == Some(Refine) {
        CorrectThisProfile(w, name);
        Show(w, RefineScope, None, None);
      } else {
        choice := choice.(profile := Some(name));
        measured := NOTHING_MEASURED;
        StartPlan(w, PLAN_PROFILE);
      }
    }

    method TakeName(w: World, name: string)
      modifies this
      ensures State() == SubmitName(old(State()), w, name)
    {
      hide Session.Enter, ShowWith;
      if !IsAName(name) {
        Show(w, NameForm, Some(InvalidName), None);
        return;
      }
      choice := choice.(name := Some(name));
      Advance(w);
    }

    method TakeForm(w: World, field: Field, v: Value)
      modifies this
      ensures State() == DoSubmit(old(State()), w, field, v)
    {
      hide SubmitHeight, SubmitGap, SubmitReading, SubmitName, SubmitProfile;
      match field
      case HeightField => TakeHeight(w, v);
      case GapField => TakeGap(w, v);
      case ReadingField => TakeReading(w, v);
      case NameField => TakeName(w, Written(v));
      case ProfileField => TakeProfile(w, Written(v));
    }

    // ---------------------------------------------------------------- the pump

    method Pump()
      modifies this
      ensures State() == Session.Pump(old(State()))
    {
      if engine.queued.Some? && !engine.pumping {
        engine := engine.(pumping := true, tasks := engine.tasks + [Looping]);
      }
    }

    method Settle(p: Primitive, answer: Answer)
      requires answer.Done?
      modifies this
      ensures State() == Session.Settle(old(State()), p, answer)
    {
      match p
      case Home(d) =>
        at := Some(d);
        trace := trace + [Reached(d)];
      case StartFree(_) => instants := instants.(motorStart := Some(answer.first));
      case StopLift => instants := instants.(stopDelivered := Some(answer.first), motorStopped := Some(answer.second));
      case RunTo(_, _) => report := Some(answer.first);
    }

    /** The end of a job, from the answer of its primitive on. */
    method Complete(w: World, which: nat, job: Job, answer: Answer)
      requires which < |engine.tasks|
      modifies this
      ensures State() == Session.Complete(old(State()), w, which, job, answer)
    {
      hide Session.Goto, Session.AsyncEnd, Session.ShowProblem;
      engine := engine.(tasks := engine.tasks[which := Looping]);
      if !answer.Done? { error := ErrorOf(answer); }
      if job.generation != engine.generation || life.ended { return; }
      var failed := error.Some? || !answer.Done?;
      if !failed { Settle(job.primitive, answer); }
      if failed || !(job.next.ToScreen? && IsPress(job.next.screen)) { engine := engine.(movement := None); }
      if !failed { Goto(w, job.next, job.notice); }
      else if error == Some(UnknownCover) { AsyncEnd(w, CoverGone, true); }
      else { ShowProblem(w, error.GetOr(Unknown)); }
    }

    method Launch(w: World, which: nat, job: Job)
      requires which < |engine.tasks|
      modifies this
      ensures State() == Session.Launch(old(State()), w, which, job)
    {
      hide Session.Complete;
      if !w.coverThere { Complete(w, which, job, Failed(UnknownCover)); }
      else {
        engine := engine.(tasks := engine.tasks[which := Driving(job)]);
        trace := trace + [FrameOf(job.primitive)];
      }
    }

    method StartJob(w: World, which: nat, job: Job)
      requires which < |engine.tasks|
      modifies this
      ensures State() == Session.StartJob(old(State()), w, which, job)
    {
      hide Session.Launch;
      if job.generation != engine.generation || life.ended { return; }
      error := None;
      at := None;
      if stopFirst {
        stopFirst := false;
        if w.coverThere {
          engine := engine.(tasks := engine.tasks[which := Stopping(job)]);
          trace := trace + [StopFrame];
          return;
        }
      }
      Launch(w, which, job);
    }

    /** One turn of the pump: `answer` is what the stop or the primitive it waited for came back with. */
    method TaskTurn(w: World, which: nat, answer: Answer)
      modifies this
      ensures State() == Turn(old(State()), w, Event.TaskTurn(which, answer))
      ensures Inv(old(State())) ==> Inv(State())
    {
      hide Inv, Session.Complete, Session.Launch, Session.StartJob;
      ghost var s := State();
      if which < |engine.tasks| {
        match engine.tasks[which]
        case Looping =>
          if engine.queued.None? {
            engine := engine.(pumping := false, tasks := engine.tasks[..which] + engine.tasks[which + 1..]);
          } else {
            var work := engine.queued.value;
            engine := engine.(queued := None);
            StartJob(w, which, work);
          }
        case Stopping(job) =>
          if answer.FailedOtherwise? { Complete(w, which, job, answer); }
          else if job.generation != engine.generation || life.ended {
            engine := engine.(tasks := engine.tasks[which := Looping]);
          }
          else { Launch(w, which, job); }
        case Driving(job) => Complete(w, which, job, answer);
      }
      KeptByTurn(s, w, Event.TaskTurn(which, answer));
    }

    // ---------------------------------------------------------------- the verbs

    method CarryOut(w: World, action: Action, value: Value)
      modifies this
      ensures State() == Session.Pump(Carried(old(State()), w, action, value))
    {
      hide Do, DoSubmit, Session.Pump;
      if action == Submit { TakeForm(w, FormOf(shown.step).GetOr(HeightField), value); } else { Dispatch(w, action); }
      Pump();
    }

    method CheckAct(w: World, client: string, current: nat, action: Action) returns (refused: Option<Refusal>)
      ensures refused == GuardAct(State(), w, client, current, action)
    {
      hide Offered;
      if life.ended { return Some(SessionEnded); }
      if life.owner.Some? && life.owner != Some(client) && w.now - life.ownerSeen < 45.0 { return Some(SessionOwned); }
      if current != life.revision { return Some(RevisionConflict); }
      var offered := IsOffered(w, action);
      return if offered then None else Some(NotOffered);
    }

    method Act(w: World, client: string, current: nat, action: Action, value: Value) returns (refused: Option<Refusal>)
      modifies this
      ensures State() == Turn(old(State()), w, Event.Act(client, current, action, value))
      ensures refused == (var g := GuardAct(old(State()), w, client, current, action);
                          if g.None? && NamesNoProfile(old(State().talk), w, action, value) then Some(UnknownProfile)
                          else g)
      ensures Inv(old(State())) ==> Inv(State())
    {
      hide Inv, Touched, Carried, Session.Pump, GuardAct;
      ghost var s := State();
      refused := CheckAct(w, client, current, action);
      if refused.None? {
        Take(w, client);
        Touch(w);
        if action == Submit && FormOf(shown.step) == Some(ProfileField) && Written(value) !in w.profiles {
          refused := Some(UnknownProfile);
        } else {
          CarryOut(w, action, value);
        }
      }
      KeptByTurn(s, w, Event.Act(client, current, action, value));
    }

    method IsOffered(w: World, action: Action) returns (offered: bool)
      ensures offered == Offered(State().talk, w, action)
    {
      hide Offers, FormOf;
      if action == Submit { offered := FormOf(shown.step).Some?; }
      else if shown.notice == Some(ReadingStale) { offered := action == RepeatTape; }
      else if shown.step == ChoosePath && w.profiles == {} { offered := action == ChooseFirst; }
      else {
        var d := measured.deviation.GetOr(0.0);
        var corrects := choice.path == Some(Profile) && (d > 4.05 || -d > 4.05);
        offered := Offers(shown.step, action) || (shown.step == VerifyResult && corrects && action == ChooseRefine);
      }
    }

    /** From the answer of the bus to the stop frame on. */
    method StopIsBack(w: World, interrupting: bool, answer: Answer)
      modifies this
      ensures State() == StopReturns(old(State()), w, interrupting, answer)
    {
      hide Session.ShowProblem, StopRefused;
      if w.coverThere { trace := trace + [if interrupting then StopFrame else IdleStop]; }
      if interrupting {
        engine := engine.(movement := None, press := None, pressTimer := None);
        at := None;
        ShowProblem(w, StopRefused(w, answer).GetOr(Interrupted));
      }
    }

    /** The stop, both halves of it in one turn. */
    method Stop(w: World, client: string, answer: Answer)
      modifies this
      ensures State() == Turn(old(State()), w, Event.Stop(client, answer))
      ensures Inv(old(State())) ==> Inv(State())
    {
      hide Inv, Touched, StopReturns;
      ghost var s := State();
      if !life.ended && !(life.owner.Some? && life.owner != Some(client) && w.now - life.ownerSeen < 45.0) {
        Take(w, client);
        Touch(w);
        var interrupting := engine.movement.Some?;
        if interrupting { Overtake(); }
        StopIsBack(w, interrupting, answer);
      }
      KeptByTurn(s, w, Event.Stop(client, answer));
    }

    method Attach(w: World, client: string, claim: bool)
      modifies this
      ensures State() == Turn(old(State()), w, Event.Attach(client, claim))
      ensures Inv(old(State())) ==> Inv(State())
    {
      hide Inv, Session.Publish;
      ghost var s := State();
      if !life.ended && (claim || !(life.owner.Some? && w.now - life.ownerSeen < 45.0) || life.owner == Some(client)) {
        var changed := life.owner != Some(client);
        Take(w, client);
        if changed { Publish(w); }
      }
      KeptByTurn(s, w, Event.Attach(client, claim));
    }

    method Heartbeat(w: World, client: string) returns (owning: bool)
      modifies this
      ensures State() == Turn(old(State()), w, Event.Heartbeat(client))
      ensures owning <==> !old(life.ended) && old(life.owner) == Some(client)
      ensures Inv(old(State())) ==> Inv(State())
    {
      hide Inv;
      ghost var s := State();
      owning := !life.ended && life.owner == Some(client);
      if owning { life := life.(ownerSeen := w.now); }
      KeptByTurn(s, w, Event.Heartbeat(client));
    }

    method Leave(w: World, client: string)
      modifies this
      ensures State() == Turn(old(State()), w, Event.Leave(client))
      ensures Inv(old(State())) ==> Inv(State())
    {
      hide Inv, Session.Publish, Session.End;
      ghost var s := State();
      if !life.ended && life.owner == Some(client) {
        var m := measured;
        var anything := m.heightMeasured || m.opening.Some? || m.closing.Some? || m.slatSeconds.Some? || m.liftRun.Some?
                        || m.descent != [] || m.ascent != [] || m.deviation.Some? || choice.name.Some?;
        if !anything { End(w, Left); }
        else {
          life := life.(owner := None);
          Publish(w);
        }
      }
      KeptByTurn(s, w, Event.Leave(client));
    }

    method Cancel(w: World, client: string, force: bool)
      modifies this
      ensures State() == Turn(old(State()), w, Event.Cancel(client, force))
      ensures Inv(old(State())) ==> Inv(State())
    {
      hide Inv, Session.AsyncEnd;
      ghost var s := State();
      if !life.ended && !(life.owner.Some? && life.owner != Some(client) && w.now - life.ownerSeen < 45.0 && !force) {
        Take(w, client);
        AsyncEnd(w, Cancelled, false);
      }
      KeptByTurn(s, w, Event.Cancel(client, force));
    }

    /** Up to the write; `SaveReturns` is the rest of it. */
    method Save(w: World, client: string, current: nat, target: Target) returns (refused: Option<Refusal>)
      modifies this
      ensures State() == Turn(old(State()), w, Event.Save(client, current, target))
      ensures refused == GuardSave(old(State()), w, client, current, target)
      ensures Inv(old(State())) ==> Inv(State())
    {
      hide Inv, GuardSave, Touched;
      ghost var s := State();
      refused := CheckSave(w, client, current, target);
      if refused.None? {
        Take(w, client);
        Touch(w);
        life := life.(saves := life.saves + [target]);
      }
      KeptByTurn(s, w, Event.Save(client, current, target));
    }

    method CheckSave(w: World, client: string, current: nat, target: Target) returns (refused: Option<Refusal>)
      ensures refused == GuardSave(State(), w, client, current, target)
    {
      hide IsAName;
      var targets := if choice.path == Some(First) then [ProfileTarget, CoverOnly]
                     else if choice.path == Some(Profile) then [ProfileTarget]
                     else [CoverOnly];
      var name := if choice.name.Some? then choice.name.value else choice.profile.GetOr("");
      if life.ended { return Some(SessionEnded); }
      if life.owner.Some? && life.owner != Some(client) && w.now - life.ownerSeen < 45.0 { return Some(SessionOwned); }
      if !shown.step.Summing? || review.None? { return Some(NotInReview); }
      if current != life.revision { return Some(RevisionConflict); }
      if target !in targets { return Some(NotOffered); }
      if target == ProfileTarget && choice.path == Some(First) && !IsAName(name) { return Some(BadName); }
      return None;
    }

    method SaveReturns(w: World, which: nat, written: bool)
      modifies this
      ensures State() == Turn(old(State()), w, Event.SaveReturns(which, written))
      ensures Inv(old(State())) ==> Inv(State())
    {
      hide Inv, Session.Finish;
      ghost var s := State();
      if which < |life.saves| {
        life := life.(saves := life.saves[..which] + life.saves[which + 1..]);
        if written { Finish(w, Saved); }
      }
      KeptByTurn(s, w, Event.SaveReturns(which, written));
    }

    // ---------------------------------------------------------------- the timers and the shutter

    method PressExpired(w: World)
      modifies this
      ensures State() == Turn(old(State()), w, PressTimer)
      ensures Inv(old(State())) ==> Inv(State())
    {
      hide Inv, Session.ShowProblem;
      ghost var s := State();
      if engine.pressTimer.Some? {
        engine := engine.(pressTimer := None);
        if !life.ended && engine.press.Some? {
          Overtake();
          engine := engine.(press := None, movement := None);
          ShowProblem(w, Timeout);
        }
      }
      KeptByTurn(s, w, PressTimer);
    }

    method LeaseExpired(w: World)
      modifies this
      ensures State() == Turn(old(State()), w, LeaseTimer)
      ensures Inv(old(State())) ==> Inv(State())
    {
      hide Inv, Session.AsyncEnd;
      ghost var s := State();
      if life.lease.Some? {
        life := life.(lease := None);
        AsyncEnd(w, Expired, true);
      }
      KeptByTurn(s, w, LeaseTimer);
    }

    method External(w: World)
      modifies this
      ensures State() == Session.External(old(State()), w)
    {
      hide Session.Interrupt, ShowWith, Session.Publish;
      externalMove := true;
      at := None;
      trace := trace + [Moved];
      var mode := ModeOf(shown.step);
      if mode.Running? || mode.Setting? { Interrupt(w); }
      else if IsTapeForm(shown.step) { Show(w, shown.step, None, Some(ReadingStale)); }
      else { Publish(w); }
    }

    method CoverMoves(w: World, direction: Direction)
      modifies this
      ensures State() == Turn(old(State()), w, Event.CoverMoves(direction))
      ensures Inv(old(State())) ==> Inv(State())
    {
      hide Inv, Session.External;
      ghost var s := State();
      if !life.ended && !(engine.movement.Some? && engine.movement.value.direction == direction) { External(w); }
      KeptByTurn(s, w, Event.CoverMoves(direction));
    }

    method CoverRests(w: World, wasMoving: bool)
      modifies this
      ensures State() == Turn(old(State()), w, Event.CoverRests(wasMoving))
      ensures Inv(old(State())) ==> Inv(State())
    {
      hide Inv, Session.Interrupt;
      ghost var s := State();
      if !life.ended && wasMoving && engine.press == Some(LiftOffPress) { Interrupt(w); }
      KeptByTurn(s, w, Event.CoverRests(wasMoving));
    }

    method Unloading(w: World)
      modifies this
      ensures State() == Turn(old(State()), w, Unload)
      ensures Inv(old(State())) ==> Inv(State())
    {
      hide Inv, Session.AsyncEnd;
      ghost var s := State();
      AsyncEnd(w, Unloaded, true);
      KeptByTurn(s, w, Unload);
    }

    method EndingReturns(w: World, which: nat)
      modifies this
      ensures State() == Turn(old(State()), w, Event.EndingReturns(which))
      ensures Inv(old(State())) ==> Inv(State())
    {
      hide Inv, Session.End;
      ghost var s := State();
      if which < |life.endings| {
        var reason := life.endings[which];
        life := life.(endings := life.endings[..which] + life.endings[which + 1..]);
        End(w, reason);
      }
      KeptByTurn(s, w, Event.EndingReturns(which));
    }
  }

  lemma KeptByTurn(s: State, w: World, e: Event)
    ensures Inv(s) ==> Inv(Turn(s, w, e))
  {
    hide Inv, Turn;
    if Inv(s) { TurnKeeps(s, w, e); }
  }
}
