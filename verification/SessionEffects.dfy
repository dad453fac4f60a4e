/** What a turn changes outside the conversation: the revision, the owner, the generation, the pump and
    the shutter's history. */
module SessionEffects {
  import opened Wrappers
  import opened Plans
  import opened Screens
  import opened Session
  import opened SessionInvariant
  import opened SessionProof

  predicate LiveQueue(e: Engine) { e.queued.Some? && Live(e, e.queued.value) }

  /** The seconds the lease waits on a screen: half an hour on one to be read with nothing moved for it, ten minutes
      on one that is about a movement. */
  function WaitsFor(step: Screen): real {
    match ModeOf(step)
    case Armed | Reviewing => 1800.0
    case Briefing =>
      if IsBrief(step) || step.TapeBriefing? || step.VerifyOffering? || step.NameForm? || step.Problem? then 1800.0
      else 600.0
    case _ => if step.HeightForm? then 1800.0 else 600.0
  }

  /** One screen put up: one revision, no change of owner, of generation or of the pump, nothing new
      about the shutter but an end stop reached, a live job behind a movement screen, the lease restarted. */
  ghost predicate Carries(w: World, s: State, r: State) {
    && r.life == s.life.(revision := s.life.revision + 1, lease := r.life.lease)
    && r.engine.tasks == s.engine.tasks && r.engine.pumping == s.engine.pumping
    && r.engine.generation == s.engine.generation
    && (r.place == s.place || (r.place.at.Some? && r.place.trace == s.place.trace + [Reached(r.place.at.value)]))
    && (IsMoving(r.talk.shown.step) ==> LiveQueue(r.engine))
    && (!s.life.ended ==> r.life.lease == Some(w.now + WaitsFor(r.talk.shown.step)))
  }

  // ---------------------------------------------------------------- the ways to a screen

  lemma PatienceIs(step: Screen)
    ensures Patience(step) == WaitsFor(step)
  {
  }

  lemma ScreenCarries(s: State, w: World, step: Screen, error: Option<FormError>, notice: Option<Notice>)
    requires !IsMoving(step)
    ensures Carries(w, s, ShowWith(s, w, step, error, notice))
  {
    hide Patience, WaitsFor, IsMoving;
    PatienceIs(step);
  }

  lemma ProblemCarries(s: State, w: World, reason: Reason)
    ensures Carries(w, s, ShowProblem(s, w, reason))
  {
    hide Patience, WaitsFor;
    PatienceIs(Problem(CodeOf(reason)));
  }

  lemma MovementCarries(s: State, w: World, step: Screen, kind: Kind, direction: Direction,
                        p: Primitive, next: Next, notice: Option<Notice>)
    ensures Carries(w, s, BeginMovement(s, w, step, kind, direction, p, next, notice))
  {
    hide Patience, WaitsFor, IsMoving;
    PatienceIs(step);
  }

  lemma LiftCarries(s: State, w: World)
    requires !LiftMeasured(s, w).talk.escaped
    ensures Carries(w, s, LiftMeasured(s, w))
  {
    hide Carries, ShowWith, ShowProblem;
    ProblemCarries(s, w, BadPoint);
    var i := s.talk.instants;
    if i.motorStart.Some? && i.liftOff.Some? {
      var run := if i.motorStopped.Some? then Some(i.motorStopped.value - i.motorStart.value)
                 else s.talk.measured.liftRun;
      var late := i.stopDelivered.Some? && i.stopDelivered.value - i.liftOff.value > 1.0;
      var m := s.talk.measured.(slatSeconds := Some(i.liftOff.value - i.motorStart.value), liftRun := run,
                                liftLate := late);
      ShowCarries(s, w, s.talk.(measured := m), if late then LiftCheckLate else LiftCheck);
    }
  }

  lemma GotoCarries(s: State, w: World, next: Next, notice: Option<Notice>)
    requires !Goto(s, w, next, notice).talk.escaped
    requires next.ToScreen? ==> !IsMoving(next.screen)
    ensures Carries(w, s, Goto(s, w, next, notice))
  {
    hide LiftMeasured, Carries, BeginMovement, ShowWith, ArmPress;
    match next
    case ToTheLift => LiftCarries(s, w);
    case ToTheRun =>
      var (direction, fraction) := s.talk.aim.pending.GetOr((Close, 0.5));
      MovementCarries(s, w, TapeRun, Fraction, direction, RunTo(direction, fraction), ToScreen(s.talk.aim.form), None);
    case ToScreen(screen) =>
      ScreenCarries(s, w, screen, None, notice);
      if IsPress(screen) {
        PressScreenCarries(s, w, if screen == OpenLift then LiftOffPress else EndStopPress, screen);
      }
  }

  lemma PressScreenCarries(s: State, w: World, kind: Press, screen: Screen)
    requires !IsMoving(screen)
    ensures Carries(w, s, ShowWith(ArmPress(s, w, kind), w, screen, None, None))
  {
    hide Patience, WaitsFor, IsMoving;
    PatienceIs(screen);
  }

  lemma HomingCarries(s: State, w: World, step: Screen, d: Direction, next: Next)
    requires !BeginHoming(s, w, step, d, next).talk.escaped
    requires next.ToScreen? ==> !IsMoving(next.screen)
    ensures Carries(w, s, BeginHoming(s, w, step, d, next))
  {
    hide Goto, BeginMovement, Carries;
    if s.place.at == Some(d) && !s.talk.homeAnyway {
      GotoCarries(Rested(s), w, next, None);
      CarriesFrom(w, s, Rested(s), Goto(Rested(s), w, next, None));
    } else {
      var s1 := s.(talk := s.talk.(homeAnyway := false));
      MovementCarries(s1, w, step, Homing, d, Home(d), next, None);
      CarriesFrom(w, s, s1, BeginMovement(s1, w, step, Homing, d, Home(d), next, None));
    }
  }

  /** Only these parts of the state the turn began in matter. */
  lemma CarriesFrom(w: World, s: State, s1: State, r: State)
    requires Carries(w, s1, r) && s1.life == s.life && s1.place == s.place
    requires s1.engine.tasks == s.engine.tasks && s1.engine.pumping == s.engine.pumping
    requires s1.engine.generation == s.engine.generation
    ensures Carries(w, s, r)
  {
  }

  lemma StageCarries(s: State, w: World, stage: Stage)
    requires !EnterStage(s, w, stage).talk.escaped
    ensures Carries(w, s, EnterStage(s, w, stage))
  {
    hide BeginHoming, Reordered, FractionStage, Show, ShowProblem, Carries, VariantOf;
    match stage
    case HomeClosed => HomingCarries(s, w, Positioning(HomeClosed), Close, ToScreen(HomeClosedDone));
    case OpenTimed =>
      var s1 := s.(talk := WithoutTheAscent(s.talk));
      HomingCarries(s1, w, Positioning(OpenTimed), Close, ToScreen(OpenBrief));
      CarriesFrom(w, s, s1, EnterStage(s, w, stage));
    case HeightRead =>
      var s1 := if s.talk.stopFirst then s.(talk := s.talk.(measured := WithoutTheTravel(s.talk.measured))) else s;
      HomingCarries(s1, w, Positioning(HeightRead), Open, ToScreen(HeightForm));
      CarriesFrom(w, s, s1, EnterStage(s, w, stage));
    case CloseTimed => HomingCarries(s, w, Positioning(CloseTimed), Open, ToScreen(CloseBrief));
    case TapeBrief =>
      ShowCarries(s, w, s.talk.(plan := Reordered(s.talk.plan, Index(s.talk) + 1, s.place.at)), TapeBriefing);
    case VerifyOffer => ShowCarries(s, w, s.talk, VerifyOffering);
    case ProfileName => ShowCarries(s, w, s.talk, NameForm);
    case Summary =>
      var v := VariantOf(s.talk);
      if w.summary.Some? { ShowCarries(s, w, s.talk.(review := Some(Card(v, w.summary.value))), Summing(v)); }
      else { ProblemCarries(s, w, BadPoint); }
    case VerifyB =>
      if w.halfTravel.Some? {
        FractionCarries(s, w, VerifyB, w.halfTravel.value);
      } else {
        ProblemCarries(s, w, BadPoint);
      }
    case _ => FractionCarries(s, w, stage, FractionOf(stage));
  }

  lemma FractionCarries(s: State, w: World, stage: Stage, fraction: real)
    requires !FractionStage(s, w, stage, fraction).talk.escaped
    ensures Carries(w, s, FractionStage(s, w, stage, fraction))
  {
    hide BeginHoming;
    var direction := RunDirection(stage);
    var aim := Aim(None, Some((direction, fraction)), stage == VerifyB, FormAfter(stage));
    var s1 := s.(talk := s.talk.(aim := aim, check := None));
    HomingCarries(s1, w, Positioning(stage), OtherEnd(direction), ToTheRun);
  }

  lemma EnterCarries(s: State, w: World, talk: Talk)
    requires !EnterWith(s, w, talk).talk.escaped
    ensures Carries(w, s, EnterWith(s, w, talk))
  {
    hide EnterStage, Carries;
    var t := talk.(error := None, report := None, review := None);
    var s1 := s.(talk := t);
    if Index(talk) < |talk.plan| {
      StageCarries(s1, w, talk.plan[Index(talk)]);
      CarriesFrom(w, s, s1, EnterStage(s1, w, talk.plan[Index(talk)]));
    }
  }

  // ---------------------------------------------------------------- actions and forms

  lemma StoppedCarries(s: State, w: World, d: Direction)
    requires !PressStopped(s, w, d).talk.escaped
    ensures Carries(w, s, PressStopped(s, w, d))
  {
    hide Carries, Show, ShowProblem;
    ProblemCarries(s, w, Timeout);
    ProblemCarries(Unpressed(s), w, BadPoint);
    CarriesFrom(w, s, Unpressed(s), ShowProblem(Unpressed(s), w, BadPoint)) by { hide Unpressed; UnpressedCarries(s); }
    if !TimedOut(s, w) && s.talk.instants.motorStart.Some? {
      var run := w.now - s.talk.instants.motorStart.value;
      var slat := s.talk.measured.slatSeconds.GetOr(0.0);
      var m := if d == Open then s.talk.measured.(opening := Some(Timing(Some(slat), run)))
               else s.talk.measured.(closing := Some(Timing(None, run)));
      ReachedCarries(s, w, m, d,
                     if d == Close then CloseResult else if m.liftGap.Some? then OpenResultGap else OpenResult);
    }
  }

  lemma UnpressedCarries(s: State)
    ensures Unpressed(s).life == s.life && Unpressed(s).place == s.place && Unpressed(s).talk == s.talk
    ensures Unpressed(s).engine.tasks == s.engine.tasks && Unpressed(s).engine.pumping == s.engine.pumping
    ensures Unpressed(s).engine.generation == s.engine.generation
  {
  }

  lemma ReachedCarries(s: State, w: World, m: Measured, d: Direction, step: Screen)
    requires !IsMoving(step)
    ensures Carries(w, s, Show(s.(talk := s.talk.(measured := m),
                               engine := s.engine.(press := None, pressTimer := None, movement := None),
                               place := Place(Some(d), s.place.trace + [Reached(d)])), w, step))
  {
    hide Patience, WaitsFor, IsMoving;
    PatienceIs(step);
  }

  lemma LiftedCarries(s: State, w: World)
    ensures Carries(w, s, PressLiftedOff(s, w))
  {
    hide Carries, BeginMovement, ShowProblem;
    ProblemCarries(s, w, Timeout);
    var i := s.talk.instants;
    var talk := s.talk.(instants := i.(liftOff := if i.liftOff.None? then Some(w.now) else i.liftOff));
    var s1 := Unpressed(s).(talk := talk);
    MovementCarries(s1, w, LiftStop, Free, Open, StopLift, ToTheLift, None);
    CarriesFrom(w, s, s1, BeginMovement(s1, w, LiftStop, Free, Open, StopLift, ToTheLift, None));
  }

  lemma TimedRunCarries(s: State, w: World, brief: Screen)
    requires IsBrief(brief)
    ensures Carries(w, s, TimedRun(s, w, brief))
  {
    hide BeginMovement, Carries;
    var (direction, homing, step, next) :=
      if brief.CloseBrief? then (Close, Positioning(CloseTimed), CloseStarting, CloseBottom)
      else if brief.OpenBrief? then (Open, Positioning(OpenTimed), OpenStarting, OpenLift)
      else (Open, OpenHomeAgain, OpenFullStarting, OpenTop);
    var from := OtherEnd(direction);
    var s1 := s.(talk := s.talk.(instants := s.talk.instants.(motorStart := None)));
    MovementCarries(s, w, homing, Homing, from, Home(from), ToScreen(brief), Some(Rehomed));
    MovementCarries(s1, w, step, Free, direction, StartFree(direction), ToScreen(next), None);
    if s.place.at == Some(from) {
      CarriesFrom(w, s, s1, BeginMovement(s1, w, step, Free, direction, StartFree(direction), ToScreen(next), None));
    }
  }

  lemma PlanActionCarries(s: State, w: World, a: Action)
    requires ChoosesAPlan(a) && !(a.DoPointsOnly? && w.inUse.None?)
    requires !Do(s, w, a).talk.escaped
    ensures Carries(w, s, Do(s, w, a))
  {
    hide Enter, Carries, Index, Least;
    var talk := s.talk;
    match a
    case ChooseFirst => ShowCarries(s, w, Chose(talk, First), PathAWarning);
    case ChooseProfile => ShowCarries(s, w, Chose(talk, Profile), PathBForm);
    case ChooseRefine => ShowCarries(s, w, Chose(talk, Refine).(check := None), PathCForm);
    case Begin =>
      EnterCarries(s, w, Chose(talk, First).(measured := NOTHING_MEASURED, plan := PLAN_FULL, index := Some(0)));
    case DoTimesOnly => EnterCarries(s, w, Scoped(talk, TimesOnly).(plan := PLAN_TIMES, index := Some(0)));
    case DoTimesAndRolls =>
      EnterCarries(s, w, Scoped(talk, TimesAndRolls).(plan := PLAN_TIMES_AND_ROLLS, index := Some(0)));
    case DoPointsOnly =>
      var u := w.inUse.value;
      var m := talk.measured.(opening := Some(Timing(Some(u.slat), u.opening)),
                              closing := Some(Timing(None, u.closing)), timesAdopted := true);
      ThoroughCarries(s, w, Scoped(talk, PointsOnly).(measured := m), false);
    case GoThorough => ThoroughCarries(s, w, talk, true);
  }

  lemma ThoroughCarries(s: State, w: World, talk: Talk, fromHere: bool)
    requires !StartThorough(s, w, talk, fromHere).talk.escaped
    ensures Carries(w, s, StartThorough(s, w, talk, fromHere))
  {
    hide Enter, Carries, Index, Least;
    var precise := talk.(measured := talk.measured.(precise := true));
    var plan := if HeightKnown(talk.measured) then PLAN_PRECISE else PLAN_PRECISE_TRAVEL;
    if fromHere { EnterCarries(s, w, precise.(plan := talk.plan[..Least(Index(talk), |talk.plan|)] + plan)); }
    else { EnterCarries(s, w, precise.(plan := plan, index := Some(0))); }
  }

  lemma ShowCarries(s: State, w: World, talk: Talk, step: Screen)
    requires !IsMoving(step)
    ensures Carries(w, s, Show(s.(talk := talk), w, step))
  {
    hide Patience, WaitsFor, IsMoving;
    PatienceIs(step);
  }

  lemma WalkActionCarries(s: State, w: World, a: Action)
    requires WalksThePlan(a) && !Do(s, w, a).talk.escaped
    ensures Carries(w, s, Do(s, w, a))
  {
    hide Enter, Carries, Grafted, WithoutTheReading;
    var t := s.talk;
    match a
    case VerifyNow => EnterCarries(s, w, t.(plan := Grafted(t.plan, Index(t)), index := Some(Index(t) + 1)));
    case SkipVerify | ConfirmClosed | AcceptStep | StartTape => EnterCarries(s, w, t.(index := Some(Index(t) + 1)));
    case RepeatStep => EnterCarries(s, w, t.(homeAnyway := true));
    case NotRight => EnterCarries(s, w, t.(stopFirst := true, homeAnyway := true));
    case LiftTooEarly => EnterCarries(s, w, t);
    case RepeatTape => EnterCarries(s, w, WithoutTheReading(t));
    case TapeNotRight => EnterCarries(s, w, WithoutTheReading(t).(stopFirst := true, homeAnyway := true));
  }

  lemma RunActionCarries(s: State, w: World, a: Action)
    requires !a.Submit? && !ChoosesAPlan(a) && !WalksThePlan(a) && !Do(s, w, a).talk.escaped
    ensures Carries(w, s, Do(s, w, a))
  {
    hide Carries, PressStopped, PressLiftedOff, TimedRun, BeginHoming;
    match a
    case ConfirmClosedAgain => ShowCarries(s, w, s.talk, OpenFullBrief);
    case StartOpening => TimedRunCarries(s, w, OpenBrief);
    case StartFullOpening => TimedRunCarries(s, w, OpenFullBrief);
    case StartClosing => TimedRunCarries(s, w, CloseBrief);
    case LiftedOff => LiftedCarries(s, w);
    case LiftAccept => HomingCarries(s, w, OpenHomeAgain, Close, ToScreen(ClosedAgain));
    case LiftByTape => ShowCarries(s, w, s.talk, LiftGap);
    case StoppedOpen => StoppedCarries(s, w, Open);
    case StoppedClosed => StoppedCarries(s, w, Close);
    case RepeatMeasure => ShowCarries(s, w, s.talk.(measured := WithoutTheTravel(s.talk.measured)), HeightForm);
  }

  lemma DoCarries(s: State, w: World, a: Action)
    requires !a.Submit? && !(a.DoPointsOnly? && w.inUse.None?) && !Do(s, w, a).talk.escaped
    ensures Carries(w, s, Do(s, w, a))
  {
    hide Do, Carries;
    if ChoosesAPlan(a) { PlanActionCarries(s, w, a); }
    else if WalksThePlan(a) { WalkActionCarries(s, w, a); }
    else { RunActionCarries(s, w, a); }
  }

  lemma GapCarries(s: State, w: World, v: Value)
    requires !SubmitGap(s, w, v).talk.escaped
    ensures Carries(w, s, SubmitGap(s, w, v))
  {
    hide BeginHoming;
    var s1 := s.(talk := s.talk.(measured := s.talk.measured.(liftGap := if v.Number? then Some(v.n) else None)));
    if v.Blank? { HomingCarries(s, w, OpenHomeAgain, Close, ToScreen(ClosedAgain)); }
    else if v.Number? && 1.0 <= v.n <= 50.0 { HomingCarries(s1, w, OpenHomeAgain, Close, ToScreen(ClosedAgain)); }
  }

  lemma ReadingCarries(s: State, w: World, v: Value)
    requires IsTapeForm(s.talk.shown.step)
    ensures Carries(w, s, SubmitReading(s, w, v))
  {
    hide Carries, ShowWith, Verified;
    var t := s.talk;
    var step := t.shown.step;
    ScreenCarries(s, w, step, Some(NotANumber), None);
    ScreenCarries(s, w, step, Some(OutOfRange), None);
    ScreenCarries(s, w, step, Some(AboveTheTravel), None);
    if v.Number? {
      VerifiedCarries(s, w, v.n);
      var point := (t.report.GetOr(0.0), v.n);
      if step == MeasureDescent {
        TalkCarries(s, w, t.(measured := t.measured.(descent := t.measured.descent + [point]),
                             aim := t.aim.(tapeTarget := Some(Close))), TapeResult);
      } else {
        TalkCarries(s, w, t.(measured := t.measured.(ascent := t.measured.ascent + [point]),
                             aim := t.aim.(tapeTarget := Some(Open))), TapeResult);
      }
    }
  }

  lemma TalkCarries(s: State, w: World, talk: Talk, step: Screen)
    requires !IsMoving(step)
    ensures Carries(w, s, ShowWith(s.(talk := talk), w, step, None, None))
  {
    hide Patience, WaitsFor, IsMoving;
    PatienceIs(step);
  }

  lemma VerifiedCarries(s: State, w: World, cm: real)
    ensures Carries(w, s, Verified(s, w, cm))
  {
    hide Carries, ShowWith, ShowProblem, GapOfTheCheck;
    ProblemCarries(s, w, BadPoint);
    var gap := GapOfTheCheck(s.talk, w.prediction, cm);
    var fraction := s.talk.aim.pending.GetOr((Close, 0.4)).1;
    var m := s.talk.measured.(deviation := gap, verifyFraction := Some(fraction));
    TalkCarries(s, w, s.talk.(measured := m, aim := s.talk.aim.(tapeTarget := None),
                              check := Some(Check(cm, fraction, gap))), VerifyResult);
  }

  lemma ProfileCarries(s: State, w: World, name: string)
    requires !SubmitProfile(s, w, name).talk.escaped
    ensures Carries(w, s, SubmitProfile(s, w, name))
  {
    hide Enter, Carries, Correcting;
    var t := s.talk;
    if t.choice.path == Some(Refine) { ShowCarries(s, w, Correcting(t, w.ownHeight, name), RefineScope); }
    else {
      EnterCarries(s, w, t.(choice := t.choice.(profile := Some(name)), measured := NOTHING_MEASURED,
                            plan := PLAN_PROFILE, index := Some(0)));
    }
  }

  lemma NameCarries(s: State, w: World, name: string)
    requires !SubmitName(s, w, name).talk.escaped
    ensures Carries(w, s, SubmitName(s, w, name))
  {
    hide Enter, Carries, Index, IsAName;
    var t := s.talk.(choice := s.talk.choice.(name := Some(name)));
    if IsAName(name) { EnterCarries(s, w, t.(index := Some(Index(t) + 1))); }
    else { ScreenCarries(s, w, NameForm, Some(InvalidName), None); }
  }

  lemma HeightCarries(s: State, w: World, v: Value)
    ensures Carries(w, s, SubmitHeight(s, w, v))
  {
    hide Carries, ShowWith;
    ScreenCarries(s, w, HeightForm, Some(NotANumber), None);
    ScreenCarries(s, w, HeightForm, Some(OutOfRange), None);
    if v.Number? {
      TalkCarries(s, w, s.talk.(measured := s.talk.measured.(height := Some(v.n), heightMeasured := true)),
                  HeightResult);
    }
  }

  lemma SubmitCarries(s: State, w: World, field: Field, v: Value)
    requires FormOf(s.talk.shown.step) == Some(field) && !DoSubmit(s, w, field, v).talk.escaped
    ensures Carries(w, s, DoSubmit(s, w, field, v))
  {
    hide SubmitHeight, SubmitGap, SubmitReading, SubmitName, SubmitProfile, Carries;
    match field
    case HeightField => HeightCarries(s, w, v);
    case GapField => GapCarries(s, w, v);
    case ReadingField => ReadingCarries(s, w, v);
    case NameField => NameCarries(s, w, Written(v));
    case ProfileField => ProfileCarries(s, w, Written(v));
  }

  /** The one act that may be carried out and put no screen up: the times in use of a cover that is gone
      from the gateway but still there to be stopped. */
  predicate EndsTheSession(w: World, a: Action) { a.DoPointsOnly? && w.inUse.None? }

  /** An act that passes the guards publishes exactly once, but for a profile nobody defines and for the
      adoption of times that are not there. */
  lemma ActCarries(s: State, w: World, client: string, revision: nat, a: Action, v: Value)
    requires Inv(s) && GuardAct(s, w, client, revision, a).None?
    requires !NamesNoProfile(s.talk, w, a, v) && !EndsTheSession(w, a)
    ensures Carries(w, Taken(s, w, client), Carried(Taken(s, w, client), w, a, v))
  {
    var s1 := Taken(s, w, client);
    OfferedIsIdle(s, w, a);
    TakenKeeps(s, w, client);
    assert a.Submit? ==> FormOf(s1.talk.shown.step).Some?;
    hide Settled, Idle, Over, Do, DoSubmit, Carries, Offered, Taken;
    if a.Submit? {
      SubmitLands(s1, w, v);
      SettledIsSound(Carried(s1, w, a, v));
      SubmitCarries(s1, w, FormOf(s1.talk.shown.step).value, v);
    } else {
      DoLands(s1, w, a);
      SettledIsSound(Carried(s1, w, a, v));
      DoCarries(s1, w, a);
    }
  }
}
