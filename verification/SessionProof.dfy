/** Every turn of the session keeps the invariant. */
module SessionProof {
  import opened Wrappers
  import opened Plans
  import opened Screens
  import opened Session
  import opened SessionInvariant

  // ---------------------------------------------------------------- plans under change

  lemma {:induction false} FittedOfPrefix(p: seq<Stage>, q: seq<Stage>, d: Direction, n: nat)
    requires n <= |p| && n <= |q| && forall i :: 0 <= i < n ==> p[i] == q[i]
    ensures Fitted(p, d, n) == Fitted(q, d, n)
  {
    if n > 0 { FittedOfPrefix(p, q, d, n - 1); }
  }

  lemma {:induction false} NothingFitted(plan: seq<Stage>, d: Direction, n: nat)
    requires n <= |plan| && NothingToFit(plan)
    ensures Fitted(plan, d, n) == 0
  {
    if n > 0 { NothingFitted(plan, d, n - 1); }
  }

  lemma {:induction false} OrderOfTape(phase: seq<Stage>, at: Option<Direction>)
    requires forall i :: 0 <= i < |phase| ==> phase[i] != Summary
    ensures forall i :: 0 <= i < |phase| ==> OrderOf(phase, at)[i] != Summary
    ensures (forall i :: 0 <= i < |phase| ==> !Movable(phase[i]))
            ==> forall i :: 0 <= i < |phase| ==> !Movable(OrderOf(phase, at)[i])
  {
    OrderIsAPromotion(phase, at);
  }

  lemma {:induction false} ReorderedAt(plan: seq<Stage>, start: nat, at: Option<Direction>, i: nat)
    requires start <= |plan| && i < |plan|
    ensures |Reordered(plan, start, at)| == |plan|
    ensures i < start ==> Reordered(plan, start, at)[i] == plan[i]
    ensures Reordered(plan, start, at)[i] == Summary <==> plan[i] == Summary
    ensures NothingToFit(plan) ==> !Movable(Reordered(plan, start, at)[i])
  {
    hide OrderOf, TapePhase;
    var phase := TapePhase(plan, start);
    forall j | 0 <= j < |phase| ensures phase[j] != Summary && phase[j] == plan[start + j] {}
    OrderOfTape(phase, at);
    if start <= i < start + |phase| {
      assert phase[i - start] == plan[i];
      assert Reordered(plan, start, at)[i] == OrderOf(phase, at)[i - start];
    } else {
      assert Reordered(plan, start, at)[i] == plan[i];
    }
  }

  /** Dealing the readings out again moves no stage before them and no summary, and fits nothing new. */
  lemma {:induction false} ReorderingKeeps(plan: seq<Stage>, start: nat, at: Option<Direction>)
    requires WellFormed(plan) && 0 < start <= |plan|
    ensures var p := Reordered(plan, start, at);
            |p| == |plan| && WellFormed(p) && (forall i :: 0 <= i < start ==> p[i] == plan[i])
            && (NothingToFit(plan) ==> NothingToFit(p))
  {
    hide Reordered;
    ReorderedAt(plan, start, at, 0);
    var p := Reordered(plan, start, at);
    forall i | 0 <= i < |plan|
      ensures (p[i] == Summary <==> plan[i] == Summary) && (NothingToFit(plan) ==> !Movable(p[i]))
              && (i < start ==> p[i] == plan[i])
    {
      ReorderedAt(plan, start, at, i);
    }
  }

  lemma {:induction false} GraftKeeps(plan: seq<Stage>, index: nat)
    requires WellFormed(plan) && index < |plan| - 1
    ensures var p := Grafted(plan, index);
            |p| == |plan| + 1 && WellFormed(p) && p[index + 1] == VerifyB
            && (forall i :: 0 <= i <= index ==> p[i] == plan[i])
            && (NothingToFit(plan) ==> NothingToFit(p))
  {
    var p := Grafted(plan, index);
    assert forall i :: 0 <= i < |p| ==>
      p[i] == if i <= index then plan[i] else if i == index + 1 then VerifyB else plan[i - 1];
  }

  lemma {:induction false} TailKeeps(plan: seq<Stage>, index: nat, tail: seq<Stage>)
    requires WellFormed(plan) && index == |plan| - 1 && WellFormed(tail)
    ensures var p := plan[..index] + tail;
            WellFormed(p) && |p| == index + |tail| && p[index] == tail[0]
            && (forall i :: 0 <= i < index ==> p[i] == plan[i])
  {
    var p := plan[..index] + tail;
    assert forall i :: 0 <= i < |p| ==> p[i] == if i < index then plan[i] else tail[i - index];
  }

  lemma ThePlans()
    ensures WellFormed(PLAN_FULL) && WellFormed(PLAN_PRECISE) && WellFormed(PLAN_PRECISE_TRAVEL)
    ensures WellFormed(PLAN_PROFILE) && WellFormed(PLAN_TIMES) && WellFormed(PLAN_TIMES_AND_ROLLS)
    ensures NothingToFit(PLAN_PROFILE)
  {
  }

  // ---------------------------------------------------------------- conversations on one stage

  /** What a conversation shares with one that shows another screen of its stage. */
  predicate SameStage(t: Talk, t1: Talk) {
    && t1.plan == t.plan && t1.index == t.index && t1.choice == t.choice && t1.escaped == t.escaped
    && t1.stopFirst == t.stopFirst
    && |t1.measured.descent| == |t.measured.descent| && |t1.measured.ascent| == |t.measured.ascent|
  }

  lemma ReadyFrom(t: Talk, t1: Talk, step: Screen)
    requires TalkKept(t) && OnPlan(t) && SameStage(t, t1) && !t.shown.step.TapeResult?
    requires Sits(step, t.plan[t.index.value])
    requires OnAReading(step) || step.VerifyResult? ==> t1.aim.tapeTarget == None
    requires OnAReading(step) ==> AimedAt(t1.aim, t.plan[t.index.value])
    requires t.stopFirst ==> (step.Positioning? || step.Problem?) && HomesFirst(t.plan[t.index.value])
    ensures Ready(t1, step)
  {
    hide Fitted, NothingToFit, WellFormed, Sits, OnAReading, AimedAt, HomesFirst, AimKept, ModeOf;
  }

  lemma ReadyAlso(t: Talk, t1: Talk, step: Screen, step1: Screen)
    requires Ready(t, step) && SameStage(t, t1) && Sits(step1, t.plan[t.index.value])
    requires OnAReading(step1) || step1.VerifyResult? ==> t1.aim.tapeTarget == None
    requires OnAReading(step1) ==> AimedAt(t1.aim, t.plan[t.index.value])
    requires t.stopFirst ==> (step1.Positioning? || step1.Problem?) && HomesFirst(t.plan[t.index.value])
    ensures Ready(t1, step1)
  {
    hide Fitted, NothingToFit, WellFormed, Sits, OnAReading, AimedAt, HomesFirst;
  }

  // ---------------------------------------------------------------- stages

  lemma RunLands(s: State, w: World)
    requires Idle(s) && Ready(s.talk, TapeRun) && s.place.at == Some(OtherEnd(s.talk.aim.pending.value.0))
    ensures Settled(BeginTheRun(s, w))
  {
    var (direction, fraction) := s.talk.aim.pending.value;
    hide Idle, Settled, Fitted, NothingToFit, WellFormed;
    MovementLands(s, w, TapeRun, Fraction, direction, RunTo(direction, fraction), ToScreen(s.talk.aim.form), None);
  }

  lemma RestedIsIdle(s: State)
    requires Idle(s)
    ensures Idle(Rested(s)) && Rested(s).engine.movement == None && Rested(s).engine.press == None
  {
  }

  lemma SkipIsReady(t: Talk, stage: Stage)
    requires Ready(t, Positioning(stage)) && t.plan[t.index.value] == stage && !t.stopFirst
    ensures HomingNext(stage).ToTheRun?
            ==> Ready(t.(externalMove := false), TapeRun) && HomingEnd(stage) == OtherEnd(t.aim.pending.value.0)
    ensures HomingNext(stage).ToScreen? ==> Ready(t.(externalMove := false), HomingNext(stage).screen)
  {
    hide Fitted, NothingToFit, WellFormed, Ready, AimedAt;
    var t1 := t.(externalMove := false);
    AimOfReady(t, stage);
    if HomingNext(stage).ToTheRun? { ReadyAlso(t, t1, Positioning(stage), TapeRun); }
    else { ReadyAlso(t, t1, Positioning(stage), HomingNext(stage).screen); }
  }

  lemma AimOfReady(t: Talk, stage: Stage)
    requires Ready(t, Positioning(stage)) && t.plan[t.index.value] == stage
    ensures OnPlan(t) && HomesFirst(stage)
    ensures IsReading(stage) ==> t.aim.tapeTarget == None && AimedAt(t.aim, stage)
                                 && t.aim.pending.Some? && t.aim.pending.value.0 == RunDirection(stage)
  {
    hide Fitted, NothingToFit, WellFormed;
  }

  lemma HandOverLands(s: State, w: World, stage: Stage)
    requires Idle(s) && s.engine.movement == None && s.engine.press == None && HomesFirst(stage)
    requires HomingNext(stage).ToTheRun?
             ==> Ready(s.talk, TapeRun) && s.place.at == Some(OtherEnd(s.talk.aim.pending.value.0))
    requires HomingNext(stage).ToScreen? ==> Ready(s.talk, HomingNext(stage).screen)
    ensures Settled(Goto(s, w, HomingNext(stage), None))
  {
    hide Idle, Settled, Ready;
    if HomingNext(stage).ToTheRun? { RunLands(s, w); } else { ScreenLands(s, w, HomingNext(stage).screen, None, None); }
  }

  /** A stage's homing leaves the session well kept, whether it is made or skipped. */
  lemma HomingLands(s: State, w: World, stage: Stage)
    requires Idle(s) && Ready(s.talk, Positioning(stage)) && s.talk.plan[s.talk.index.value] == stage
    requires s.talk.stopFirst ==> s.talk.homeAnyway
    ensures Settled(BeginHoming(s, w, Positioning(stage), HomingEnd(stage), HomingNext(stage)))
  {
    var d := HomingEnd(stage);
    if s.place.at == Some(d) && !s.talk.homeAnyway {
      SkipIsReady(s.talk, stage);
      RestedIsIdle(s);
      hide Idle, Settled, Ready;
      HandOverLands(Rested(s), w, stage);
    } else {
      var s1 := s.(talk := s.talk.(homeAnyway := false));
      assert Ready(s1.talk, Positioning(stage));
      assert Idle(s1);
      hide Idle, Settled, Ready;
      MovementLands(s1, w, Positioning(stage), Homing, d, Home(d), HomingNext(stage), None);
    }
  }

  /** What a stage may be entered with. */
  ghost predicate MayEnter(t: Talk, e: Engine) {
    && !t.escaped && OnPlan(t) && WellFormed(t.plan) && t.choice.path.Some?
    && (t.choice.path == Some(Profile) ==> NothingToFit(t.plan))
    && (t.choice.path == Some(First) ==> t.choice.profile == None)
    && |t.measured.descent| == Fitted(t.plan, Close, t.index.value)
    && |t.measured.ascent| == Fitted(t.plan, Open, t.index.value)
    && (t.stopFirst ==> t.homeAnyway && HomesFirst(t.plan[t.index.value]))
    && (e.movement.Some? || e.press.Some? ==> IsTimed(t.plan[t.index.value]))
  }

  lemma FractionStageLands(s: State, w: World, stage: Stage, fraction: real)
    requires Idle(s) && MayEnter(s.talk, s.engine) && s.talk.plan[s.talk.index.value] == stage && IsReading(stage)
    requires RunsFor(stage, (RunDirection(stage), fraction))
    ensures Settled(FractionStage(s, w, stage, fraction))
  {
    hide TasksKept, NoLiveJob, TrustKept, LifeKept, BeginHoming, TalkKept, MovingKept, JobsKept, Fitted, NothingToFit,
      WellFormed;
    var direction := RunDirection(stage);
    var talk := s.talk.(aim := Aim(None, Some((direction, fraction)), stage == VerifyB, FormAfter(stage)),
                        check := None);
    ReadyToAim(s.talk, talk, s.engine, stage);
    var s1 := s.(talk := talk);
    assert Idle(s1);
    hide Idle, Settled, Ready, MayEnter;
    HomingLands(s1, w, stage);
  }

  lemma ReadyToAim(t: Talk, t1: Talk, e: Engine, stage: Stage)
    requires MayEnter(t, e) && t.plan[t.index.value] == stage && IsReading(stage)
    requires t1 == t.(aim := t1.aim, check := None) && AimedAt(t1.aim, stage) && t1.aim.tapeTarget == None
    ensures Ready(t1, Positioning(stage)) && (t1.stopFirst ==> t1.homeAnyway)
  {
    hide Fitted, NothingToFit, WellFormed;
  }

  lemma SummaryTalk(t: Talk, e: Engine, content: int)
    requires MayEnter(t, e) && t.plan[t.index.value] == Summary
    ensures var v := VariantOf(t);
            TalkKept(t.(review := Some(Card(v, content)), shown := Shown(Summing(v), None, None, None)))
    ensures e.movement == None && e.press == None
  {
    hide Fitted, NothingToFit, WellFormed;
  }

  lemma SummaryLands(s: State, w: World)
    requires Idle(s) && MayEnter(s.talk, s.engine) && s.talk.plan[s.talk.index.value] == Summary && w.summary.Some?
    ensures Settled(EnterStage(s, w, Summary))
  {
    var variant := VariantOf(s.talk);
    var talk := s.talk.(review := Some(Card(variant, w.summary.value)));
    var shown := Shown(Summing(variant), None, None, None);
    SummaryTalk(s.talk, s.engine, w.summary.value);
    IdleJobs(talk.(shown := shown), s.engine, s.place.at);
    hide TasksKept, TrustKept, TalkKept, JobsKept, MayEnter;
    PutLands(s.(talk := talk), w, talk, shown);
  }

  lemma TapeBriefTalk(t: Talk, e: Engine, at: Option<Direction>)
    requires MayEnter(t, e) && t.plan[t.index.value] == TapeBrief
    ensures Ready(t.(plan := Reordered(t.plan, t.index.value + 1, at)), TapeBriefing)
    ensures e.movement == None && e.press == None
  {
    hide Fitted, NothingToFit, WellFormed, Reordered;
    var i := t.index.value;
    var plan := Reordered(t.plan, i + 1, at);
    ReorderingKeeps(t.plan, i + 1, at);
    FittedOfPrefix(plan, t.plan, Close, i);
    FittedOfPrefix(plan, t.plan, Open, i);
    assert plan[i] == TapeBrief;
  }

  lemma TapeBriefLands(s: State, w: World)
    requires Idle(s) && MayEnter(s.talk, s.engine) && s.talk.plan[s.talk.index.value] == TapeBrief
    ensures Settled(EnterStage(s, w, TapeBrief))
  {
    hide TasksKept, TrustKept, LifeKept, NoLiveJob, Fitted, NothingToFit, WellFormed, Reordered;
    TapeBriefTalk(s.talk, s.engine, s.place.at);
    var s1 := s.(talk := s.talk.(plan := Reordered(s.talk.plan, s.talk.index.value + 1, s.place.at)));
    assert Idle(s1);
    assert OnPlan(s.talk);
    hide Idle, Settled, Ready, MayEnter, Reordered;
    ScreenLands(s1, w, TapeBriefing, None, None);
  }

  lemma StageIsReady(t: Talk, e: Engine, step: Screen)
    requires MayEnter(t, e) && Sits(step, t.plan[t.index.value]) && !OnAReading(step) && !step.VerifyResult?
    requires t.stopFirst ==> step.Positioning? || step.Problem?
    ensures Ready(t, step)
  {
    hide Fitted, NothingToFit, WellFormed;
  }

  lemma PlainScreenLands(s: State, w: World, step: Screen)
    requires Idle(s) && MayEnter(s.talk, s.engine) && Sits(step, s.talk.plan[s.talk.index.value])
    requires step.VerifyOffering? || step.NameForm?
    ensures Settled(Show(s, w, step))
  {
    StageIsReady(s.talk, s.engine, step);
    assert s.engine.movement == None && s.engine.press == None;
    hide Idle, Settled, Ready, MayEnter;
    ScreenLands(s, w, step, None, None);
  }

  lemma BadStageLands(s: State, w: World)
    requires Idle(s) && MayEnter(s.talk, s.engine) && !IsTimed(s.talk.plan[s.talk.index.value])
    ensures Settled(ShowProblem(s, w, BadPoint))
  {
    StageIsReady(s.talk, s.engine, Problem(CodeOf(BadPoint)));
    assert s.engine.movement == None && s.engine.press == None;
    hide Idle, Settled, Ready, MayEnter;
    ProblemLands(s, w, BadPoint);
  }

  lemma TimedStageLands(s: State, w: World, stage: Stage)
    requires Idle(s) && MayEnter(s.talk, s.engine) && s.talk.plan[s.talk.index.value] == stage
    requires HomesFirst(stage) && !IsReading(stage)
    ensures Settled(EnterStage(s, w, stage))
  {
    var talk := if stage.OpenTimed? then WithoutTheAscent(s.talk)
                else if stage.HeightRead? && s.talk.stopFirst
                then s.talk.(measured := WithoutTheTravel(s.talk.measured))
                else s.talk;
    assert MayEnter(talk, s.engine) by { hide Fitted, NothingToFit, WellFormed; }
    StageIsReady(talk, s.engine, Positioning(stage));
    assert talk.stopFirst ==> talk.homeAnyway;
    var s1 := s.(talk := talk);
    assert Idle(s1);
    hide Idle, Settled, Ready, MayEnter;
    HomingLands(s1, w, stage);
  }

  lemma StageLands(s: State, w: World)
    requires Idle(s) && MayEnter(s.talk, s.engine)
    ensures Settled(EnterStage(s, w, s.talk.plan[s.talk.index.value]))
  {
    var stage := s.talk.plan[s.talk.index.value];
    hide Idle, Settled, BeginHoming, Reordered, VariantOf, WithoutTheAscent, WithoutTheTravel, WellFormed, NothingToFit,
      Fitted, Show, ShowProblem;
    match stage
    case HomeClosed | OpenTimed | HeightRead | CloseTimed => TimedStageLands(s, w, stage);
    case TapeBrief => TapeBriefLands(s, w);
    case VerifyOffer => PlainScreenLands(s, w, VerifyOffering);
    case ProfileName => PlainScreenLands(s, w, NameForm);
    case Summary => if w.summary.Some? { SummaryLands(s, w); } else { BadStageLands(s, w); }
    case VerifyB =>
      if w.halfTravel.Some? { FractionStageLands(s, w, stage, w.halfTravel.value); } else { BadStageLands(s, w); }
    case _ => FractionStageLands(s, w, stage, FractionOf(stage));
  }

  /** A stage entered from a kept conversation leaves a kept session, and never falls off the plan. */
  lemma EnterLands(s: State, w: World, talk: Talk)
    requires Idle(s) && MayEnter(talk, s.engine)
    ensures Settled(EnterWith(s, w, talk))
  {
    var t := talk.(error := None, report := None, review := None);
    assert MayEnter(t, s.engine) by { hide Fitted, NothingToFit, WellFormed; }
    var s1 := s.(talk := t);
    assert Idle(s1);
    assert OnPlan(talk);
    hide Idle, Settled, MayEnter;
    StageLands(s1, w);
  }

  // ---------------------------------------------------------------- what an action starts from

  /** A screen that offers something has no live job behind it. */
  lemma OfferedIsIdle(s: State, w: World, action: Action)
    requires Settled(s) && Offered(s.talk, w, action)
    ensures Idle(s)
  {
    hide RunsFromEndStops, Fitted, NothingToFit, WellFormed, PlanKept, PathKept, ReadingsKept;
    assert !IsMoving(s.talk.shown.step) by {
      if IsMoving(s.talk.shown.step) { MovingOrPress(s.talk.shown.step); }
    }
  }

  /** Nothing moves behind a screen that is neither a movement's nor a press's nor a problem's. */
  lemma StillScreen(t: Talk, e: Engine)
    requires MovingKept(t, e) && !IsMoving(t.shown.step) && !IsPress(t.shown.step) && !t.shown.step.Problem?
    ensures e.movement == None && e.press == None
  {
  }

  lemma AdvanceReadings(t: Talk)
    requires PlanKept(t) && ReadingsKept(t) && OnPlan(t) && !t.plan[t.index.value].Summary?
    requires t.shown.step.TapeResult? || !Movable(t.plan[t.index.value])
    ensures t.index.value + 1 < |t.plan|
    ensures |t.measured.descent| == Fitted(t.plan, Close, t.index.value + 1)
    ensures |t.measured.ascent| == Fitted(t.plan, Open, t.index.value + 1)
  {
  }

  lemma AdvanceTalk(t: Talk, e: Engine)
    requires TalkKept(t) && MovingKept(t, e) && OnPlan(t) && !t.plan[t.index.value].Summary?
    requires t.shown.step.TapeResult? || !Movable(t.plan[t.index.value])
    requires ModeOf(t.shown.step).Briefing? || ModeOf(t.shown.step).Checking?
    requires !t.shown.step.Problem?
    ensures MayEnter(t.(index := Some(t.index.value + 1)), e)
  {
    hide NothingToFit, Fitted, WellFormed;
    AdvanceReadings(t);
    StillScreen(t, e);
  }

  lemma AdvanceLands(s: State, w: World)
    requires Settled(s) && Idle(s) && OnPlan(s.talk) && !s.talk.plan[s.talk.index.value].Summary?
    requires s.talk.shown.step.TapeResult? || !Movable(s.talk.plan[s.talk.index.value])
    requires ModeOf(s.talk.shown.step).Briefing? || ModeOf(s.talk.shown.step).Checking?
    requires !s.talk.shown.step.Problem?
    ensures Settled(Advance(s, w))
  {
    hide TalkKept, MovingKept, JobsKept, TasksKept, TrustKept, LifeKept, NoLiveJob, Ready, MayEnter;
    hide EnterWith, Grafted;
    AdvanceTalk(s.talk, s.engine);
    EnterLands(s, w, s.talk.(index := Some(s.talk.index.value + 1)));
  }

  /** Accepting what is on the screen of a stage moves on to the next one. */
  lemma AcceptLands(s: State, w: World, action: Action)
    requires Settled(s) && Idle(s) && s.talk.shown.notice != Some(ReadingStale)
    requires action.ConfirmClosed? || action.AcceptStep? || action.StartTape? || action.SkipVerify?
    requires Offers(s.talk.shown.step, action)
    ensures Settled(Do(s, w, action))
  {
    hide TalkKept, MovingKept, JobsKept, TasksKept, TrustKept, LifeKept, NoLiveJob, Ready, MayEnter;
    hide EnterWith, Advance;
    AcceptScreen(s.talk, action);
    AdvanceLands(s, w);
  }

  lemma AcceptScreen(t: Talk, action: Action)
    requires TalkKept(t) && Offers(t.shown.step, action)
    requires action.ConfirmClosed? || action.AcceptStep? || action.StartTape? || action.SkipVerify? || action.VerifyNow?
    ensures OnPlan(t) && !t.plan[t.index.value].Summary? && !t.shown.step.Problem?
    ensures t.shown.step.TapeResult? || !Movable(t.plan[t.index.value])
    ensures ModeOf(t.shown.step).Briefing? || ModeOf(t.shown.step).Checking?
  {
    hide NothingToFit, Fitted, PathKept, AimKept, ReadingsKept;
  }

  lemma GraftTalk(t: Talk)
    requires TalkKept(t) && OnPlan(t) && t.shown.step.VerifyOffering?
    ensures TalkKept(t.(plan := Grafted(t.plan, t.index.value))) && t.index.value + 1 < |t.plan|
    ensures OnPlan(t.(plan := Grafted(t.plan, t.index.value)))
    ensures Grafted(t.plan, t.index.value)[t.index.value] == t.plan[t.index.value] == VerifyOffer
  {
    var i := t.index.value;
    assert i < |t.plan| - 1;
    GraftKeeps(t.plan, i);
    var p := Grafted(t.plan, i);
    FittedOfPrefix(p, t.plan, Close, i);
    FittedOfPrefix(p, t.plan, Open, i);
    hide Fitted, Grafted, WellFormed, NothingToFit;
  }

  lemma GraftMoves(t: Talk, e: Engine)
    requires MovingKept(t, e) && t.shown.step.VerifyOffering?
    ensures MovingKept(t.(plan := Grafted(t.plan, Index(t))), e)
  {
  }

  lemma VerifyNowLands(s: State, w: World)
    requires Settled(s) && Idle(s) && s.talk.shown.step.VerifyOffering?
    ensures Settled(Do(s, w, VerifyNow))
  {
    hide TalkKept, MovingKept, JobsKept, TasksKept, TrustKept, LifeKept, NoLiveJob, Ready, MayEnter;
    hide EnterWith, Grafted;
    AcceptScreen(s.talk, VerifyNow);
    GraftTalk(s.talk);
    var talk := s.talk.(plan := Grafted(s.talk.plan, Index(s.talk)));
    StillScreen(s.talk, s.engine);
    GraftMoves(s.talk, s.engine);
    AdvanceTalk(talk, s.engine);
    EnterLands(s.(talk := talk), w, talk.(index := Some(talk.index.value + 1)));
  }

  // ---------------------------------------------------------------- the stage again

  lemma AgainTalk(t: Talk, e: Engine, t1: Talk)
    requires TalkKept(t) && MovingKept(t, e) && OnPlan(t)
    requires t1 == t.(measured := t1.measured, stopFirst := t1.stopFirst, homeAnyway := t1.homeAnyway)
    requires |t1.measured.descent| == |t.measured.descent| - Extra(t, Close)
    requires |t1.measured.ascent| == |t.measured.ascent| - Extra(t, Open)
    requires t1.stopFirst ==> t1.homeAnyway && HomesFirst(t.plan[t.index.value])
    requires !t.shown.step.Positioning?
    requires IsMoving(t.shown.step) ==> IsTimed(t.plan[t.index.value])
    ensures MayEnter(t1, e)
  {
    hide Fitted, NothingToFit, WellFormed;
  }

  lemma AgainLands(s: State, w: World, talk: Talk)
    requires Settled(s) && Idle(s) && OnPlan(s.talk)
    requires talk == s.talk.(measured := talk.measured, stopFirst := talk.stopFirst, homeAnyway := talk.homeAnyway)
    requires |talk.measured.descent| == |s.talk.measured.descent| - Extra(s.talk, Close)
    requires |talk.measured.ascent| == |s.talk.measured.ascent| - Extra(s.talk, Open)
    requires talk.stopFirst ==> talk.homeAnyway && HomesFirst(s.talk.plan[s.talk.index.value])
    requires !IsMoving(s.talk.shown.step)
    ensures Settled(EnterWith(s, w, talk))
  {
    hide TalkKept, MovingKept, JobsKept, TasksKept, TrustKept, LifeKept, NoLiveJob, Ready, MayEnter;
    hide EnterWith, Grafted;
    AgainTalk(s.talk, s.engine, talk);
    EnterLands(s, w, talk);
  }

  /** What the screens that repeat a stage have in common. */
  lemma AgainScreen(t: Talk, action: Action)
    requires TalkKept(t) && Offers(t.shown.step, action)
    requires action.RepeatStep? || action.NotRight? || action.LiftTooEarly?
    requires t.shown.step.Problem? ==> OnPlan(t)
    ensures OnPlan(t) && !IsMoving(t.shown.step) && !t.shown.step.TapeResult?
    ensures action.NotRight? ==> HomesFirst(t.plan[t.index.value])
    ensures t.stopFirst ==> action.RepeatStep? && HomesFirst(t.plan[t.index.value])
  {
    hide NothingToFit, Fitted, PathKept, ReadingsKept, WellFormed;
  }

  lemma ProblemIsOnPlan(t: Talk)
    requires TalkKept(t) && t.shown.step.Problem?
    ensures OnPlan(t)
  {
    hide NothingToFit, Fitted, PathKept, ReadingsKept, WellFormed, AimKept;
  }

  lemma RepeatLands(s: State, w: World, action: Action)
    requires Settled(s) && Idle(s) && Offers(s.talk.shown.step, action)
    requires action.RepeatStep? || action.NotRight? || action.LiftTooEarly?
    ensures Settled(Do(s, w, action))
  {
    hide TalkKept, MovingKept, JobsKept, TasksKept, TrustKept, LifeKept, NoLiveJob, Ready, MayEnter;
    hide Enter;
    if s.talk.shown.step.Problem? { ProblemIsOnPlan(s.talk); }
    AgainScreen(s.talk, action);
    var talk := if action.RepeatStep? then s.talk.(homeAnyway := true)
                else if action.NotRight? then s.talk.(stopFirst := true, homeAnyway := true) else s.talk;
    assert EnterWith(s, w, s.talk) == Enter(s, w);
    AgainLands(s, w, talk);
  }

  lemma TapeAgainScreen(t: Talk)
    requires TalkKept(t)
    requires t.shown.step.TapeResult? || t.shown.step.VerifyResult? || IsTapeForm(t.shown.step)
    ensures OnPlan(t) && HomesFirst(t.plan[t.index.value]) && !t.stopFirst
    ensures var m := WithoutTheReading(t).measured;
            |m.descent| == |t.measured.descent| - Extra(t, Close) && |m.ascent| == |t.measured.ascent| - Extra(t, Open)
    ensures WithoutTheReading(t) == t.(measured := WithoutTheReading(t).measured)
  {
    hide NothingToFit, PathKept, WellFormed;
  }

  lemma TapeAgainLands(s: State, w: World, action: Action)
    requires Settled(s) && Idle(s) && (action.RepeatTape? || action.TapeNotRight?)
    requires s.talk.shown.step.TapeResult? || s.talk.shown.step.VerifyResult? || IsTapeForm(s.talk.shown.step)
    ensures Settled(Do(s, w, action))
  {
    hide TalkKept, MovingKept, JobsKept, TasksKept, TrustKept, LifeKept, NoLiveJob, Ready, MayEnter, Settled, Idle,
      EnterWith, WithoutTheReading, Extra;
    SettledHas(s);
    TapeAgainScreen(s.talk);
    var talk := if action.RepeatTape? then WithoutTheReading(s.talk)
                else WithoutTheReading(s.talk).(stopFirst := true, homeAnyway := true);
    AgainLands(s, w, talk);
  }

  // ---------------------------------------------------------------- plans started

  /** What a whole plan may be started from: a screen before any plan, or the scope of a correction. */
  lemma StartTalk(t: Talk, e: Engine, t1: Talk, plan: seq<Stage>)
    requires TalkKept(t) && MovingKept(t, e) && WellFormed(plan) && plan != []
    requires t.shown.step.PathAWarning? || t.shown.step.RefineScope? || t.shown.step.PathBForm?
    requires t1 == t.(choice := t1.choice, measured := t1.measured)
    requires t1.measured.descent == [] && t1.measured.ascent == []
    requires t1.choice.path.Some? && (t1.choice.path == Some(Profile) ==> NothingToFit(plan))
    requires t1.choice.path == Some(First) ==> t1.choice.profile == None
    ensures MayEnter(t1.(plan := plan, index := Some(0)), e)
  {
    hide NothingToFit;
    StillScreen(t, e);
  }

  lemma StartLands(s: State, w: World, t1: Talk, plan: seq<Stage>)
    requires Settled(s) && Idle(s) && WellFormed(plan) && plan != []
    requires s.talk.shown.step.PathAWarning? || s.talk.shown.step.RefineScope? || s.talk.shown.step.PathBForm?
    requires t1 == s.talk.(choice := t1.choice, measured := t1.measured)
    requires t1.measured.descent == [] && t1.measured.ascent == []
    requires t1.choice.path.Some? && (t1.choice.path == Some(Profile) ==> NothingToFit(plan))
    requires t1.choice.path == Some(First) ==> t1.choice.profile == None
    ensures Settled(StartPlan(s, w, t1, plan))
  {
    hide TalkKept, MovingKept, JobsKept, TasksKept, TrustKept, LifeKept, NoLiveJob, Ready, MayEnter;
    hide EnterWith;
    StartTalk(s.talk, s.engine, t1, plan);
    EnterLands(s, w, t1.(plan := plan, index := Some(0)));
  }

  lemma BeginLands(s: State, w: World)
    requires Settled(s) && Idle(s) && s.talk.shown.step.PathAWarning?
    ensures Settled(Do(s, w, Begin))
  {
    assert s.talk.choice.profile == None by { hide Fitted, NothingToFit, WellFormed; }
    ThePlans();
    hide TalkKept, MovingKept, JobsKept, TasksKept, TrustKept, LifeKept, NoLiveJob, Ready, MayEnter;
    hide StartPlan, NothingToFit, WellFormed;
    StartLands(s, w, Chose(s.talk, First).(measured := NOTHING_MEASURED), PLAN_FULL);
  }

  lemma ScopeReadings(t: Talk)
    requires TalkKept(t) && t.shown.step.RefineScope?
    ensures t.measured.descent == [] && t.measured.ascent == [] && t.choice.path == Some(Refine)
  {
    if OnPlan(t) {
      NothingFitted(t.plan, Close, t.index.value);
      NothingFitted(t.plan, Open, t.index.value);
    }
    hide Fitted;
  }

  lemma ScopeLands(s: State, w: World, action: Action)
    requires Settled(s) && Idle(s) && s.talk.shown.step.RefineScope? && (action.DoTimesOnly? || action.DoTimesAndRolls?)
    ensures Settled(Do(s, w, action))
  {
    ScopeReadings(s.talk);
    ThePlans();
    hide TalkKept, MovingKept, JobsKept, TasksKept, TrustKept, LifeKept, NoLiveJob, Ready, MayEnter;
    hide StartPlan, NothingToFit, WellFormed;
    if action.DoTimesOnly? { StartLands(s, w, Scoped(s.talk, TimesOnly), PLAN_TIMES); }
    else { StartLands(s, w, Scoped(s.talk, TimesAndRolls), PLAN_TIMES_AND_ROLLS); }
  }

  lemma AdoptLands(s: State, w: World)
    requires Settled(s) && Idle(s) && s.talk.shown.step.RefineScope? && w.inUse.Some?
    ensures Settled(AdoptTheTimes(s, w))
  {
    ScopeReadings(s.talk);
    ThePlans();
    var u := w.inUse.value;
    var talk := Scoped(s.talk, PointsOnly);
    var m := talk.measured.(opening := Some(Timing(Some(u.slat), u.opening)),
                            closing := Some(Timing(None, u.closing)), timesAdopted := true);
    hide TalkKept, MovingKept, JobsKept, TasksKept, TrustKept, LifeKept, NoLiveJob, Ready, MayEnter;
    hide StartPlan, NothingToFit, WellFormed;
    StartLands(s, w, talk.(measured := m.(precise := true)),
               if HeightKnown(m) then PLAN_PRECISE else PLAN_PRECISE_TRAVEL);
  }

  lemma ThoroughTalk(t: Talk, e: Engine, plan: seq<Stage>)
    requires TalkKept(t) && MovingKept(t, e) && WellFormed(plan)
    requires t.shown.step == Summing(Basic) || t.shown.step == Summing(Correction)
    ensures MayEnter(t.(measured := t.measured.(precise := true), plan := t.plan[..Least(Index(t), |t.plan|)] + plan),
                     e)
  {
    hide Fitted, NothingToFit, MovingKept;
    var i := t.index.value;
    assert i == |t.plan| - 1;
    TailKeeps(t.plan, i, plan);
    hide WellFormed;
    var p := t.plan[..i] + plan;
    FittedOfPrefix(p, t.plan, Close, i);
    FittedOfPrefix(p, t.plan, Open, i);
    StillScreen(t, e);
  }

  lemma ThoroughLands(s: State, w: World)
    requires Settled(s) && Idle(s)
    requires s.talk.shown.step == Summing(Basic) || s.talk.shown.step == Summing(Correction)
    ensures Settled(Do(s, w, GoThorough))
  {
    hide TalkKept, MovingKept, JobsKept, TasksKept, TrustKept, LifeKept, NoLiveJob, Ready, MayEnter;
    hide EnterWith, WellFormed, Index, Least;
    ThePlans();
    var plan := if HeightKnown(s.talk.measured) then PLAN_PRECISE else PLAN_PRECISE_TRAVEL;
    ThoroughTalk(s.talk, s.engine, plan);
    EnterLands(s, w, s.talk.(measured := s.talk.measured.(precise := true),
                             plan := s.talk.plan[..Least(Index(s.talk), |s.talk.plan|)] + plan));
  }

  // ---------------------------------------------------------------- screens of the same stage

  /** Another screen of the stage at the index. */
  lemma SameStageTalk(t: Talk, e: Engine, t1: Talk, step: Screen)
    requires TalkKept(t) && MovingKept(t, e) && OnPlan(t) && Sits(step, t.plan[t.index.value])
    requires t1 == t.(measured := t1.measured)
    requires t1.measured.descent == t.measured.descent && t1.measured.ascent == t.measured.ascent
    requires !t.shown.step.TapeResult? && !t.shown.step.Problem? && !IsMoving(t.shown.step) && !IsPress(t.shown.step)
    requires !OnAReading(step) && !step.VerifyResult?
    ensures Ready(t1, step) && !t1.stopFirst && e.movement == None && e.press == None
  {
    hide TalkKept, MovingKept, Ready, IsMoving, IsPress, Sits, OnAReading;
    StillScreen(t, e);
    NoStopOwed(t);
    ReadyFrom(t, t1, step);
  }

  lemma NoStopOwed(t: Talk)
    requires TalkKept(t) && !t.shown.step.Problem? && !IsMoving(t.shown.step)
    ensures !t.stopFirst
  {
    hide PlanKept, PathKept, ReadingsKept;
  }

  lemma SameStageLands(s: State, w: World, t1: Talk, step: Screen, error: Option<FormError>)
    requires Settled(s) && Idle(s) && OnPlan(s.talk) && Sits(step, s.talk.plan[s.talk.index.value])
    requires t1 == s.talk.(measured := t1.measured)
    requires t1.measured.descent == s.talk.measured.descent && t1.measured.ascent == s.talk.measured.ascent
    requires var now := s.talk.shown.step;
             !now.TapeResult? && !now.Problem? && !IsMoving(now) && !IsPress(now)
    requires !OnAReading(step) && !step.VerifyResult? && !IsMoving(step) && !IsPress(step) && !step.Problem?
             && !step.TapeResult? && !step.Summing? && !step.PathCForm? && !step.RefineScope?
    ensures Settled(ShowWith(s.(talk := t1), w, step, error, None))
  {
    hide TalkKept, MovingKept, JobsKept, TasksKept, TrustKept, LifeKept, NoLiveJob, Ready, ShowWith, Settled, IsMoving,
      IsPress, Sits, OnAReading;
    SettledHas(s);
    SameStageTalk(s.talk, s.engine, t1, step);
    ScreenLands(s.(talk := t1), w, step, error, None);
  }

  /** Back down before the full ascent: made, or skipped when the shutter is already there. */
  lemma HomeAgainLands(s: State, w: World, t1: Talk)
    requires Settled(s) && Idle(s) && OnPlan(s.talk)
    requires t1 == s.talk.(measured := t1.measured)
    requires t1.measured.descent == s.talk.measured.descent && t1.measured.ascent == s.talk.measured.ascent
    requires var now := s.talk.shown.step;
             now.LiftCheck? || now.LiftCheckLate? || now.LiftGap?
    ensures Settled(BeginHoming(s.(talk := t1), w, OpenHomeAgain, Close, ToScreen(ClosedAgain)))
  {
    hide TalkKept, MovingKept, JobsKept, TasksKept, TrustKept, LifeKept, NoLiveJob, Ready, ShowWith, BeginMovement,
      Settled, Sits, OnAReading;
    SettledHas(s);
    HomeAgainTalk(s.talk, s.engine, t1);
    var s1 := s.(talk := t1);
    assert Idle(s1);
    RestedIsIdle(s1);
    hide Idle;
    if s1.place.at == Some(Close) && !t1.homeAnyway {
      ScreenLands(Rested(s1), w, ClosedAgain, None, None);
    } else {
      MovementLands(s1.(talk := t1.(homeAnyway := false)), w, OpenHomeAgain, Homing, Close, Home(Close),
                    ToScreen(ClosedAgain), None);
    }
  }

  lemma SettledHas(s: State)
    requires Settled(s)
    ensures TalkKept(s.talk) && MovingKept(s.talk, s.engine) && JobsKept(s.talk, s.engine, s.place.at)
  {
    hide TalkKept, MovingKept, JobsKept, TasksKept, TrustKept, LifeKept;
  }

  lemma HomeAgainTalk(t: Talk, e: Engine, t1: Talk)
    requires TalkKept(t) && MovingKept(t, e) && OnPlan(t) && t1 == t.(measured := t1.measured)
    requires t1.measured.descent == t.measured.descent && t1.measured.ascent == t.measured.ascent
    requires t.shown.step.LiftCheck? || t.shown.step.LiftCheckLate? || t.shown.step.LiftGap?
    ensures Ready(t1.(externalMove := false), ClosedAgain) && Ready(t1.(homeAnyway := false), OpenHomeAgain)
  {
    hide TalkKept, MovingKept, Ready;
    LiftStage(t);
    SameStageTalk(t, e, t1, OpenHomeAgain);
    SameStageTalk(t, e, t1, ClosedAgain);
    HomeAgainReady(t1);
  }

  lemma LiftStage(t: Talk)
    requires TalkKept(t) && OnPlan(t)
    requires t.shown.step.LiftCheck? || t.shown.step.LiftCheckLate? || t.shown.step.LiftGap?
    ensures t.plan[t.index.value].OpenTimed?
  {
    hide PathKept, ReadingsKept, WellFormed, AimKept;
  }

  lemma HomeAgainReady(t: Talk)
    requires Ready(t, OpenHomeAgain) && Ready(t, ClosedAgain)
    ensures Ready(t.(homeAnyway := false), OpenHomeAgain) && Ready(t.(externalMove := false), ClosedAgain)
  {
    hide Fitted, NothingToFit, WellFormed;
  }

  // ---------------------------------------------------------------- timed runs and presses

  lemma BriefStage(t: Talk, e: Engine)
    requires TalkKept(t) && MovingKept(t, e)
    requires IsBrief(t.shown.step)
    ensures OnPlan(t) && t.plan[t.index.value] == (if t.shown.step.CloseBrief? then CloseTimed else OpenTimed)
    ensures Ready(t, Problem(BadPoint)) && !t.stopFirst && e.movement == None && e.press == None
  {
    hide Fitted, NothingToFit, WellFormed;
  }

  lemma BriefTalk(t: Talk, t1: Talk, step: Screen)
    requires Ready(t, Problem(BadPoint)) && !t.stopFirst
    requires Sits(step, t.plan[t.index.value]) && !OnAReading(step) && !step.VerifyResult?
    requires t1 == t.(instants := t1.instants)
    ensures Ready(t1, step)
  {
    hide Fitted, NothingToFit, WellFormed;
  }

  /** A timed run is only started from its own end stop; anywhere else the shutter is taken there first. */
  lemma TimedRunLands(s: State, w: World)
    requires Settled(s) && Idle(s)
    requires IsBrief(s.talk.shown.step)
    ensures Settled(TimedRun(s, w, s.talk.shown.step))
  {
    hide TalkKept, MovingKept, JobsKept, TasksKept, TrustKept, LifeKept, NoLiveJob, Ready, BeginMovement, Idle;
    var brief := s.talk.shown.step;
    BriefStage(s.talk, s.engine);
    hide Settled;
    if brief.CloseBrief? { TimedRunFrom(s, w, Close, Positioning(CloseTimed), CloseStarting, CloseBottom); }
    else if brief.OpenBrief? { TimedRunFrom(s, w, Open, Positioning(OpenTimed), OpenStarting, OpenLift); }
    else { TimedRunFrom(s, w, Open, OpenHomeAgain, OpenFullStarting, OpenTop); }
  }

  lemma TimedRunFrom(s: State, w: World, direction: Direction, homing: Screen, step: Screen, next: Screen)
    requires Settled(s) && Idle(s) && IsBrief(s.talk.shown.step) && OnPlan(s.talk)
    requires var stage := s.talk.plan[s.talk.index.value];
             Sits(homing, stage) && Sits(step, stage) && !OnAReading(homing) && !OnAReading(step)
             && !homing.VerifyResult?
             && !step.VerifyResult? && !step.LiftStop? && !homing.LiftStop?
    requires Behind(homing, Home(OtherEnd(direction)), ToScreen(s.talk.shown.step))
    requires Behind(step, StartFree(direction), ToScreen(next))
    ensures var from := OtherEnd(direction);
            if s.place.at != Some(from)
            then Settled(BeginMovement(s, w, homing, Homing, from, Home(from), ToScreen(s.talk.shown.step),
                                       Some(Rehomed)))
            else Settled(BeginMovement(s.(talk := s.talk.(instants := s.talk.instants.(motorStart := None))), w, step,
                                       Free,
                                       direction, StartFree(direction), ToScreen(next), None))
  {
    hide TalkKept, MovingKept, JobsKept, TasksKept, TrustKept, LifeKept, NoLiveJob, Ready, BeginMovement, Sits;
    var from := OtherEnd(direction);
    BriefStage(s.talk, s.engine);
    if s.place.at != Some(from) {
      BriefTalk(s.talk, s.talk, homing);
      MovementLands(s, w, homing, Homing, from, Home(from), ToScreen(s.talk.shown.step), Some(Rehomed));
    } else {
      var talk := s.talk.(instants := s.talk.instants.(motorStart := None));
      BriefTalk(s.talk, talk, step);
      MovementLands(s.(talk := talk), w, step, Free, direction, StartFree(direction), ToScreen(next), None);
    }
  }

  lemma PressTalk(t: Talk, t1: Talk, step: Screen)
    requires TalkKept(t) && IsPress(t.shown.step)
    requires t1 == t.(instants := t1.instants, measured := t1.measured, check := t1.check)
    requires t1.measured.descent == t.measured.descent && t1.measured.ascent == t.measured.ascent
    requires step.Problem? || (step.LiftStop? && t.shown.step.OpenLift?)
             || (step.CloseResult? && t.shown.step.CloseBottom?)
             || ((step.OpenResult? || step.OpenResultGap?) && t.shown.step.OpenTop?)
    ensures Ready(t1, step) && OnPlan(t) && IsTimed(t.plan[t.index.value])
  {
    hide TalkKept, Ready;
    PressStage(t);
    ReadyFrom(t, t1, step);
  }

  lemma PressStage(t: Talk)
    requires TalkKept(t) && IsPress(t.shown.step)
    ensures OnPlan(t) && IsTimed(t.plan[t.index.value]) && Sits(t.shown.step, t.plan[t.index.value]) && !t.stopFirst
  {
    hide PathKept, ReadingsKept, WellFormed;
  }

  /** A press that came too late, or before the motor: its movement stays behind the problem screen. */
  lemma BadPressLands(s: State, w: World, e: Engine, reason: Reason)
    requires Settled(s) && Idle(s) && IsPress(s.talk.shown.step)
    requires e == s.engine || (reason != Timeout && e == s.engine.(press := None, pressTimer := None))
    requires reason == Timeout || reason == BadPoint
    requires reason == BadPoint ==> e.press == None
    ensures Settled(ShowProblem(s.(engine := e), w, reason))
  {
    var shown := Shown(Problem(CodeOf(reason)), Some(CodeOf(reason)), None, None);
    var talk := s.talk.(check := None);
    PressTalk(s.talk, talk, shown.step);
    TalkLands(talk, shown);
    IdleJobs(talk.(shown := shown), e, s.place.at);
    assert TasksKept(e);
    assert MovingKept(talk.(shown := shown), e);
    hide TasksKept, TrustKept, TalkKept, JobsKept, MovingKept, NoLiveJob, LifeKept;
    PutLands(s.(engine := e), w, talk, shown);
  }

  lemma PressKnowsItsStart(t: Talk, e: Engine)
    requires MovingKept(t, e) && IsPress(t.shown.step)
    ensures t.instants.motorStart.Some?
  {
  }

  lemma UnpressedIsIdle(s: State)
    requires Idle(s)
    ensures Idle(Unpressed(s)) && Idle(Unpressed(s).(engine := Unpressed(s).engine.(movement := None)))
  {
    hide TrustKept, LifeKept;
  }

  lemma LiftedOffLands(s: State, w: World)
    requires Settled(s) && Idle(s) && s.talk.shown.step.OpenLift?
    ensures Settled(PressLiftedOff(s, w))
  {
    hide TalkKept, JobsKept, TasksKept, TrustKept, LifeKept, NoLiveJob, Ready, Put;
    PressKnowsItsStart(s.talk, s.engine);
    if TimedOut(s, w) {
      BadPressLands(s, w, s.engine, Timeout);
    } else {
      var i := s.talk.instants;
      var talk := s.talk.(instants := i.(liftOff := if i.liftOff.None? then Some(w.now) else i.liftOff));
      PressTalk(s.talk, talk, LiftStop);
      var s1 := Unpressed(s).(talk := talk);
      UnpressedIsIdle(s);
      MovementLands(s1, w, LiftStop, Free, Open, StopLift, ToTheLift, None);
    }
  }

  lemma {:induction false} TraceGrows(trace: seq<Happening>, h: Happening)
    requires RunsFromEndStops(trace)
    requires h.FreeFrame? || h.RunFrame? ==> LastMove(trace) == Some(Reached(OtherEnd(h.way)))
    ensures RunsFromEndStops(trace + [h])
    ensures LastMove(trace + [h]) == if h == IdleStop || h == EndingStop then LastMove(trace) else Some(h)
  {
    var t := trace + [h];
    assert t[..|trace|] == trace;
    forall i | 0 <= i < |trace| ensures t[i] == trace[i] && t[..i] == trace[..i] {}
  }

  lemma ReachedIsTrusted(p: Place, d: Direction)
    requires TrustKept(p)
    ensures TrustKept(Place(Some(d), p.trace + [Reached(d)]))
  {
    TraceGrows(p.trace, Reached(d));
  }

  lemma StoppedLands(s: State, w: World, direction: Direction)
    requires Settled(s) && Idle(s)
    requires s.talk.shown.step == if direction.Open? then OpenTop else CloseBottom
    ensures Settled(PressStopped(s, w, direction))
  {
    hide TalkKept, JobsKept, TasksKept, TrustKept, LifeKept, NoLiveJob, Ready, Put;
    PressKnowsItsStart(s.talk, s.engine);
    hide MovingKept;
    if TimedOut(s, w) {
      BadPressLands(s, w, s.engine, Timeout);
    } else {
      var run := w.now - s.talk.instants.motorStart.value;
      var slat := s.talk.measured.slatSeconds.GetOr(0.0);
      if run <= 0.0 || (direction == Open && (slat < 0.0 || slat > run)) {
        BadPressLands(s, w, Unpressed(s).engine, BadPoint);
      } else {
        var m := if direction == Open then s.talk.measured.(opening := Some(Timing(Some(slat), run)))
                 else s.talk.measured.(closing := Some(Timing(None, run)));
        var step := if direction == Close then CloseResult else if m.liftGap.Some? then OpenResultGap else OpenResult;
        AcceptedPressLands(s, w, direction, m, step);
      }
    }
  }

  lemma AcceptedPressLands(s: State, w: World, direction: Direction, m: Measured, step: Screen)
    requires Settled(s) && Idle(s)
    requires s.talk.shown.step == if direction.Open? then OpenTop else CloseBottom
    requires m.descent == s.talk.measured.descent && m.ascent == s.talk.measured.ascent
    requires if direction.Open? then step.OpenResult? || step.OpenResultGap? else step.CloseResult?
    ensures Settled(Show(s.(talk := s.talk.(measured := m),
                            engine := s.engine.(press := None, pressTimer := None, movement := None),
                            place := Place(Some(direction), s.place.trace + [Reached(direction)])), w, step))
  {
    hide TalkKept, MovingKept, JobsKept, TasksKept, TrustKept, LifeKept, NoLiveJob, Ready, ShowWith;
    var talk := s.talk.(measured := m);
    PressTalk(s.talk, talk, step);
    ReachedIsTrusted(s.place, direction);
    UnpressedIsIdle(s);
    var s1 := s.(talk := talk, engine := s.engine.(press := None, pressTimer := None, movement := None),
                 place := Place(Some(direction), s.place.trace + [Reached(direction)]));
    ScreenLands(s1, w, step, None, None);
  }

  // ---------------------------------------------------------------- the forms

  lemma TapeFormTalk(t: Talk, e: Engine)
    requires TalkKept(t) && MovingKept(t, e) && IsTapeForm(t.shown.step)
    ensures Ready(t, t.shown.step) && Ready(t, Problem(BadPoint)) && !t.stopFirst
    ensures e.movement == None && e.press == None
  {
    hide TalkKept, Ready, Sits, AimedAt;
    FormTalk(t);
    StillScreen(t, e);
    ReadyFrom(t, t, t.shown.step);
    AnySits(t.plan[t.index.value]);
    ReadyFrom(t, t, Problem(BadPoint));
  }

  lemma AnySits(stage: Stage)
    ensures forall reason :: Sits(Problem(reason), stage)
  {
  }

  lemma FormTalk(t: Talk)
    requires TalkKept(t) && IsTapeForm(t.shown.step)
    ensures OnPlan(t) && Sits(t.shown.step, t.plan[t.index.value]) && !t.stopFirst
    ensures t.aim.tapeTarget == None && AimedAt(t.aim, t.plan[t.index.value])
  {
    hide PathKept, ReadingsKept, WellFormed, Sits, AimedAt, RunDirection, FormAfter;
  }

  lemma TapeFormLands(s: State, w: World, error: Option<FormError>, notice: Option<Notice>)
    requires Settled(s) && Idle(s) && IsTapeForm(s.talk.shown.step)
    ensures Settled(ShowWith(s, w, s.talk.shown.step, error, notice))
  {
    hide TalkKept, MovingKept, JobsKept, TasksKept, TrustKept, LifeKept, NoLiveJob, Ready, ShowWith, Settled;
    SettledHas(s);
    TapeFormTalk(s.talk, s.engine);
    ScreenLands(s, w, s.talk.shown.step, error, notice);
  }

  lemma VerifiedTalk(t: Talk, e: Engine, t1: Talk)
    requires TalkKept(t) && MovingKept(t, e) && t.shown.step.MeasureVerify?
    requires t1 == t.(measured := t1.measured, aim := t.aim.(tapeTarget := None), check := t1.check)
    requires t1.measured.descent == t.measured.descent && t1.measured.ascent == t.measured.ascent
    ensures Ready(t1, VerifyResult)
  {
    hide Fitted, NothingToFit, WellFormed;
  }

  lemma VerifiedLands(s: State, w: World, cm: real)
    requires Settled(s) && Idle(s) && s.talk.shown.step.MeasureVerify?
    ensures Settled(Verified(s, w, cm))
  {
    hide TalkKept, MovingKept, JobsKept, TasksKept, TrustKept, LifeKept, NoLiveJob, Ready, ShowWith, Put, Settled;
    SettledHas(s);
    TapeFormTalk(s.talk, s.engine);
    if w.prediction.CannotFit? {
      ProblemLands(s, w, BadPoint);
    } else {
      var gap := GapOfTheCheck(s.talk, w.prediction, cm);
      var fraction := s.talk.aim.pending.GetOr((Close, 0.4)).1;
      var talk := s.talk.(measured := s.talk.measured.(deviation := gap, verifyFraction := Some(fraction)),
                          aim := s.talk.aim.(tapeTarget := None), check := Some(Check(cm, fraction, gap)));
      VerifiedTalk(s.talk, s.engine, talk);
      ScreenLands(s.(talk := talk), w, VerifyResult, None, None);
    }
  }

  lemma ReadTalk(t: Talk, d: Direction, point: (real, real))
    requires TalkKept(t) && t.shown.step == if d.Close? then MeasureDescent else MeasureAscent
    ensures var m := if d.Close? then t.measured.(descent := t.measured.descent + [point])
                     else t.measured.(ascent := t.measured.ascent + [point]);
            TalkKept(t.(measured := m, aim := t.aim.(tapeTarget := Some(d)),
                        shown := Shown(TapeResult, None, None, None)))
  {
    hide TalkKept, PlanKept, PathKept, ReadingsKept, AimKept;
    var m := if d.Close? then t.measured.(descent := t.measured.descent + [point])
             else t.measured.(ascent := t.measured.ascent + [point]);
    ReadParts(t, d, point);
    TalkOf(t);
    TalkOf(t.(measured := m, aim := t.aim.(tapeTarget := Some(d)), shown := Shown(TapeResult, None, None, None)));
  }

  lemma TalkOf(t: Talk)
    ensures TalkKept(t) <==> PlanKept(t) && PathKept(t) && ReadingsKept(t) && AimKept(t)
  {
    hide PlanKept, PathKept, ReadingsKept, AimKept;
  }

  lemma ReadParts(t: Talk, d: Direction, point: (real, real))
    requires TalkKept(t) && t.shown.step == if d.Close? then MeasureDescent else MeasureAscent
    ensures var m := if d.Close? then t.measured.(descent := t.measured.descent + [point])
                     else t.measured.(ascent := t.measured.ascent + [point]);
            var t1 := t.(measured := m, aim := t.aim.(tapeTarget := Some(d)),
                         shown := Shown(TapeResult, None, None, None));
            PlanKept(t1) && PathKept(t1) && ReadingsKept(t1) && AimKept(t1)
  {
    hide TalkKept, PathKept, ReadingsKept, AimKept, Fitted, NothingToFit, WellFormed, AimedAt;
    FormTalk(t);
    NoStopOwed(t);
    TalkOf(t);
    var m := if d.Close? then t.measured.(descent := t.measured.descent + [point])
             else t.measured.(ascent := t.measured.ascent + [point]);
    var t1 := t.(measured := m, aim := t.aim.(tapeTarget := Some(d)), shown := Shown(TapeResult, None, None, None));
    assert Movable(t.plan[t.index.value]) && RunDirection(t.plan[t.index.value]) == d;
    hide PlanKept, Sits;
    ReadAim(t, t1);
    ReadCounts(t, t1, d);
    assert PlanKept(t1) by { ReadPlan(t, t1); }
    assert PathKept(t1) by { ReadPath(t, t1); }
  }

  lemma ReadPlan(t: Talk, t1: Talk)
    requires PlanKept(t) && OnPlan(t) && Movable(t.plan[t.index.value]) && t1.plan == t.plan && t1.index == t.index
    requires t1.escaped == t.escaped && t1.shown.step.TapeResult?
    ensures PlanKept(t1)
  {
    hide WellFormed;
  }

  lemma ReadPath(t: Talk, t1: Talk)
    requires PathKept(t) && OnPlan(t) && t1.plan == t.plan && t1.index == t.index && t1.choice == t.choice
    requires t1.shown.step.TapeResult?
    ensures PathKept(t1)
  {
    hide NothingToFit;
  }

  lemma ReadAim(t: Talk, t1: Talk)
    requires !t.stopFirst && t1.stopFirst == t.stopFirst && t1.shown == Shown(TapeResult, None, None, None)
    ensures AimKept(t1)
  {
  }

  lemma ReadCounts(t: Talk, t1: Talk, d: Direction)
    requires ReadingsKept(t) && IsTapeForm(t.shown.step) && OnPlan(t) && RunDirection(t.plan[t.index.value]) == d
    requires t1.plan == t.plan && t1.index == t.index && t1.shown.step.TapeResult? && t1.aim.tapeTarget == Some(d)
    requires |t1.measured.descent| == |t.measured.descent| + if d.Close? then 1 else 0
    requires |t1.measured.ascent| == |t.measured.ascent| + if d.Open? then 1 else 0
    ensures ReadingsKept(t1)
  {
    hide Fitted;
  }

  lemma ReadLands(s: State, w: World, d: Direction, point: (real, real))
    requires Settled(s) && Idle(s) && s.talk.shown.step == if d.Close? then MeasureDescent else MeasureAscent
    ensures var t := s.talk;
            var m := if d.Close? then t.measured.(descent := t.measured.descent + [point])
                     else t.measured.(ascent := t.measured.ascent + [point]);
            Settled(Show(s.(talk := t.(measured := m, aim := t.aim.(tapeTarget := Some(d)))), w, TapeResult))
  {
    var t := s.talk;
    var m := if d.Close? then t.measured.(descent := t.measured.descent + [point])
             else t.measured.(ascent := t.measured.ascent + [point]);
    var talk := t.(measured := m, aim := t.aim.(tapeTarget := Some(d)));
    var shown := Shown(TapeResult, None, None, None);
    ReadTalk(t, d, point);
    IdleJobs(talk.(shown := shown), s.engine, s.place.at);
    TapeFormTalk(t, s.engine);
    assert MovingKept(talk.(shown := shown), s.engine);
    hide TasksKept, TrustKept, TalkKept, JobsKept, MovingKept, NoLiveJob, LifeKept, Ready;
    PutLands(s.(talk := talk), w, talk, shown);
  }

  lemma ReadingLands(s: State, w: World, v: Value)
    requires Settled(s) && Idle(s) && IsTapeForm(s.talk.shown.step)
    ensures Settled(SubmitReading(s, w, v))
  {
    var t := s.talk;
    hide Settled, Idle, ShowWith, Verified;
    if v.Number? && v.n >= 0.0 && !(t.measured.height.Some? && v.n > t.measured.height.value)
       && (t.shown.step.MeasureVerify? || t.report.Some?) {
      if t.shown.step.MeasureVerify? { VerifiedLands(s, w, v.n); }
      else if t.shown.step.MeasureDescent? { ReadLands(s, w, Close, (t.report.value, v.n)); }
      else { ReadLands(s, w, Open, (t.report.value, v.n)); }
    } else {
      TapeFormLands(s, w, Some(NotANumber), None);
      TapeFormLands(s, w, Some(OutOfRange), None);
      TapeFormLands(s, w, Some(AboveTheTravel), None);
    }
  }

  lemma FormStage(t: Talk)
    requires TalkKept(t) && (t.shown.step.HeightForm? || t.shown.step.LiftGap? || t.shown.step.NameForm?)
    ensures OnPlan(t) && Sits(t.shown.step, t.plan[t.index.value])
  {
    hide NothingToFit, Fitted, PathKept, ReadingsKept, WellFormed, AimKept;
  }

  lemma HeightLands(s: State, w: World, v: Value)
    requires Settled(s) && Idle(s) && s.talk.shown.step.HeightForm?
    ensures Settled(SubmitHeight(s, w, v))
  {
    hide TalkKept, MovingKept, JobsKept, TasksKept, TrustKept, LifeKept, NoLiveJob, Ready, ShowWith, Settled, Idle;
    SettledHas(s);
    FormStage(s.talk);
    if !v.Number? {
      SameStageLands(s, w, s.talk, HeightForm, Some(NotANumber));
    } else if !(20.0 <= v.n <= 500.0) {
      SameStageLands(s, w, s.talk, HeightForm, Some(OutOfRange));
    } else {
      SameStageLands(s, w, s.talk.(measured := s.talk.measured.(height := Some(v.n), heightMeasured := true)),
                     HeightResult, None);
    }
  }

  lemma GapLands(s: State, w: World, v: Value)
    requires Settled(s) && Idle(s) && s.talk.shown.step.LiftGap?
    ensures Settled(SubmitGap(s, w, v))
  {
    hide TalkKept, MovingKept, JobsKept, TasksKept, TrustKept, LifeKept, NoLiveJob, Ready, Put, BeginHoming;
    FormStage(s.talk);
    if v.Blank? {
      HomeAgainLands(s, w, s.talk);
    } else if !v.Number? {
      SameStageLands(s, w, s.talk, LiftGap, Some(NotANumber));
    } else if !(0.0 <= v.n <= 50.0) {
      SameStageLands(s, w, s.talk, LiftGap, Some(OutOfRange));
    } else if v.n < 1.0 {
      SameStageLands(s, w, s.talk, LiftEarly, None);
    } else {
      HomeAgainLands(s, w, s.talk.(measured := s.talk.measured.(liftGap := Some(v.n))));
    }
  }

  lemma NameLands(s: State, w: World, name: string)
    requires Settled(s) && Idle(s) && s.talk.shown.step.NameForm?
    ensures Settled(SubmitName(s, w, name))
  {
    hide ShowWith, IsAName, Settled, Idle, TalkKept, MovingKept, JobsKept, Advance;
    SettledHas(s);
    FormStage(s.talk);
    SameStageLands(s, w, s.talk, NameForm, Some(InvalidName));
    var s1 := s.(talk := s.talk.(choice := s.talk.choice.(name := Some(name))));
    NamedLands(s, s1);
    AdvanceLands(s1, w);
  }

  lemma NamedLands(s: State, s1: State)
    requires Settled(s) && Idle(s) && s1 == s.(talk := s.talk.(choice := s.talk.choice.(name := s1.talk.choice.name)))
    ensures Settled(s1) && Idle(s1)
  {
    hide TalkKept, TasksKept, TrustKept, LifeKept, NoLiveJob;
    NamedIsKept(s.talk, s1.talk.choice.name);
    IdleJobs(s1.talk, s1.engine, s1.place.at);
  }

  lemma NamedIsKept(t: Talk, name: Option<string>)
    requires TalkKept(t)
    ensures TalkKept(t.(choice := t.choice.(name := name)))
  {
    hide Fitted, NothingToFit, WellFormed;
  }

  lemma CorrectingTalk(t: Talk, e: Engine, ownHeight: Option<real>, name: string)
    requires TalkKept(t) && MovingKept(t, e) && t.shown.step.PathCForm?
    ensures TalkKept(Correcting(t, ownHeight, name).(shown := Shown(RefineScope, None, None, None)))
    ensures e.movement == None && e.press == None
  {
    if OnPlan(t) {
      NothingFitted(t.plan, Close, t.index.value);
      NothingFitted(t.plan, Open, t.index.value);
    }
    hide Fitted, NothingToFit, WellFormed;
  }

  lemma ProfileLands(s: State, w: World, name: string)
    requires Settled(s) && Idle(s) && (s.talk.shown.step.PathBForm? || s.talk.shown.step.PathCForm?)
    ensures Settled(SubmitProfile(s, w, name))
  {
    assert s.talk.choice.path == Some(if s.talk.shown.step.PathBForm? then Profile else Refine) by {
      hide Fitted, NothingToFit, WellFormed;
    }
    if s.talk.shown.step.PathBForm? {
      ThePlans();
      hide TalkKept, MovingKept, JobsKept, TasksKept, TrustKept, LifeKept, NoLiveJob, StartPlan, NothingToFit,
        WellFormed;
      StartLands(s, w, s.talk.(choice := s.talk.choice.(profile := Some(name)), measured := NOTHING_MEASURED),
                 PLAN_PROFILE);
    } else {
      var talk := Correcting(s.talk, w.ownHeight, name);
      var shown := Shown(RefineScope, None, None, None);
      CorrectingTalk(s.talk, s.engine, w.ownHeight, name);
      IdleJobs(talk.(shown := shown), s.engine, s.place.at);
      assert MovingKept(talk.(shown := shown), s.engine);
      hide TalkKept, MovingKept, JobsKept, TasksKept, TrustKept, LifeKept, NoLiveJob, Correcting;
      PutLands(s.(talk := talk), w, talk, shown);
    }
  }

  // ---------------------------------------------------------------- choosing a path

  lemma ChoiceTalk(t: Talk, e: Engine, t1: Talk, step: Screen)
    requires TalkKept(t) && MovingKept(t, e) && t.shown.notice != Some(ReadingStale)
    requires (t.shown.step.ChoosePath? && (step.PathAWarning? || step.PathBForm? || step.PathCForm?))
             || (t.shown.step.VerifyResult? && step.PathCForm? && t.choice.path == Some(Profile))
    requires t1 == t.(choice := t.choice.(path := t1.choice.path), check := t1.check)
    requires t1.choice.path == Some(if step.PathAWarning? then First else if step.PathBForm? then Profile else Refine)
    ensures TalkKept(t1.(shown := Shown(step, None, None, None)))
    ensures MovingKept(t1.(shown := Shown(step, None, None, None)), e)
  {
    hide Fitted, WellFormed;
  }

  lemma ChooseLands(s: State, w: World, action: Action)
    requires Settled(s) && Idle(s) && s.talk.shown.notice != Some(ReadingStale)
    requires (s.talk.shown.step.ChoosePath? && (action.ChooseFirst? || action.ChooseProfile? || action.ChooseRefine?))
             || (s.talk.shown.step.VerifyResult? && action.ChooseRefine? && s.talk.choice.path == Some(Profile))
    ensures Settled(Do(s, w, action))
  {
    var (talk, step) := if action.ChooseFirst? then (Chose(s.talk, First), PathAWarning)
                        else if action.ChooseProfile? then (Chose(s.talk, Profile), PathBForm)
                        else (Chose(s.talk, Refine).(check := None), PathCForm);
    var shown := Shown(step, None, None, None);
    ChoiceTalk(s.talk, s.engine, talk, step);
    IdleJobs(talk.(shown := shown), s.engine, s.place.at);
    hide TalkKept, MovingKept, JobsKept, TasksKept, TrustKept, LifeKept, NoLiveJob;
    PutLands(s.(talk := talk), w, talk, shown);
  }

  // ---------------------------------------------------------------- the verbs

  lemma LiftLands(s: State, w: World, action: Action)
    requires Settled(s) && Idle(s) && (action.LiftByTape? || action.ConfirmClosedAgain? || action.RepeatMeasure?)
    requires Offers(s.talk.shown.step, action)
    ensures Settled(Do(s, w, action))
  {
    hide TalkKept, MovingKept, JobsKept, TasksKept, TrustKept, LifeKept, NoLiveJob, Ready, Put, Settled, Idle, Sits,
      Offers;
    SettledHas(s);
    LiftScreen(s.talk, action);
    if action.LiftByTape? { SameStageLands(s, w, s.talk, LiftGap, None); }
    else if action.ConfirmClosedAgain? { SameStageLands(s, w, s.talk, OpenFullBrief, None); }
    else { SameStageLands(s, w, s.talk.(measured := WithoutTheTravel(s.talk.measured)), HeightForm, None); }
  }

  lemma LiftAcceptLands(s: State, w: World)
    requires Settled(s) && Idle(s) && Offers(s.talk.shown.step, LiftAccept)
    ensures Settled(Do(s, w, LiftAccept))
  {
    hide TalkKept, MovingKept, JobsKept, TasksKept, TrustKept, LifeKept, NoLiveJob, Ready, Put, BeginHoming;
    LiftScreen(s.talk, LiftAccept);
    HomeAgainLands(s, w, s.talk);
  }

  lemma LiftScreen(t: Talk, action: Action)
    requires TalkKept(t) && Offers(t.shown.step, action)
    requires action.LiftAccept? || action.LiftByTape? || action.ConfirmClosedAgain? || action.RepeatMeasure?
    ensures OnPlan(t) && Sits(if action.RepeatMeasure? then HeightForm else OpenFullBrief, t.plan[t.index.value])
    ensures action.LiftByTape? ==> Sits(LiftGap, t.plan[t.index.value])
    ensures var now := t.shown.step; !now.TapeResult? && !now.Problem? && !IsMoving(now) && !IsPress(now)
  {
    hide NothingToFit, Fitted, PathKept, ReadingsKept, WellFormed, AimKept;
  }

  predicate ChoosesAPlan(a: Action) {
    a.ChooseFirst? || a.ChooseProfile? || a.ChooseRefine? || a.Begin? || a.DoTimesOnly? || a.DoTimesAndRolls?
    || a.DoPointsOnly? || a.GoThorough?
  }

  predicate WalksThePlan(a: Action) {
    a.VerifyNow? || a.SkipVerify? || a.ConfirmClosed? || a.AcceptStep? || a.StartTape?
    || a.RepeatStep? || a.NotRight? || a.LiftTooEarly? || a.RepeatTape? || a.TapeNotRight?
  }

  lemma PlanScreens(t: Talk, w: World, a: Action)
    requires Offered(t, w, a) && ChoosesAPlan(a)
    ensures t.shown.notice != Some(ReadingStale)
    ensures a.Begin? ==> t.shown.step.PathAWarning?
    ensures a.DoTimesOnly? || a.DoTimesAndRolls? || a.DoPointsOnly? ==> t.shown.step.RefineScope?
    ensures a.GoThorough? ==> t.shown.step == Summing(Basic) || t.shown.step == Summing(Correction)
    ensures a.ChooseFirst? || a.ChooseProfile? ==> t.shown.step.ChoosePath?
    ensures a.ChooseRefine?
            ==> t.shown.step.ChoosePath? || (t.shown.step.VerifyResult? && t.choice.path == Some(Profile))
  {
  }

  lemma PlanActionLands(s: State, w: World, action: Action)
    requires Settled(s) && Idle(s) && Offered(s.talk, w, action) && ChoosesAPlan(action)
    requires action.DoPointsOnly? ==> w.inUse.Some?
    ensures Settled(Do(s, w, action))
  {
    PlanScreens(s.talk, w, action);
    hide Settled, Idle, Offered, StartPlan, StartThorough, Put;
    if action.ChooseFirst? || action.ChooseProfile? || action.ChooseRefine? { ChooseLands(s, w, action); }
    else if action.Begin? { BeginLands(s, w); }
    else if action.DoPointsOnly? { AdoptLands(s, w); }
    else if action.GoThorough? { ThoroughLands(s, w); }
    else { ScopeLands(s, w, action); }
  }

  lemma WalkScreens(t: Talk, w: World, a: Action)
    requires TalkKept(t) && Offered(t, w, a) && WalksThePlan(a)
    ensures a.VerifyNow? ==> t.shown.step.VerifyOffering?
    ensures a.RepeatTape? || a.TapeNotRight?
            ==> t.shown.step.TapeResult? || t.shown.step.VerifyResult? || IsTapeForm(t.shown.step)
    ensures !a.RepeatTape? ==> t.shown.notice != Some(ReadingStale) && Offers(t.shown.step, a)
  {
    StaleNotice(t);
    hide TalkKept;
  }

  lemma WalkActionLands(s: State, w: World, action: Action)
    requires Settled(s) && Idle(s) && Offered(s.talk, w, action) && WalksThePlan(action)
    ensures Settled(Do(s, w, action))
  {
    hide TalkKept, MovingKept, JobsKept, TasksKept, TrustKept, LifeKept, NoLiveJob;
    WalkScreens(s.talk, w, action);
    hide Settled, Idle, Do, Offered, Offers;
    if action.VerifyNow? { VerifyNowLands(s, w); }
    else if action.RepeatStep? || action.NotRight? || action.LiftTooEarly? { RepeatLands(s, w, action); }
    else if action.RepeatTape? || action.TapeNotRight? { TapeAgainLands(s, w, action); }
    else { AcceptLands(s, w, action); }
  }

  predicate IsBrief(step: Screen) { step.OpenBrief? || step.OpenFullBrief? || step.CloseBrief? }

  lemma RunScreens(t: Talk, w: World, a: Action)
    requires Offered(t, w, a) && !a.Submit? && !ChoosesAPlan(a) && !WalksThePlan(a)
    ensures Offers(t.shown.step, a)
    ensures a.LiftedOff? ==> t.shown.step.OpenLift?
    ensures a.StoppedOpen? ==> t.shown.step.OpenTop?
    ensures a.StoppedClosed? ==> t.shown.step.CloseBottom?
    ensures a.StartOpening? ==> t.shown.step.OpenBrief?
    ensures a.StartFullOpening? ==> t.shown.step.OpenFullBrief?
    ensures a.StartClosing? ==> t.shown.step.CloseBrief?
  {
  }

  lemma RunActionLands(s: State, w: World, action: Action)
    requires Settled(s) && Idle(s) && Offered(s.talk, w, action) && !action.Submit?
    requires !ChoosesAPlan(action) && !WalksThePlan(action)
    ensures Settled(Do(s, w, action))
  {
    RunScreens(s.talk, w, action);
    hide Settled, Idle, TimedRun, PressLiftedOff, PressStopped, BeginHoming, Put, Offered, Offers;
    if action.LiftAccept? { LiftAcceptLands(s, w); }
    else if action.LiftedOff? { LiftedOffLands(s, w); }
    else if action.StoppedOpen? { StoppedLands(s, w, Open); }
    else if action.StoppedClosed? { StoppedLands(s, w, Close); }
    else if action.StartOpening? || action.StartFullOpening? || action.StartClosing? { TimedRunLands(s, w); }
    else { LiftLands(s, w, action); }
  }

  /** Every action a screen offers leaves a kept session, but for the one that may end it. */
  lemma DoLands(s: State, w: World, action: Action)
    requires Settled(s) && Idle(s) && Offered(s.talk, w, action) && !action.Submit?
    requires action.DoPointsOnly? ==> w.inUse.Some?
    ensures Settled(Do(s, w, action))
  {
    hide Settled, Idle, Do;
    if ChoosesAPlan(action) { PlanActionLands(s, w, action); }
    else if WalksThePlan(action) { WalkActionLands(s, w, action); }
    else { RunActionLands(s, w, action); }
  }

  lemma StaleNotice(t: Talk)
    requires TalkKept(t)
    ensures t.shown.notice == Some(ReadingStale) ==> IsTapeForm(t.shown.step)
  {
    hide NothingToFit, Fitted, PathKept, ReadingsKept, WellFormed, PlanKept;
  }

  lemma SubmitLands(s: State, w: World, v: Value)
    requires Settled(s) && Idle(s) && FormOf(s.talk.shown.step).Some?
    ensures Settled(DoSubmit(s, w, FormOf(s.talk.shown.step).value, v))
  {
    hide Settled, Idle, SubmitHeight, SubmitGap, SubmitReading, SubmitName, SubmitProfile;
    match FormOf(s.talk.shown.step).value
    case HeightField => HeightLands(s, w, v);
    case GapField => GapLands(s, w, v);
    case ReadingField => ReadingLands(s, w, v);
    case NameField => NameLands(s, w, Written(v));
    case ProfileField => ProfileLands(s, w, Written(v));
  }

  lemma TakenKeeps(s: State, w: World, client: string)
    requires Settled(s)
    ensures Settled(Taken(s, w, client)) && Taken(s, w, client).talk == s.talk
    ensures Idle(s) ==> Idle(Taken(s, w, client))
  {
    hide TalkKept, MovingKept, JobsKept, TasksKept, TrustKept, NoLiveJob;
  }

  lemma PumpKeeps(s: State)
    requires Settled(s) || Over(s)
    ensures Inv(Pump(s))
  {
    hide TalkKept, TrustKept, LifeKept, JobFits;
  }

  lemma ActKeeps(s: State, w: World, client: string, revision: nat, action: Action, value: Value)
    requires Inv(s)
    ensures Inv(TurnAct(s, w, client, revision, action, value))
  {
    hide Settled, Idle, Over, Carried, Offered, Taken, Pump, OwnedByAnother, NamesNoProfile;
    if GuardAct(s, w, client, revision, action).None? {
      LiveNotOver(s);
      OfferedIsIdle(s, w, action);
      TakenKeeps(s, w, client);
      if NamesNoProfile(s.talk, w, action, value) {
        TakenTakesNoQueue(s, w, client);
      } else {
        FormIsShown(s.talk, w, action, value);
        CarriedKeeps(Taken(s, w, client), w, action, value);
        PumpKeeps(Carried(Taken(s, w, client), w, action, value));
      }
    }
  }

  lemma LiveNotOver(s: State)
    requires !s.life.ended
    ensures !Over(s)
  {
    hide LifeKept, TasksKept, TrustKept;
  }

  lemma TakenTakesNoQueue(s: State, w: World, client: string)
    ensures Taken(s, w, client).engine == s.engine
  {
  }

  lemma FormIsShown(t: Talk, w: World, action: Action, value: Value)
    requires Offered(t, w, action)
    ensures action.Submit? ==> FormOf(t.shown.step).Some?
  {
  }

  lemma CarriedKeeps(s: State, w: World, action: Action, value: Value)
    requires Settled(s) && Idle(s) && Offered(s.talk, w, action) && (action.Submit? ==> FormOf(s.talk.shown.step).Some?)
    ensures Settled(Carried(s, w, action, value)) || Over(Carried(s, w, action, value))
  {
    hide Settled, Idle, Over, Do, DoSubmit, Offered, AsyncEnd;
    if action.DoPointsOnly? && w.inUse.None? {
      PointsOnlyAdopts(s, w);
      ScopedKeeps(s, PointsOnly);
      AsyncEndKeeps(s.(talk := Scoped(s.talk, PointsOnly)), w, CoverGone, true);
    } else if action.Submit? {
      SubmitLands(s, w, value);
    } else {
      DoLands(s, w, action);
    }
  }

  lemma PointsOnlyAdopts(s: State, w: World)
    ensures Do(s, w, DoPointsOnly) == AdoptTheTimes(s, w)
  {
  }

  lemma ScopedKeeps(s: State, scope: Scope)
    requires Settled(s)
    ensures Settled(s.(talk := Scoped(s.talk, scope)))
  {
    hide Fitted, NothingToFit, WellFormed;
  }

  // ---------------------------------------------------------------- the endings

  /** A step of the generation leaves nothing live behind it. */
  lemma NextGenerationKeeps(e: Engine, t: Talk, at: Option<Direction>, e1: Engine)
    requires TasksKept(e)
    requires e1 == e.(generation := e.generation + 1, queued := e1.queued, movement := e1.movement, press := e1.press,
                      pressTimer := e1.pressTimer)
    requires e1.queued == e.queued || e1.queued == None
    ensures TasksKept(e1) && NoLiveJob(e1) && JobsKept(t, e1, at)
  {
  }

  lemma FinishKeeps(s: State, w: World, reason: EndReason)
    requires !s.life.ended && TasksKept(s.engine) && TrustKept(s.place) && !s.talk.escaped
    ensures Over(Finish(s, w, reason))
  {
    hide RunsFromEndStops, LastMove;
  }

  lemma EndKeeps(s: State, w: World, reason: EndReason)
    requires !s.life.ended && TasksKept(s.engine) && TrustKept(s.place) && !s.talk.escaped
    ensures Over(End(s, w, reason))
  {
    NextGenerationKeeps(s.engine, s.talk, s.place.at, NextGeneration(s).engine);
    hide TasksKept, TrustKept, Finish, Over;
    FinishKeeps(NextGeneration(s), w, reason);
    FinishKeeps(NextGeneration(s).(life := s.life.(reservedUntil := Some(w.now + w.fullRun))), w, reason);
  }

  lemma EndingStopIsTrusted(p: Place)
    requires TrustKept(p)
    ensures TrustKept(p.(trace := p.trace + [EndingStop]))
  {
    TraceGrows(p.trace, EndingStop);
  }

  lemma SettledIsSound(s: State)
    requires Settled(s)
    ensures !s.talk.escaped
  {
    hide NothingToFit, Fitted, PathKept, ReadingsKept, WellFormed, AimKept, MovingKept, JobsKept, TasksKept,
      TrustKept, LifeKept;
  }

  /** An ending either ends the session or leaves it as it was with nothing live, waiting for its stop. */
  lemma AsyncEndKeeps(s: State, w: World, reason: EndReason, stop: bool)
    requires Settled(s)
    ensures var r := AsyncEnd(s, w, reason, stop);
            (Settled(r) || Over(r)) && (r.engine.queued.Some? ==> r.engine.queued == s.engine.queued)
            && r.engine.pumping == s.engine.pumping
  {
    SettledIsSound(s);
    var s1 := NextGeneration(s);
    NextGenerationKeeps(s.engine, s.talk, s.place.at, s1.engine);
    if stop && w.coverThere && w.shutterMoving {
      EndingStopIsTrusted(s.place);
      assert MovingKept(s.talk, s1.engine);
      hide TalkKept, JobsKept, TasksKept, TrustKept, MovingKept;
    } else {
      EndKeeps(s1, w, reason);
      assert End(s1, w, reason).engine.queued == None;
    }
  }

  // ---------------------------------------------------------------- the pump

  /** What a live job of a task means for the conversation it finishes in. */
  lemma LiveJobTalk(t: Talk, e: Engine, at: Option<Direction>, job: Job)
    requires TalkKept(t) && MovingKept(t, e) && JobFits(t, job)
    ensures OnPlan(t) && e.press == None && IsMoving(t.shown.step)
    ensures !t.stopFirst ==> Ready(t, Problem(Unknown))
  {
    hide Fitted, NothingToFit, WellFormed;
  }

  lemma ProblemIsProblem(t: Talk, reason: Reason)
    requires Ready(t, Problem(Unknown))
    ensures Ready(t, Problem(CodeOf(reason)))
  {
    hide Fitted, NothingToFit, WellFormed;
  }

  lemma HomedTalk(t: Talk, job: Job)
    requires TalkKept(t) && JobFits(t, job) && job.primitive.Home? && !t.stopFirst
    ensures job.next.ToTheRun? ==> Ready(t, TapeRun) && job.primitive.end == OtherEnd(t.aim.pending.value.0)
    ensures job.next.ToScreen? ==> Ready(t, job.next.screen) && ModeOf(job.next.screen) in {Briefing, Reading}
                                   && !IsPress(job.next.screen) && !IsTapeForm(job.next.screen)
                                   && !job.next.screen.Problem? && !job.next.screen.TapeResult?
    ensures !job.next.ToTheLift?
  {
    hide Fitted, NothingToFit, WellFormed;
  }

  /** A homing that came to its end is where the session says it is. */
  lemma HomedLands(s: State, w: World, job: Job)
    requires Idle(s) && TalkKept(s.talk) && JobFits(s.talk, job) && job.primitive.Home? && !s.talk.stopFirst
    requires s.engine.movement == None && s.engine.press == None
    ensures Settled(Goto(s.(place := Place(Some(job.primitive.end), s.place.trace + [Reached(job.primitive.end)])), w,
                         job.next, job.notice))
  {
    HomedTalk(s.talk, job);
    assert job.notice != Some(ReadingStale);
    ReachedIsTrusted(s.place, job.primitive.end);
    var s1 := s.(place := Place(Some(job.primitive.end), s.place.trace + [Reached(job.primitive.end)]));
    hide TalkKept, MovingKept, JobsKept, TasksKept, TrustKept, LifeKept, NoLiveJob, Ready, ShowWith, JobFits,
      BeginTheRun;
    if job.next.ToTheRun? { RunLands(s1, w); }
    else { ScreenLands(s1, w, job.next.screen, None, job.notice); }
  }

  lemma FreeTalk(t: Talk, job: Job, t1: Talk)
    requires TalkKept(t) && JobFits(t, job) && job.primitive.StartFree? && !t.stopFirst
    requires t1 == t.(instants := t1.instants)
    ensures job.next.ToScreen? && IsPress(job.next.screen)
    ensures job.primitive.way == if job.next.screen.CloseBottom? then Close else Open
    ensures TalkKept(t1.(shown := Shown(job.next.screen, None, None, None)))
  {
    hide Fitted, NothingToFit, WellFormed;
  }

  lemma PressArmed(t: Talk, e: Engine, e1: Engine)
    requires TasksKept(e) && NoLiveJob(e) && e1 == e.(press := e1.press, pressTimer := e1.pressTimer)
    requires e.movement == Some(Movement(Free, if t.shown.step.CloseBottom? then Close else Open))
    requires IsPress(t.shown.step) && e1.press.Some? && e1.pressTimer.Some? && t.instants.motorStart.Some?
    ensures TasksKept(e1) && NoLiveJob(e1) && MovingKept(t, e1)
  {
  }

  /** A free run under way: the screen waits for its press and the movement stays. */
  lemma FreeLands(s: State, w: World, job: Job, started: real)
    requires Idle(s) && TalkKept(s.talk) && JobFits(s.talk, job) && job.primitive.StartFree? && !s.talk.stopFirst
    requires MovesFor(s.engine.movement, job.primitive)
    ensures Settled(Goto(s.(talk := s.talk.(instants := s.talk.instants.(motorStart := Some(started)))), w, job.next,
                         job.notice))
  {
    hide TalkKept, MovingKept, JobsKept, TasksKept, TrustKept, LifeKept, NoLiveJob, JobFits;
    var talk := s.talk.(instants := s.talk.instants.(motorStart := Some(started), shownAt := Some(w.now)));
    FreeTalk(s.talk, job, talk);
    var shown := Shown(job.next.screen, None, None, None);
    var e := s.engine.(press := Some(if job.next.screen == OpenLift then LiftOffPress else EndStopPress),
                       pressTimer := Some(w.now + 90.0));
    PressArmed(talk.(shown := shown), s.engine, e);
    IdleJobs(talk.(shown := shown), e, s.place.at);
    PutLands(s.(talk := talk, engine := e), w, talk, shown);
  }

  lemma LiftTalk(t: Talk, job: Job, t1: Talk)
    requires TalkKept(t) && JobFits(t, job) && job.primitive.StopLift? && !t.stopFirst
    requires t1 == t.(instants := t1.instants, measured := t1.measured)
    requires t1.measured.descent == t.measured.descent && t1.measured.ascent == t.measured.ascent
    ensures job.next.ToTheLift? && t.instants.motorStart.Some? && t.instants.liftOff.Some?
    ensures Ready(t1, LiftCheck) && Ready(t1, LiftCheckLate) && Ready(t1, Problem(BadPoint))
  {
    hide Fitted, NothingToFit, WellFormed;
  }

  lemma LiftStoppedLands(s: State, w: World, job: Job, delivered: real, stopped: real)
    requires Idle(s) && TalkKept(s.talk) && JobFits(s.talk, job) && job.primitive.StopLift? && !s.talk.stopFirst
    requires s.engine.movement == None && s.engine.press == None
    ensures var i := s.talk.instants.(stopDelivered := Some(delivered), motorStopped := Some(stopped));
            Settled(Goto(s.(talk := s.talk.(instants := i)), w, job.next, job.notice))
  {
    hide TalkKept, MovingKept, JobsKept, TasksKept, TrustKept, LifeKept, NoLiveJob, Ready, JobFits, ShowWith,
      ShowProblem;
    var i := s.talk.instants.(stopDelivered := Some(delivered), motorStopped := Some(stopped));
    var t := s.talk.(instants := i);
    LiftTalk(s.talk, job, t);
    var slat := i.liftOff.value - i.motorStart.value;
    var late := delivered - i.liftOff.value > 1.0;
    var t1 := t.(measured := t.measured.(slatSeconds := Some(slat), liftRun := Some(stopped - i.motorStart.value),
                                         liftLate := late));
    LiftTalk(s.talk, job, t1);
    if slat < 0.0 { ProblemLands(s.(talk := t), w, BadPoint); }
    else { ScreenLands(s.(talk := t1), w, if late then LiftCheckLate else LiftCheck, None, None); }
  }

  lemma RanTalk(t: Talk, job: Job, report: real)
    requires TalkKept(t) && JobFits(t, job) && job.primitive.RunTo? && !t.stopFirst
    ensures job.next.ToScreen? && IsTapeForm(job.next.screen) && Ready(t.(report := Some(report)), job.next.screen)
  {
    hide Fitted, NothingToFit, WellFormed;
  }

  lemma RanLands(s: State, w: World, job: Job, report: real)
    requires Idle(s) && TalkKept(s.talk) && JobFits(s.talk, job) && job.primitive.RunTo? && !s.talk.stopFirst
    requires s.engine.movement == None && s.engine.press == None
    ensures Settled(Goto(s.(talk := s.talk.(report := Some(report))), w, job.next, job.notice))
  {
    RanTalk(s.talk, job, report);
    assert job.notice != Some(ReadingStale);
    hide TalkKept, MovingKept, JobsKept, TasksKept, TrustKept, LifeKept, NoLiveJob, Ready, JobFits, ShowWith;
    ScreenLands(s.(talk := s.talk.(report := Some(report))), w, job.next.screen, None, job.notice);
  }

  /** A live job in the middle of the turn that finishes it. */
  ghost predicate Finishing(s: State, job: Job) {
    Idle(s) && TalkKept(s.talk) && MovingKept(s.talk, s.engine) && JobFits(s.talk, job) && !s.talk.stopFirst
    && MovesFor(s.engine.movement, job.primitive)
  }

  lemma StilledIsIdle(s: State)
    requires Idle(s)
    ensures Idle(s.(engine := s.engine.(movement := None)))
  {
    hide TrustKept, LifeKept;
  }

  lemma NextOf(t: Talk, job: Job)
    requires JobFits(t, job)
    ensures (job.next.ToScreen? && IsPress(job.next.screen)) == job.primitive.StartFree?
  {
  }

  lemma DoneLands(s: State, w: World, job: Job, answer: Answer)
    requires Finishing(s, job) && answer.Done?
    ensures Settled(Conclude(s, w, job, answer, None))
  {
    NextOf(s.talk, job);
    LiveJobTalk(s.talk, s.engine, s.place.at, job);
    StilledIsIdle(s);
    hide TalkKept, MovingKept, Idle, JobFits, Settled, Goto;
    var s1 := s.(engine := s.engine.(movement := None));
    match job.primitive
    case Home(d) => HomedLands(s1, w, job);
    case StartFree(_) => FreeLands(s, w, job, answer.first);
    case StopLift => LiftStoppedLands(s1, w, job, answer.first, answer.second);
    case RunTo(_, _) => RanLands(s1, w, job, answer.first);
  }

  lemma FailedLands(s: State, w: World, job: Job, answer: Answer, error: Option<Reason>)
    requires Finishing(s, job) && !(error.None? && answer.Done?)
    ensures var r := Conclude(s, w, job, answer, error);
            (Settled(r) || Over(r)) && (r.engine.queued.Some? ==> r.engine.queued == s.engine.queued)
            && r.engine.pumping == s.engine.pumping
  {
    LiveJobTalk(s.talk, s.engine, s.place.at, job);
    StilledIsIdle(s);
    var s1 := s.(engine := s.engine.(movement := None));
    IdleJobs(s.talk, s1.engine, s.place.at);
    assert MovingKept(s.talk, s1.engine);
    hide TalkKept, MovingKept, JobsKept, TasksKept, TrustKept, LifeKept, NoLiveJob, Ready, JobFits;
    if error == Some(UnknownCover) {
      AsyncEndKeeps(s1, w, CoverGone, true);
    } else {
      ProblemIsProblem(s.talk, error.GetOr(Unknown));
      ProblemLands(s1, w, error.GetOr(Unknown));
    }
  }

  /** Only one movement can be queued or under way, and this was it. */
  lemma LoneJob(s: State, which: nat, job: Job)
    requires Settled(s) && which < |s.engine.tasks| && !s.engine.tasks[which].Looping?
    requires s.engine.tasks[which].job == job && Live(s.engine, job)
    ensures Finishing(TaskBecomes(s, which, Looping), job)
  {
    hide TrustKept, LifeKept, TalkKept;
    var e := TaskBecomes(s, which, Looping).engine;
    assert |e.tasks| == 1 && which == 0;
  }

  lemma DeadTaskKeeps(s: State, which: nat)
    requires (Settled(s) || Over(s)) && which < |s.engine.tasks|
    ensures Settled(TaskBecomes(s, which, Looping)) || Over(TaskBecomes(s, which, Looping))
  {
    hide TrustKept, LifeKept, TalkKept, JobFits;
    var e := TaskBecomes(s, which, Looping).engine;
    assert |e.tasks| == 1 && which == 0;
  }

  lemma AllLoop(s: State, which: nat)
    requires TasksKept(s.engine) && which < |s.engine.tasks|
    ensures forall i :: 0 <= i < |s.engine.tasks| ==> TaskBecomes(s, which, Looping).engine.tasks[i].Looping?
  {
  }

  lemma ErrorKeeps(s: State, error: Option<Reason>)
    requires forall i :: 0 <= i < |s.engine.tasks| ==> s.engine.tasks[i].Looping?
    ensures Settled(s) ==> Settled(s.(talk := s.talk.(error := error)))
    ensures Over(s) ==> Over(s.(talk := s.talk.(error := error)))
    ensures forall job :: Finishing(s, job) ==> Finishing(s.(talk := s.talk.(error := error)), job)
  {
    hide TrustKept, LifeKept, Fitted, NothingToFit, WellFormed, NoLiveTask, TasksKept;
  }

  /** A job that comes back is settled and handed over if it is still the one on the screen, and leaves
      nothing of itself but its error otherwise. */
  lemma CompleteKeeps(s: State, w: World, which: nat, job: Job, answer: Answer)
    requires Inv(s) && which < |s.engine.tasks|
    requires Overtaken(s, job) || (!s.engine.tasks[which].Looping? && s.engine.tasks[which].job == job)
             || Finishing(TaskBecomes(s, which, Looping), job)
    ensures Inv(Complete(s, w, which, job, answer))
  {
    var error := if answer.Done? then s.talk.error else ErrorOf(answer);
    var s0 := TaskBecomes(s, which, Looping);
    var s1 := s0.(talk := s.talk.(error := error));
    AllLoop(s, which);
    ErrorKeeps(s0, error);
    PumpedTask(s.engine);
    if Overtaken(s1, job) {
      DeadTaskKeeps(s, which);
    } else {
      if !Finishing(s0, job) { LoneJob(s, which, job); }
      assert Finishing(s1, job);
      hide Finishing;
      if error.None? && answer.Done? { DoneLands(s1, w, job, answer); ConcludePumps(s1, w, job, answer, error); }
      else { FailedLands(s1, w, job, answer, error); }
      hide Settled, Over;
    }
  }

  lemma PumpedTask(e: Engine)
    requires TasksKept(e) && |e.tasks| > 0
    ensures e.pumping
  {
  }

  lemma ConcludePumps(s: State, w: World, job: Job, answer: Answer, error: Option<Reason>)
    requires error.None? && answer.Done?
    ensures Conclude(s, w, job, answer, error).engine.pumping == s.engine.pumping
  {
  }

  lemma QueueTaken(s: State, job: Job)
    requires Settled(s) && s.engine.queued == Some(job) && s.engine.pumping
    ensures Settled(s.(engine := s.engine.(queued := None)))
    ensures Live(s.engine, job) ==>
              NoLiveJob(s.engine.(queued := None)) && MovesFor(s.engine.movement, job.primitive)
              && JobFits(s.talk, job)
              && (Measures(job.primitive) ==> s.place.at == Some(OtherEnd(job.primitive.way)))
    ensures Live(s.engine, job) && s.talk.stopFirst ==> job.primitive.Home?
  {
    hide TrustKept, LifeKept, Fitted, NothingToFit, WellFormed;
  }

  /** A job about to start: nothing else is live, and the session has forgotten where the shutter is. */
  ghost predicate Starting(s: State, job: Job) {
    && LifeKept(s.life) && !s.life.ended && TasksKept(s.engine) && NoLiveJob(s.engine)
    && TrustKept(s.place) && s.place.at == None
    && TalkKept(s.talk) && MovingKept(s.talk, s.engine) && JobFits(s.talk, job)
    && !s.talk.stopFirst && s.talk.error == None
    && MovesFor(s.engine.movement, job.primitive) && s.engine.queued == None && Live(s.engine, job)
    && (Measures(job.primitive) ==> LastMove(s.place.trace) == Some(Reached(OtherEnd(job.primitive.way))))
  }

  lemma StartingFrom(s: State, job: Job)
    requires LifeKept(s.life) && !s.life.ended && TasksKept(s.engine) && NoLiveJob(s.engine) && TrustKept(s.place)
    requires TalkKept(s.talk) && MovingKept(s.talk, s.engine) && JobFits(s.talk, job)
    requires MovesFor(s.engine.movement, job.primitive) && s.engine.queued == None && Live(s.engine, job)
    requires Measures(job.primitive) ==> s.place.at == Some(OtherEnd(job.primitive.way))
    ensures Starting(s.(talk := s.talk.(error := None, stopFirst := false), place := s.place.(at := None)), job)
  {
    hide Fitted, NothingToFit, WellFormed, TasksKept, NoLiveJob, LifeKept, RunsFromEndStops;
  }

  lemma TaskTaken(t: Talk, e: Engine, which: nat, task: Task)
    requires TasksKept(e) && NoLiveJob(e) && which < |e.tasks| && e.queued == None
    requires !task.Looping? && MovesFor(e.movement, task.job.primitive)
    requires Live(e, task.job) && JobFits(t, task.job) && !t.stopFirst && t.error == None
    requires task.Stopping? ==> task.job.primitive.Home?
    ensures var e1 := e.(tasks := e.tasks[which := task]);
            TasksKept(e1) && JobsKept(t, e1, None)
  {
  }

  lemma FrameIsTrusted(p: Place, h: Happening)
    requires TrustKept(p) && p.at == None
    requires h.FreeFrame? || h.RunFrame? ==> LastMove(p.trace) == Some(Reached(OtherEnd(h.way)))
    ensures TrustKept(p.(trace := p.trace + [h]))
  {
    TraceGrows(p.trace, h);
  }

  /** The frame of a measured run only goes out from the end stop the run starts at. */
  lemma LaunchKeeps(s: State, w: World, which: nat, job: Job)
    requires Starting(s, job) && which < |s.engine.tasks|
    ensures Inv(Launch(s, w, which, job))
  {
    if w.coverThere {
      TaskTaken(s.talk, s.engine, which, Driving(job));
      FrameIsTrusted(s.place, FrameOf(job.primitive));
      MovingIgnoresTasks(s.talk, s.engine, which, Driving(job));
      hide TalkKept, MovingKept, JobsKept, TasksKept, TrustKept, LifeKept, NoLiveJob, JobFits;
    } else {
      StartingIsSettled(s, job);
      StartingFinishes(s, which, job);
      hide Starting, Finishing, Settled, Over, Complete;
      CompleteKeeps(s, w, which, job, Failed(UnknownCover));
    }
  }

  lemma MovingIgnoresTasks(t: Talk, e: Engine, which: nat, task: Task)
    requires MovingKept(t, e) && which < |e.tasks|
    ensures MovingKept(t, e.(tasks := e.tasks[which := task]))
  {
  }

  lemma StartingIsSettled(s: State, job: Job)
    requires Starting(s, job)
    ensures Settled(s) && Inv(s)
  {
    IdleJobs(s.talk, s.engine, s.place.at);
    hide TalkKept, MovingKept, JobsKept, TasksKept, TrustKept, LifeKept, NoLiveJob, JobFits;
  }

  lemma StartingFinishes(s: State, which: nat, job: Job)
    requires Starting(s, job) && which < |s.engine.tasks|
    ensures Finishing(TaskBecomes(s, which, Looping), job)
  {
    hide TalkKept, TrustKept, LifeKept, JobFits;
  }

  lemma StartJobKeeps(s: State, w: World, which: nat, job: Job)
    requires Settled(s) && s.engine.queued == Some(job) && s.engine.pumping && which < |s.engine.tasks|
    ensures Inv(StartJob(s.(engine := s.engine.(queued := None)), w, which, job))
  {
    QueueTaken(s, job);
    var s0 := s.(engine := s.engine.(queued := None));
    if !Overtaken(s0, job) {
      hide TalkKept, MovingKept, JobsKept, TasksKept, TrustKept, LifeKept, NoLiveJob, JobFits;
      StartingFrom(s0, job);
      var s1 := s0.(talk := s0.talk.(error := None, stopFirst := false), place := s0.place.(at := None));
      if s0.talk.stopFirst && w.coverThere {
        TaskTaken(s1.talk, s1.engine, which, Stopping(job));
        FrameIsTrusted(s1.place, StopFrame);
        MovingIgnoresTasks(s1.talk, s1.engine, which, Stopping(job));
      } else {
        hide Starting, Settled;
        LaunchKeeps(s1, w, which, job);
      }
    }
  }

  /** A job back from its optional stop is a homing, and goes on as one. */
  lemma StoppedJobKeeps(s: State, w: World, which: nat, job: Job)
    requires Inv(s) && which < |s.engine.tasks| && s.engine.tasks[which] == Stopping(job) && !Overtaken(s, job)
    ensures Inv(Launch(s, w, which, job))
  {
    if w.coverThere {
      StoppedJob(s, which, job);
      FrameIsTrusted(s.place, FrameOf(job.primitive));
      hide TalkKept, MovingKept, JobsKept, TasksKept, TrustKept, LifeKept;
    } else {
      hide Settled, Over, Complete;
      CompleteKeeps(s, w, which, job, Failed(UnknownCover));
    }
  }

  lemma StoppedJob(s: State, which: nat, job: Job)
    requires Settled(s) && which < |s.engine.tasks| && s.engine.tasks[which] == Stopping(job) && Live(s.engine, job)
    ensures var e1 := s.engine.(tasks := s.engine.tasks[which := Driving(job)]);
            TasksKept(e1) && JobsKept(s.talk, e1, s.place.at) && MovingKept(s.talk, e1)
    ensures job.primitive.Home? && s.place.at == None
  {
    hide TrustKept, LifeKept, TalkKept, JobFits;
  }
}
