/** The step table of the session: what each screen is, what it offers and what it asks
    (calibration_session.py, SCREENS, PRESS_STEPS, TIMED_RUN_BRIEFS, FRACTION_STAGES). */
module Screens {
  import opened Wrappers
  import opened Plans

  datatype Route = First | Profile | Refine

  datatype Scope = TimesOnly | TimesAndRolls | PointsOnly

  /** Why a step could not be made. The last three have no screen of their own. */
  datatype Reason =
    | NoEcho | NotDelivered | NotStopped | Busy | BadPoint | Timeout | Unknown | Interrupted
    | UnknownCover | Advanced | NoPoints

  predicate IsProblemReason(r: Reason) {
    !(r.Interrupted? || r.UnknownCover? || r.Advanced? || r.NoPoints?)
  }

  /** The code the problem screen shows for a reason. */
  function CodeOf(r: Reason): Reason {
    if IsProblemReason(r) || r == Interrupted then r else Unknown
  }

  datatype Variant = Basic | Short | Correction | Precise

  datatype Screen =
    | ChoosePath | PathAWarning | PathBForm | PathCForm | RefineScope
    | Positioning(stage: Stage)  // the homing that opens a stage
    | HomeClosedDone
    | OpenBrief | OpenStarting | OpenLift | LiftStop | LiftCheck | LiftCheckLate | LiftGap | LiftEarly
    | OpenHomeAgain | ClosedAgain | OpenFullBrief | OpenFullStarting | OpenTop | OpenResult | OpenResultGap
    | HeightForm | HeightResult
    | CloseBrief | CloseStarting | CloseBottom | CloseResult
    | TapeBriefing | TapeRun | MeasureDescent | MeasureAscent | TapeResult
    | MeasureVerify | VerifyResult | VerifyOffering
    | NameForm | Summing(variant: Variant) | Problem(reason: Reason)

  datatype Action =
    | ChooseFirst | ChooseProfile | ChooseRefine | Begin | DoTimesOnly | DoTimesAndRolls | DoPointsOnly
    | ConfirmClosed | RepeatStep | NotRight
    | StartOpening | LiftedOff | LiftTooEarly | LiftAccept | LiftByTape | ConfirmClosedAgain
    | StartFullOpening | StoppedOpen | AcceptStep | RepeatMeasure | StartClosing | StoppedClosed
    | StartTape | RepeatTape | TapeNotRight | VerifyNow | SkipVerify | GoThorough | Submit

  datatype Field = ProfileField | HeightField | GapField | ReadingField | NameField

  datatype Mode = Armed | Setting | Running | Briefing | Reading | Checking | Reviewing

  function ModeOf(s: Screen): Mode {
    match s
    case ChoosePath | PathAWarning | PathBForm | PathCForm | RefineScope => Armed
    case Positioning(_) | OpenHomeAgain | TapeRun => Setting
    case OpenStarting | OpenLift | LiftStop | OpenFullStarting | OpenTop | CloseStarting | CloseBottom => Running
    case LiftGap | HeightForm | MeasureDescent | MeasureAscent | MeasureVerify => Reading
    case VerifyResult => Checking
    case Summing(_) => Reviewing
    case _ => Briefing
  }

  /** The menu options of a screen. */
  predicate Offers(s: Screen, a: Action) {
    match s
    case ChoosePath => a.ChooseFirst? || a.ChooseProfile? || a.ChooseRefine?
    case PathAWarning => a.Begin?
    case RefineScope => a.DoTimesOnly? || a.DoTimesAndRolls? || a.DoPointsOnly?
    case HomeClosedDone => a.ConfirmClosed? || a.RepeatStep? || a.NotRight?
    case OpenBrief => a.StartOpening? || a.RepeatStep?
    case OpenLift => a.LiftedOff? || a.RepeatStep? || a.NotRight?
    case LiftCheck | LiftCheckLate => a.LiftTooEarly? || a.LiftAccept? || a.LiftByTape? || a.NotRight?
    case LiftEarly => a.RepeatStep? || a.LiftByTape? || a.NotRight?
    case ClosedAgain => a.ConfirmClosedAgain? || a.RepeatStep? || a.NotRight?
    case OpenFullBrief => a.StartFullOpening? || a.RepeatStep?
    case OpenTop => a.StoppedOpen? || a.RepeatStep? || a.NotRight?
    case OpenResult | OpenResultGap | CloseResult => a.AcceptStep? || a.RepeatStep?
    case HeightResult => a.AcceptStep? || a.RepeatMeasure? || a.NotRight?
    case CloseBrief => a.StartClosing? || a.RepeatStep?
    case CloseBottom => a.StoppedClosed? || a.RepeatStep? || a.NotRight?
    case TapeBriefing => a.StartTape?
    case TapeResult => a.AcceptStep? || a.RepeatTape? || a.TapeNotRight?
    case VerifyResult => a.AcceptStep? || a.RepeatTape?
    case VerifyOffering => a.VerifyNow? || a.SkipVerify?
    case Summing(v) => a.GoThorough? && (v.Basic? || v.Correction?)
    case Problem(_) => a.RepeatStep?
    case _ => false
  }

  function FormOf(s: Screen): Option<Field> {
    match s
    case PathBForm | PathCForm => Some(ProfileField)
    case LiftGap => Some(GapField)
    case HeightForm => Some(HeightField)
    case MeasureDescent | MeasureAscent | MeasureVerify => Some(ReadingField)
    case NameForm => Some(NameField)
    case _ => None
  }

  predicate AfterAMovement(s: Screen) {
    match s
    case ChoosePath | PathAWarning | PathBForm | PathCForm | RefineScope => false
    case OpenBrief | OpenFullBrief | HeightForm | CloseBrief | TapeBriefing | VerifyOffering | NameForm => false
    case Summing(_) | Problem(_) => false
    case _ => true
  }

  /** How long the lease waits on a screen, in seconds. */
  function Patience(s: Screen): real { if AfterAMovement(s) then 600.0 else 1800.0 }

  /** Screens up during a free run, until its press or its clock. */
  predicate IsPress(s: Screen) { s.OpenLift? || s.OpenTop? || s.CloseBottom? }

  /** The screens of a movement under way: they offer nothing and ask nothing. */
  predicate IsMoving(s: Screen) {
    s.Positioning? || s.OpenStarting? || s.LiftStop? || s.OpenHomeAgain? || s.OpenFullStarting? || s.CloseStarting?
    || s.TapeRun?
  }

  predicate IsTapeForm(s: Screen) { s.MeasureDescent? || s.MeasureAscent? || s.MeasureVerify? }

  function FractionOf(s: Stage): real {
    match s
    case QuarterDown | QuarterUp => 0.25
    case ThreeQuarterDown | ThreeQuarterUp => 0.75
    case Verify => 0.4
    case _ => 0.5
  }

  /** The form a reading ends on. */
  function FormAfter(s: Stage): Screen {
    if s == Verify || s == VerifyB then MeasureVerify
    else if RunDirection(s) == Close then MeasureDescent else MeasureAscent
  }

  /** Running and positioning screens are the ones an outside movement interrupts. */
  lemma MovingOrPress(s: Screen)
    ensures ModeOf(s).Running? || ModeOf(s).Setting? <==> IsMoving(s) || IsPress(s)
    ensures IsMoving(s) ==> FormOf(s) == None && forall a :: !Offers(s, a)
  {
  }
}
