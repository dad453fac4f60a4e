# The guided cover calibration, modelled and proved in Dafny

This project models the guided calibration of a MyHOME cover and proves what it keeps. A session walks a
user through a plan of stages in front of one shutter: it homes the shutter, times it against presses, runs
it to fractions of its travel and asks for a tape reading, fits a travel model to what it was told, shows a
review and writes the result into the store. `dafny verify dfyconfig.toml` checks all of it.

## The modules

- `Plans` the stages, the plans and the dealing out of the tape readings; `Screens` the step table.
- `Session` one session as a value and every turn of the event loop as a function on it. `Turn` is the whole
  machine: the verbs of several clients, the press and lease timers, movements the bus reports, unload,
  endings and saves that come back from where they were suspended, and the pump task, whose turns are
  split where the source awaits.
- `GuidedCalibration` the same session as the source writes it, an object updated in place, its forty fields
  grouped into the records of `Session`, one method for each of the source's; every method is tied to the
  function of `Session` it carries out.
- `SessionInvariant`, `SessionProof`, `SessionTurns` the invariant and its proof, turn by turn;
  `SessionEffects` what one screen put up changes outside the conversation.
- `Revisions`, `Endings`, `Leases`, `Movements`, `Safety`, `Readings`, `Runs`, `Ownership`, `StopHalves` the
  results about whole runs; `Steps`, `Acts`, `Interruptions` what single turns and short sequences of them
  promise: what is queued and what comes of a job, what each act leads to, what stops a run and what starts one;
  `Witnesses` concrete runs that show what the results leave open does happen.
- `RollModel`, `RollFit`, `Measurements` the roll model, the fit and what a conversation makes of it, in exact
  real arithmetic. The square root is a function handed in of which only `IsSquareRoot` is required.
- `StoredRecords`, `CalibrationStores`, `Resolution` the records and their read-back, the store and its exact
  undo, the precedence of the numbers, and the review against the save; `Reviews` the review of a session that
  has come to its summary.

## What the proofs found in the code

- A known position does not mean that the last thing written was a movement: a `stop` with no movement on the
  screen writes its frame and keeps the position (`StopIsNotAlwaysAMove`), and so does the stop of an ending
  that has not come back yet (`EndingStopKeepsThePosition`). The position is right in both cases if nothing was
  moving, which is what `RunsStartAtEndStops` says: idle stops and the stops of endings are passed over.
- Two acts pass the four guards and leave the revision as it was: a profile that nobody defines, refused after
  the session has changed hands, and the adoption of times of a cover that is gone while an entity for it
  still moves. `ActCounts` shows these are the only two, `OneActPerRevision` that a second act can follow them
  and no others, and `UndefinedProfileLeavesTheRevision` and `AdoptionLeavesTheRevision` are runs of both.
- A live session can be without a lease, while the ending its own timer began waits for its stop; a verb in that
  window arms it again, and the ending still comes (`ArmedAgainAndEnded`). `UnarmedExactly` says when.
- A press that came too late or out of order leaves its movement behind the problem screen, a late one its
  press timer too. The invariant says so, and `LatePressLeavesItsMovement` is a run to such a screen.
- The dealing of the readings does not always home the shutter least: with the travel read first it starts
  from where the shutter stood before that reading. It is least exactly when the shutter stood at the top, or no
  reading starts there, or the first of the plan does and none starts where the shutter stood
  (`OrderAfterTheTravel`); `ThoroughTravelHomesTooOften` is the plan that shows it.
- The correction of the run time keeps the meaning of the fit exactly for readings whose run was no longer
  than the configured curtain time, or when the scale is at least 1 (`CorrectedModelKeepsTheFit`);
  `LongRunsPartTheModels` is a reading on which the two are 20 cm apart.
- The gap correction is exact for a roll of 1; between 1 and the linear tolerance the position is linear and the
  speed is not, and the shortfall is t (k-1) / 2 there instead (`Shortfall`).
- `stop` waits for the bus and then goes on without looking again. The results about whole runs hold with
  its two halves in one turn; `LateStopIsSafeExactly` says for which runs in between they still would, and
  `RepeatExposesAMovement` goes through one for which they would not.

## Model

Source paths are relative to the root of the repository.

| member | source | states |
|---|---|---|
| `SessionTurns.RunKeeps` | custom_components/myhome/calibration_session.py:760-2653 | from what `begin` publishes, every sequence of verbs, timers, outside movements, endings and pump turns, in any worlds, keeps the whole invariant of a session |
| `SessionTurns.TurnKeeps` | custom_components/myhome/calibration_session.py:1113-2653 | each single turn of each of the fifteen sources keeps it, live or ended |
| `SessionTurns.BornKept` | custom_components/myhome/calibration_session.py:938-973 | a session is born in it, whichever path it is begun on |
| `Safety.OneMovement` | custom_components/myhome/calibration_session.py:2142-2261 | over every run: at most one pump task; at most one job that nothing has overtaken, queued or in flight but not both; while there is one the movement the session says is under way is its own, kind and direction, the screen is a movement's and every act is refused and changes nothing |
| `Safety.QueueIsNotOverwritten` | custom_components/myhome/calibration_session.py:2178-2196 | no turn puts another job in the place of a live queued one |
| `Movements.TurnStarts` | custom_components/myhome/calibration_session.py:2199-2243 | a turn sends at most one movement frame, it is the frame of a job nothing has overtaken, and only a turn of the pump sends one |
| `Movements.OvertakenJobIsInert` | custom_components/myhome/calibration_session.py:2244-2248 | an overtaken job that comes back changes nothing but the stored error: not the conversation, the owner, the position or the history |
| `Movements.OvertakenNeverStarts` | custom_components/myhome/calibration_session.py:2217-2232 | a job that was overtaken before it began never starts its primitive, in any later run |
| `Safety.NeverStuck` | custom_components/myhome/calibration_session.py:249-344 | over every run of a session with no ending under way: a movement screen has a live job and a running pump behind it; a press screen has its timer armed; a summary has a target that a save passes every guard for, from any client that may act; any other screen offers an action or a form |
| `Safety.RunsStartAtEndStops` | custom_components/myhome/calibration_session.py:2105-2139 | over every run: each frame of a measured run went out when the last movement, stop or outside event was a completed homing or an accepted press at the end stop that run starts from; and a known position always means exactly that |
| `Safety.IdleStopKeepsThePosition` | custom_components/myhome/calibration_session.py:1151-1184 | a stop with no movement on the screen is written and leaves the position, the screen and the queue as they were |
| `Safety.PlanAndReadings` | custom_components/myhome/calibration_session.py:381-389 | over every run: the index is inside a plan that ends in its only summary, the screen belongs to the stage pointed at, nothing escapes uncaught, and each list of readings holds one entry per fitting stage of its direction before the index, plus one only while its own result is shown |
| `Readings.ReadingsHaveTheirStages` | custom_components/myhome/calibration_session.py:1617-1638 | over every run of a live session, for every entry i of the readings of a direction: some turn took it off the tape, by a client that got through, at the fitting stage of that direction with i such before it; its seconds are those that the run of that very stage came back with in an earlier turn; and that stage still stands where it stood in the plan, with every fitting stage before it |
| `Readings.TurnSteps` | custom_components/myhome/calibration_session.py:1350-1638 | a turn that a session lives through takes exactly such a reading, or stores what the run of the stage it is at came back with, or adds no reading, keeps a report only with its stage, and while any reading is left keeps every fitting stage up to the index where it was |
| `Runs.RunsGoWhereTheyAreAimed` | custom_components/myhome/calibration_session.py:381-389 | over every run: a live run to a fraction, queued or in flight, is the one of the reading at the index, its way and 0.25, 0.5, 0.75 or 0.4 of its time by the stage; for path B's check the part that spent half the travel in the turn that entered it, the reading, its place in the plan and its aim being the same at every moment since |
| `Runs.AcceptedPressIsItsRun` | custom_components/myhome/calibration_session.py:1517-1551 | over every run: a press accepted at an end stop stores its instant less the start that its own free run came back with, in an earlier turn since which the screen, the place in the plan and that start were the same at every moment |
| `Runs.LiftIsTimedByItsPress` | custom_components/myhome/calibration_session.py:2283-2363 | over every run: the stop of the lift-off run leaves as slat phase the instant of the one press that got through less the start its run came back with, as lift-off run where the motor stopped less that start, and is late exactly when delivered more than a second after that press; a press before the start is a problem |
| `Runs.TurnComes` | custom_components/myhome/calibration_session.py:1350-2261 | a turn that a session lives through leaves the same reading with the same aim, or one just entered and aimed by that turn; the same press from the same start, or one whose run has just come back; the same stop of the lift-off, or the one its press has just ordered; and no instant of a lift-off before its press |
| `Acts.WalkingActs` | custom_components/myhome/calibration_session.py:1441-1568 | every act that walks the plan enters exactly the stage it points at: the next one, path B's check first where it is asked for, or the same again; homed anyway and stopped first exactly where the act says so; with the readings of the stages before it and no others, and a new ascent or a travel to be read again without what they measured before |
| `Acts.BeginningActs` | custom_components/myhome/calibration_session.py:1365-1439 | every choice that begins a plan begins its own, listed stage by stage, at its first stage or in the place of the summary; path A with nothing measured, a correction of the points with the times in use taken over, opening for opening and closing for closing |
| `Acts.OtherActs` | custom_components/myhome/calibration_session.py:1361-1558 | the acts that choose a path, go on inside a stage or press at the lift-off: the screen, and what is forgotten; the shutter closed again by a homing unless it is known to be closed; the press in time orders the stop and is the instant of the lift-off, and 90 seconds late is a problem over the run |
| `Acts.FormActs` | custom_components/myhome/calibration_session.py:1570-1789 | every form: a travel from 20 to 500 cm and a gap from 1 to 50 cm are stored and nothing else, a smaller gap means the press came early, a name goes on and a profile begins its plan or its correction; the tape of a check is compared with half the travel on path B and with the prediction otherwise, kept with the fraction of its own run, and offers the correction on path B exactly beyond 4.05 cm; a value refused changes only the error on the form |
| `Acts.PathsOnOffer` | custom_components/myhome/calibration_session.py:1298-1318 | the first path is always on offer, the other two if and only if there is a profile |
| `Acts.BornShows` | custom_components/myhome/calibration_session.py:938-973 | the screen, the choice, the travel and the lease a session begins with, by the path it is asked for on |
| `Acts.BriefingDealsTheTape` | custom_components/myhome/calibration_session.py:1998-2013 | the stages dealt out again are exactly the ones of the tape right behind the briefing, from where the shutter is; everything before and after them stands |
| `Interruptions.StopBringsToRest` | custom_components/myhome/calibration_session.py:1151-1184 | a stop over a movement takes the session, writes its frame and leaves nothing live behind a problem that says what came of it, no position and every number; without one it touches nothing but the owner and the lease |
| `Interruptions.PressRunsOut` | custom_components/myhome/calibration_session.py:2467-2475 | the clock of a press brings its run to rest behind the timeout; without a press it is only taken away |
| `Interruptions.RestInterruptsTheLift` | custom_components/myhome/calibration_session.py:2491-2509 | a shutter that comes to rest interrupts a session exactly while the press of the lift-off is waited for |
| `Interruptions.QueueStarts` | custom_components/myhome/calibration_session.py:2191-2232 | a pump that looks at its queue ends without one, forgets an overtaken job, and starts a live one: a stop first exactly where one is owed, else the frame of its own primitive, with the position forgotten |
| `Interruptions.StopComesBack` | custom_components/myhome/calibration_session.py:2217-2232 | back from the stop that was owed a live job goes out, whatever the bus said of the stop; any other failure is a problem |
| `SessionProof.ReorderingKeeps` | custom_components/myhome/calibration_session.py:1998-2013 | dealing the readings out again moves no stage before them, moves no summary and fits nothing new |
| `SessionProof.GraftKeeps` | custom_components/myhome/calibration_session.py:1441-1445 | grafting path B's check keeps the plan well formed and puts the check right after the index |
| `SessionProof.TailKeeps` | custom_components/myhome/calibration_session.py:1823-1839 | replacing the tail at the summary keeps everything walked and is well formed |
| `SessionProof.EnterLands` | custom_components/myhome/calibration_session.py:1850-1870 | entering any stage of a kept plan ends on a kept screen and never falls off the plan |
| `SessionProof.TimedRunLands` | custom_components/myhome/calibration_session.py:2105-2139 | a timed run started from its brief keeps the invariant, from wherever the shutter is |
| `SessionProof.LaunchKeeps` | custom_components/myhome/calibration_session.py:2217-2232 | the frame of a measured run only goes out from the end stop the run starts at |
| `SessionProof.CompleteKeeps` | custom_components/myhome/calibration_session.py:2244-2261 | a job that comes back keeps the invariant: done, failed, or overtaken |
| `SessionProof.AsyncEndKeeps` | custom_components/myhome/calibration_session.py:2558-2575 | an ending keeps the invariant, with a stop to write and without |
| `Steps.ActQueues` | custom_components/myhome/calibration_session.py:1133-1149 | every act that gets through: it ends the session only when it adopts times that are gone with no stop to wait for; otherwise it ends on a movement screen if and only if it queued a job that carries the current generation; a pump is then running, the job is the one the screen shows and the only live one; on any other screen nothing is live |
| `Steps.StageOpens` | custom_components/myhome/calibration_session.py:1872-2061 | a stage that opens with a homing queues it if and only if the session has not just put the shutter at that end stop, or was told to home anyway; a reading is aimed at its own run, way and part of its time, path B's check at the part that spends half the travel in that turn; skipped, it queues that run from the end stop it starts at, and any other stage shows its screen with nothing under way; the position is kept |
| `Steps.TimedRunHomesFirst` | custom_components/myhome/calibration_session.py:2105-2139 | a timed run is queued exactly from its own end stop; from anywhere else the homing there is, and it comes back to the screen the run was asked for on, with the notice that says so |
| `Steps.RehomedThenRuns` | custom_components/myhome/calibration_session.py:2105-2261 | four turns: away from the end stop the first press sends the shutter there, the step comes back with its notice and the position known, and a second press sends the run |
| `Steps.JobComesBack` | custom_components/myhome/calibration_session.py:2233-2261 | a job nothing has overtaken comes back with two answers: a homing leaves the position, a free run its press with the clock armed and the motor start that is the first answer, a run to a fraction its seconds, a reading's homing that reading's own run queued, the stop of the lift-off run the slat phase, the run up to where the motor stopped by the second answer, and the late screen if and only if the first came more than a second after the press, or a problem without a number; a cover that is gone begins the ending; any other failure is its own problem with nothing live, nothing measured and no position |
| `Steps.EndingComes` | custom_components/myhome/calibration_session.py:2558-2653 | an ending without a stop to write ends the session there and then with nothing moving, queued or owned; with one it leaves nothing live and, once back, ends a live session for its reason whatever the world is by then; an ended session is left exactly as it is |
| `Steps.PressAtTheEndStop` | custom_components/myhome/calibration_session.py:1517-1551 | a press at an end stop: too late, it leaves the run, the press and its timer; out of order it is taken back over the running run; in neither case is anything measured or known; accepted, the position is known and the one time of that direction is its run since the motor started, for an opening no shorter than the slat phase stored with it; it never escapes |
| `Steps.ReadingGoesToItsStage` | custom_components/myhome/calibration_session.py:1617-1638 | a tape reading is refused if and only if it is no number, negative, above the travel or of a run that reported nothing, and then only the error on the form changes; taken, it is appended with its seconds to the list of the direction of the stage at the index, at the place of the fitting stages before it, and nothing else measured changes |
| `Steps.OutsideMovement` | custom_components/myhome/calibration_session.py:2490-2544 | a movement in the direction of the one under way is the session's own and changes nothing; any other takes the position away and is published; it leaves nothing live behind an interrupted movement or press, leaves a tape form nothing of its menu but the run again, and leaves any other screen; nothing measured is lost |
| `Revisions.EqualRevisions` | custom_components/myhome/calibration_session.py:2924-2936 | over any run the revision never decreases, and two moments with the same revision have the same conversation: path, plan, index, screen, problem, notice, form error, measurements, review, check, press and outcome |
| `Revisions.OneActPerRevision` | custom_components/myhome/calibration_session.py:1133-1149 | after an act has got through on a revision no act on that revision does anything, whoever sends it and whatever happens in between, if and only if the act is not one of the two that leave the revision; after one of those its own client can have a second act carried out on it |
| `Revisions.ActCounts` | custom_components/myhome/calibration_session.py:1133-1149 | an act that passes the four guards publishes exactly one revision, but for exactly two, which publish none and leave the conversation as it was: one that names a profile nobody defines, and one whose cover is gone while its stop is written |
| `Revisions.RefusedAct` | custom_components/myhome/calibration_session.py:1058-1110 | an act that any of the four guards refuses changes nothing at all |
| `Endings.EndsOnce` | custom_components/myhome/calibration_session.py:2596-2653 | whatever save, cancel, leave, lease, cover-gone and unload race: once ended at some moment, outcome, owner, measurements, plan, queue, timers, revision and the shutter's history are the same at every later moment |
| `Endings.HeldWhileLive` | custom_components/myhome/calibration_session.py:2409-2437 | over every run: the claim is open exactly while the session is live; after the end there is no owner, timer, queue, movement or position; before it the lease is armed unless the ending its own timer began is waiting for its stop |
| `Endings.AfterTheEnd` | custom_components/myhome/calibration_session.py:2596-2653 | the same from any ended state: nothing changes but the error of a movement still out and the coroutines still suspended |
| `Endings.TurnEnds` | custom_components/myhome/calibration_session.py:2409-2437 | a live session ends in a turn exactly when, and for exactly the reason, a reference table over the events says: with all it measured where it was saved, and emptied of every number, plan and review otherwise; in every turn it lives through with its lease armed, the lease stays armed unless the turn is the lease's own timer |
| `Endings.TurnReserves` | custom_components/myhome/calibration_session.py:2578-2594 | the gateway is reserved in exactly the turns that end a session, other than by a save, while a movement of its own is under way and the shutter travels on, and until a full run from then |
| `Leases.TurnLeases` | custom_components/myhome/calibration_session.py:2411-2437 | the lease of a session that lives through a turn: gone after its own timer; started anew, half an hour or ten minutes by the screen the turn leaves, if and only if the turn published a revision or let an act, a stop or a save through; and otherwise the one it was |
| `Leases.UnarmedExactly` | custom_components/myhome/calibration_session.py:2409-2487 | over every run: a live session has no lease if and only if the lease's timer ran out in some turn and no later turn started it again; and then the ending that timer began waits for its stop |
| `Endings.FirstBackWins` | custom_components/myhome/calibration_session.py:2558-2582 | of two endings waiting for their stops the one that comes back first gives the outcome |
| `Ownership.OthersChangeNothing` | custom_components/myhome/calibration_session.py:1058-1090 | while the owner is present no other client's verb without claim or force changes anything |
| `Ownership.SilentOwnerIsNoBar` | custom_components/myhome/calibration_session.py:1058-1123 | without a claim a client takes a live session, and is not refused for its owner's sake, if and only if nobody owns it, it does itself, or the owner has been silent for 45 seconds |
| `Ownership.HeartbeatNeverAcquires` | custom_components/myhome/calibration_session.py:1126-1131 | a heartbeat never changes the owner, and changes nothing at all unless it is the owner's |
| `Ownership.TurnOwns` | custom_components/myhome/calibration_session.py:1077-1090 | a turn other than a leave changes the owner only by letting the client of its own verb in, or by ending the session |
| `Ownership.BeatingOwnerKeepsTheSession` | custom_components/myhome/calibration_session.py:1018-1131 | over any run in which the owner never lets 45 seconds go by without a heartbeat, it loses a live session only to a claim, a force, its own leave or an ending |
| `StopHalves.LateStopExposesTheMovement` | custom_components/myhome/calibration_session.py:1176-1184 | a stop that came back over a movement begun meanwhile would show a problem screen that offers the step again with the movement still live |
| `StopHalves.LateStopIsSafeExactly` | custom_components/myhome/calibration_session.py:1167-1184 | whatever turns come between the two halves of a stop, the second leaves a live session in the invariant if and only if no movement is live by then, a plan is being walked and no reading has just been taken; with none in between the two halves are the stop of the machine |
| `StopHalves.RepeatedBeforeTheStopReturns` | custom_components/myhome/calibration_session.py:1167-1184 | from any problem screen with its movement still there, a step repeated between the two halves is such a movement |
| `StopHalves.LateStopPublishesAfterTheEnd` | custom_components/myhome/calibration_session.py:1176-1184 | a stop that came back after the end would publish a problem screen on an ended session |
| `Witnesses.StopIsNotAlwaysAMove` | custom_components/myhome/calibration_session.py:1167-1184 | a run of four turns after which the position is known although the last thing written is a stop: why the statement about known positions passes over idle stops |
| `Witnesses.EndingStopKeepsThePosition` | custom_components/myhome/calibration_session.py:2558-2575 | the same with the stop of an ending that is not back |
| `Witnesses.ArmedAgainAndEnded` | custom_components/myhome/calibration_session.py:2477-2487 | a run that leaves a live session without a lease, a verb that arms it again, and the ending that still comes |
| `Witnesses.UndefinedProfileLeavesTheRevision` | custom_components/myhome/calibration_session.py:1640-1663 | a run in which a profile nobody defines leaves the revision, and the same act is carried out on it once the profile is defined |
| `Witnesses.AdoptionLeavesTheRevision` | custom_components/myhome/calibration_session.py:1401-1435 | a run in which the adoption of times that are gone leaves the revision, and another scope is taken on it |
| `Witnesses.LatePressLeavesItsMovement` | custom_components/myhome/calibration_session.py:1488-1506 | a run of eight turns to a problem screen with its movement still going: the lift-off press 91 seconds after its screen |
| `Witnesses.RepeatExposesAMovement` | custom_components/myhome/calibration_session.py:1167-1184 | from that state a stop, a repeat before it is back and its return put a problem screen over a live movement, in any worlds and for any answer |
| `GuidedCalibration.CalibrationSession.constructor` | custom_components/myhome/calibration_session.py:938-973 | the object as `begin` publishes it, in the invariant |
| `GuidedCalibration.CalibrationSession.Act` | custom_components/myhome/calibration_session.py:1133-1149 | the turn of an act on the object is the turn of the machine, the refusal is the first guard that refuses, and the invariant is kept |
| `GuidedCalibration.CalibrationSession.Stop` | custom_components/myhome/calibration_session.py:1151-1184 | likewise for a stop, both halves in one turn |
| `GuidedCalibration.CalibrationSession.Attach` | custom_components/myhome/calibration_session.py:1113-1123 | likewise for an attach, with or without a claim |
| `GuidedCalibration.CalibrationSession.Heartbeat` | custom_components/myhome/calibration_session.py:1125-1131 | likewise for a heartbeat, and it answers whether the client is the owner |
| `GuidedCalibration.CalibrationSession.Leave` | custom_components/myhome/calibration_session.py:1187-1215 | likewise for a leave |
| `GuidedCalibration.CalibrationSession.Cancel` | custom_components/myhome/calibration_session.py:1217-1229 | likewise for a cancel, forced or not |
| `GuidedCalibration.CalibrationSession.Save` | custom_components/myhome/calibration_session.py:1231-1255 | likewise for a save up to its write, and the refusal is the first guard that refuses |
| `GuidedCalibration.CalibrationSession.SaveReturns` | custom_components/myhome/calibration_session.py:1256-1290 | likewise for a save that comes back from the store, to a session that may have ended |
| `GuidedCalibration.CalibrationSession.PressExpired` | custom_components/myhome/calibration_session.py:2467-2475 | likewise for the press timer |
| `GuidedCalibration.CalibrationSession.LeaseExpired` | custom_components/myhome/calibration_session.py:2477-2487 | likewise for the lease timer |
| `GuidedCalibration.CalibrationSession.CoverMoves` | custom_components/myhome/calibration_session.py:2490-2509 | likewise for a movement the bus reports |
| `GuidedCalibration.CalibrationSession.CoverRests` | custom_components/myhome/calibration_session.py:2505-2509 | likewise for a shutter that stops before the lift-off press |
| `GuidedCalibration.CalibrationSession.Unloading` | custom_components/myhome/calibration_session.py:746-757 | likewise for an unload |
| `GuidedCalibration.CalibrationSession.EndingReturns` | custom_components/myhome/calibration_session.py:2572-2582 | likewise for an ending that comes back from its stop |
| `GuidedCalibration.CalibrationSession.TaskTurn` | custom_components/myhome/calibration_session.py:2191-2261 | likewise for one turn of the pump: taking the queue, back from the optional stop, or back from the primitive |
| `GuidedCalibration.CalibrationSession.ReadTapePhase` | custom_components/myhome/calibration_session.py:1998-2006 | the loop over the plan collects exactly the readings that follow the briefing |
| `Plans.OrderTheReadings` | custom_components/myhome/calibration_flow.py:370-391 | the pick, remove, append loop deals exactly the promotion of the reading that starts where the shutter stands |
| `Plans.OrderIsAPromotion` | custom_components/myhome/calibration_flow.py:370-391 | a permutation; fixed readings keep their place, and the others their relative order but for the one promoted |
| `Plans.OrderHomesLeast` | custom_components/myhome/calibration_flow.py:354-391 | without a travel reading in the phase, no other dealing homes the shutter less often |
| `Plans.OrderAfterTheTravel` | custom_components/myhome/calibration_flow.py:354-391 | with the travel read first the dealing homes least if and only if the shutter stood at the top, or no reading starts there, or the first planned one does and none starts at the end stop the shutter stood at: all told before it is made; a phase that starts with a fixed stage is always least |
| `Plans.ThoroughTravelHomesTooOften` | custom_components/myhome/calibration_flow.py:315-315 | and it is not least for the thorough plan with the travel, walked from the closed end stop |
| `RollModel.XOfTau` | custom_components/myhome/calibration.py:119-134 | descending for the time it takes to get to x gets to x, for every roll |
| `RollModel.TauOfX` | custom_components/myhome/calibration.py:119-134 | the time it takes to get where a descent of tau gets is tau, for every roll |
| `RollModel.RollXIsTheCurve` | custom_components/myhome/calibration.py:128-134 | beyond the linear tolerance the position is tau (2k - tau (k-1)) / (k+1) |
| `RollModel.RollXGrows` | custom_components/myhome/calibration.py:128-134 | a longer descent ends strictly lower |
| `RollModel.PredictionFallsWithRoll` | custom_components/myhome/calibration.py:414-430 | the predicted height falls as the roll grows, in both directions and across the linear tolerance |
| `RollModel.HalfTravelIsHalf` | custom_components/myhome/calibration_session.py:416-435 | the seconds aimed at half the travel put the model's bar at exactly half the travel, in both directions, if and only if the curtain time is at least the 1 ms floor |
| `RollModel.FractionSpendsTheSeconds` | custom_components/myhome/calibration_session.py:438-462 | a fraction is given exactly when the cover has a curtain time and a run of that fraction, in (0, 1], spends exactly those seconds |
| `RollModel.CheckRunsToHalf` | custom_components/myhome/calibration_session.py:1941-1966 | the fraction worked out for the cover as configured runs the motor for the seconds that put the checked model's bar at half the travel |
| `RollModel.SlatTimeFromGap` | custom_components/myhome/calibration.py:353-393 | refused exactly without a travel or a curtain time, and always within the lift-off run |
| `RollModel.GapCorrectionIsOneSided` | custom_components/myhome/calibration.py:324-393 | after a true rise of t seconds the correction is the true slat phase less t^2 (k-1) / (2 Tc), never less than nothing and never more than the truth |
| `RollFit.FitRollOnly` | custom_components/myhome/calibration.py:473-490 | with w the width of the last bracket halved, every roll in range below the answer less w predicts above the tape and every one above the answer plus w at or below it |
| `RollFit.NarrowingKeepsTheWinner` | custom_components/myhome/calibration.py:544-553 | clamping never cuts a step in two: the next box is a whole number of its own steps inside the bounds, and the winner is one of its samples; a box of width nothing included |
| `RollFit.SearchTheGrid` | custom_components/myhome/calibration.py:528-553 | the nested loops compute the rounds of the specification |
| `RollFit.BestOf` | custom_components/myhome/calibration.py:533-541 | the winner of a round is no worse than any of its cells |
| `RollFit.SearchIsLeast` | custom_components/myhome/calibration.py:528-558 | the answer lies in both bounds and its sum of squares is no worse than any of the 845 pairs sampled in the five rounds |
| `RollFit.FitDirection` | custom_components/myhome/calibration.py:493-558 | the refusals in their order; one point: scale 1 and the roll that the halvings bracket, within a 2^61st of the range on both sides; more: a pair in bounds with its own residuals, no worse than any of the 845 pairs sampled |
| `RollFit.FitFromRun` | custom_components/myhome/calibration.py:582-613 | each reading becomes the share of the curtain time that moved the bar, and the fit of those is the bracketed or the least one; refused for a bad measurement exactly when one of the readings is none, and for no measurement exactly without one |
| `RollFit.CorrectedModelKeepsTheFit` | custom_components/myhome/calibration.py:396-410 | predicted with the corrected run time, a reading deviates by exactly minus its residual, if and only if its run was no longer than the configured curtain time or the scale is at least 1 |
| `RollFit.LongRunsPartTheModels` | custom_components/myhome/calibration.py:396-410 | a reading of which that is false: 20 s of a close configured for 10 s, at a scale of 0.8, on which the two models are 20 cm apart |
| `Measurements.StoredFitMeansTheSame` | custom_components/myhome/calibration.py:571-635 | the same of every reading of every fit the conversation makes |
| `Measurements.FitBoth` | custom_components/myhome/calibration_measure.py:428-452 | both directions on one slat phase, each fit the best of its readings over the physical rolls and the scales, bracketed for one reading and no worse than the 845 sampled pairs for more, at scale 1 for adopted times; refused exactly when a direction has no reading or one that is no measurement |
| `Measurements.Fits` | custom_components/myhome/calibration_measure.py:475-495 | nothing exactly when a run, the travel or a list of readings is missing; refused exactly when a reading is no measurement on the slat phase of the press, or an ascent is over before the slat phase the gap refines it to; otherwise the fits of both directions on the refined slat phase, each the best of its readings, which is the one of the press or one within the taped run |
| `Measurements.SlatFromGap` | custom_components/myhome/calibration_measure.py:455-472 | the press's own slat phase where no gap was taped, else one within the lift-off run |
| `Measurements.GapRefinesTheAscent` | custom_components/myhome/calibration_measure.py:455-495 | the gap is put into seconds with the run of the lift-off and the roll and curtain time of the ascent as first fitted on the slat phase of the accepted opening |
| `Measurements.AdoptedTimesAreKept` | custom_components/myhome/calibration_measure.py:236-261 | adopted times come out of the fit as they went in |
| `CalibrationStores.UndoIsExact` | custom_components/myhome/calibration_store.py:760-801 | for any contents and any of the six writes, restoring the before-image of the touched records gives back exactly the profiles, covers and order there were |
| `CalibrationStores.UndoTouchesNothingElse` | custom_components/myhome/calibration_store.py:760-801 | and touches no other key, whatever has been written to them meanwhile |
| `CalibrationStores.ChangesTouch` | custom_components/myhome/calibration_store.py:736-897 | which records each write may touch |
| `CalibrationStores.OrderStaysNormal` | custom_components/myhome/calibration_store.py:736-758 | the stored order is normalised after every write |
| `CalibrationStores.CalibrationStore.Restore` | custom_components/myhome/calibration_store.py:760-801 | the loops put every record of the patch back or take it out, and say true exactly when anything moved |
| `CalibrationStores.CalibrationStore.SetAssignments` | custom_components/myhome/calibration_store.py:861-897 | the loop over the assignments leaves what the specification says, and says true exactly when anything moved |
| `CalibrationStores.AssignmentsReadBack` | custom_components/myhome/calibration_store.py:861-897 | the record of each assigned cover reads back with that profile, winning if and only if there is one, the height given or else the one before, and the same numbers; it is gone exactly when that says nothing and it was not so already; it is untouched if and only if it was so already, and otherwise stamped with all else in it kept; no other record moves |
| `CalibrationStores.CalibrationStore.RemoveProfile` | custom_components/myhome/calibration_store.py:820-845 | the profile, the assignment of every follower and the followers that say nothing any more are gone; the answer is the followers there were |
| `CalibrationStores.CalibrationStore.SetOrder` | custom_components/myhome/calibration_store.py:736-758 | the order is the wanted one among the known covers, and true is said exactly when it moved |
| `CalibrationStores.CalibrationStore.SetProfile` | custom_components/myhome/calibration_store.py:803-818 | one profile replaced |
| `CalibrationStores.CalibrationStore.SetCalibration` | custom_components/myhome/calibration_store.py:847-851 | one record replaced, without its own id in it |
| `CalibrationStores.CalibrationStore.RemoveCalibration` | custom_components/myhome/calibration_store.py:853-859 | one record gone, and true exactly when it was there |
| `CalibrationStores.RemovedProfileIsForgotten` | custom_components/myhome/calibration_store.py:820-845 | nobody follows it afterwards; a follower with a readable height or number keeps its record but for the assignment, one without is gone, and nobody else is touched |
| `CalibrationStores.NormaliseOrder` | custom_components/myhome/calibration_store.py:545-561 | the loop with its set of seen ids computes the specification |
| `CalibrationStores.NormalIsAFixpoint` | custom_components/myhome/calibration_store.py:545-561 | normalising changes nothing exactly where there is no blank and no repeat |
| `CalibrationStores.FirstOccurrencesInOrder` | custom_components/myhome/calibration_store.py:545-561 | the ids come in the order of their first occurrences |
| `CalibrationStores.OrderedPermutes` | custom_components/myhome/calibration_store.py:658-674 | a permutation exactly when no id the order names is handed in twice |
| `CalibrationStores.OrderedTwice` | custom_components/myhome/calibration_store.py:658-674 | ordering what has been ordered changes nothing |
| `CalibrationStores.StoredOrderIsAFixpoint` | custom_components/myhome/calibration_store.py:658-674 | once its own result is stored as the order, ordering the same ids gives it back |
| `CalibrationStores.GroupIsFiltered` | custom_components/myhome/calibration_store.py:658-674 | ordering a group is filtering the ordering of the whole |
| `CalibrationStores.WrittenCalibrationReadsBack` | custom_components/myhome/calibration_store.py:693-703 | a record written by a save reads back through the store as what the save said |
| `StoredRecords.CalibrationReadsBack` | custom_components/myhome/calibration_store.py:362-479 | writing and reading a record loses only keys outside the travel model, and the precedence without a profile |
| `StoredRecords.ProfileReadsBack` | custom_components/myhome/calibration_store.py:309-524 | a profile reads back as its own numbers, whatever is kept beside them, if and only if it has a name and a reference height |
| `Resolution.ResolveCoverKeys` | custom_components/myhome/calibration_store.py:1011-1049 | the loop over the eight keys gives each the answer of its source and leaves out the keys nobody states |
| `Resolution.Precedence` | custom_components/myhome/calibration_store.py:1077-1194 | for each key exactly which source answers and with what: an own number always; the profile where it states the key and wins or the file is silent on it; the file where it states the key, itself or by another, and no winning profile does; the defaults where none of them says anything; and the key is missing only when nobody states it |
| `Resolution.OriginOfTheCover` | custom_components/myhome/calibration_store.py:1077-1194 | measured if and only if it has numbers of its own, and adjusted exactly when its profile still answers for a measured key beside one of its own; inherited without them where its profile exists; else the file's exactly when it states a measured key; with the token that says so |
| `Resolution.InheritedIsWhatRemains` | custom_components/myhome/calibration_store.py:1077-1194 | what each key would fall back to is what the cover resolves to without its own numbers |
| `Resolution.SaveReadsBack` | custom_components/myhome/calibration_session.py:2656-2737 | the record a save leaves, read back: the numbers just measured over whatever was stored under their keys, the stored ones exactly where a save that does not follow a profile says nothing of them, no number after path A's profile exit; the height the tape read or else the stored one; the profile of the conversation, winning exactly where there is one, and path A's own exit leaving the assignment alone; no other cover's record is another |
| `Resolution.SaveLeavesTheProfiles` | custom_components/myhome/calibration_session.py:2656-2700 | a profile is written exactly by path A's profile exit, under the name given and with the numbers measured, and every other profile is the one it was |
| `Resolution.SavedCoverRuns` | custom_components/myhome/calibration_session.py:2656-2737 | after a save the cover runs on every number just measured and every one kept as its own, and on no other; after path A's profile exit on that profile as measured, scaled to the height the tape read, for every key the profile states, whatever the file says |
| `Resolution.PreviewIsCommit` | custom_components/myhome/calibration_session.py:2656-2804 | the numbers, origin and source the review resolves for the main exit are exactly the ones the cover resolves to once the profile and the record have been written and read back: the numbers just measured, the ones kept, or the profile just measured |
| `Reviews.ReachableReviewIsCommit` | custom_components/myhome/calibration_session.py:2656-2804 | over every run: on the summary of a live session, with the result made of what it measured, the numbers, origin and source the review resolves for the first exit on offer are those of the cover once that exit is saved, among them every number of the result as the cover's own or the profile measured on it |
| `Reviews.NumbersComeFromTheirFits` | custom_components/myhome/calibration_measure.py:498-583 | which numbers a result holds: for each direction the roll fitted to its own readings and its own run corrected by the scale fitted to them, on the one slat phase; the rolls alone where times were adopted; the same numbers as the profile of path A; the runs as they are where nothing was fitted; none on path B |
| `Reviews.SaveGetsThrough` | custom_components/myhome/calibration_session.py:1231-1255 | a save is taken up exactly on the summary of a live session at its revision, held by nobody else, for an exit of its path and under a name a profile may have; refused it changes nothing |
| `Reviews.SummaryStands` | custom_components/myhome/calibration_session.py:2739-2828 | a turn that leaves a live session on its summary changes nothing the result was made of, nor the review |
| `Resolution.SameProfilesAfter` | custom_components/myhome/calibration_session.py:2770-2800 | the profiles after the write are the ones the review resolves against, whatever provenance the write adds |

## Left out

- Safety.OneMovement: `stop` is one turn, although it waits for the bus at line 1169 of calibration_session.py; `StopHalves` proves what that leaves out.
- Safety.RunsStartAtEndStops: a movement that the bus reports in the direction of the session's own is taken for the session's own, as the source does at lines 2503-2504 of calibration_session.py, so a wall switch pressed in the same direction is not seen.
- Revisions.EqualRevisions: a revision does not determine the stored error, the stop still owed to the shutter, the scope of a correction, the movement or whether the position is known: the source changes those without publishing, at lines 1411, 2218-2225 and 2254-2256 of calibration_session.py.
- Movements.TurnStarts: the pump loop is one turn per job and per await, finer than the source, where a job that ends without awaiting is followed by the next look at the queue in the same turn; a pump that waits for the stop of an ending may here look at its queue before that stop is back; every order of the source is one of the model's.
- RollModel.XOfTau: exact reals; floating-point rounding is not modelled, here or in the fit.
- RollFit.FitRollOnly: the range is given low end first, as every caller gives it; likewise for the bounds of the grid search.
- Measurements.StoredFitMeansTheSame: for curtain times of at least 1.3 ms, below which the 1 ms floors of the source part the two predictions.
- Reviews.ReachableReviewIsCommit: the scaling of a profile to a window and the rounding of the numbers are functions handed in, and so is the slat phase that a session without readings takes from the roll of a profile; a store that changes between the review and the save is outside the statement.
- CalibrationStores.UndoIsExact: the undo slot of the panel is not part of this model, only the records it holds; a mapping is a map without an order, and numbers of different JSON types are never equal.
- The four primitives of the cover, the bus and the clock: answers and times that each turn is handed.
- Home Assistant itself: config entries, registries, dispatcher, translations, WebSocket serialisation, logging, subscribers beyond the revision, storage on disk and its migration.
- The snapshot's texts and estimates: progress bars, placeholders, percentages, YAML snippets, the stored reason of an outcome beyond its name, `intent`, the position a run left the shutter at for those estimates.
- `parse_number` and the reading of numbers out of text: a form's value arrives as a number, a text or neither.
- The dialog's own second state machine in calibration_flow.py: only its plans and `order_the_readings` are here.
- `replaced_and_kept`, `_affected` and the rows of the review: lists for a screen, computed from the resolution that is here.
- The platform entities, discovery, diagnostics, config flow, device triggers, the socket and the panel.
