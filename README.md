# Bioprintly command processing, modelled in Dafny

Bioprintly drives a bioprinting rig from a Raspberry Pi:

- a rotator turns a carousel of four syringes;
- an actuator pushes a plunger;
- the rest are heating pads and UV lights.

Commands wait in a queue. A service thread ticks about every 8 ms and moves the head command by one half-step of a stepper motor per tick. It writes the direction pin, then flips the step pin. A command that has run out of half-steps is finished and goes to the history.

Each pin is a named entry in a pin table. The entry holds a header pin number, an io type and a "shadow value", which is the level the code last wrote. The GPIO library is the off-device stub: configuring and writing physical pins has no effect, and inputs read 0.

The state is a dictionary shared by the GUI, the service thread and a request bridge. It is saved to and loaded from a JSON save file. The request bridge takes a batch of commands from a request file, waits until the last command of the batch (the "caboose") is finished, and writes a response. Calibration actions home and hand-crank the actuator under a lock, and record plunger positions and the current syringe.

The repository holds this program (scripts/bioprintly) and three older front ends of the same machine:

- scripts/bioprintly-gui: a state dictionary with a two-pin table, and a service loop;
- scripts/bioprintly_gui: a module-level 26-pin board, and a `process_commands` of its own;
- scripts/gui: another module-level board, whose pins have no values until set up.

## How the model is built

Each Python file is one Dafny module.

- **Pure code** becomes functions.
- **Code that changes state** becomes a `class` whose methods update fields, with `modifies` clauses. The shared state dictionary is `State.GlobalState`, `HyphenGuiState.GlobalState` or `UnderscoreGuiState.GlobalState`. A module-level pin dictionary is `UnderscoreGuiPins.PinBoard` or `GuiPins.PinBoard`.
- **Every method has a specification function.** Each method is proved to leave the state, and to return the outcome, that a function of the old state gives. For example, `Service.ProcessCommands` ensures `Step(state.Model(), outcome) == Tick(old(state.Model()), now)`. The properties the code promises are then lemmas about those functions.
- **Loops stay loops.** The loops of the source, such as the setup, zeroing and cleanup loops, the service loop, the completion scan and the bridge's polling loop, are `while` loops with invariants.

Other modelling rules:

- **Exceptions** are `Outcome`/`Result` values (`Wrappers`), carrying the exception the code would raise. State changes made before the raise are kept, as in Python.
- **Dictionaries.** An insertion-ordered dictionary of pins is a sequence of named entries. A key that may be absent is an `Option`.
- **Outside inputs become parameters:**
  - clock readings;
  - the save file's contents, which are `None` when the file is missing or not valid JSON;
  - the request file;
  - the user's answer to a confirmation dialog;
  - what the other threads do while the bridge sleeps: iterations of the service loop, or the window being closed.
- **Numbers.** Integers are unbounded; Python's integers are too. Distances in millimetres are `real`.

Where the code and its declared types disagree, the model mostly follows the code. Three discrepancies are listed under "## Findings", each with its as-written form modelled beside the intended one.

The model also departs from the code as written in the places below. As written, each lookup raises `KeyError`, because the initial state (scripts/bioprintly/state.py:95-130) never creates the key:

- `state['gui_on']` at service.py:7 ends `run_service` on its first test;
- `state['selected_syringe']` at service.py:36;
- `nonpersistent['actuator_has_calibration_lock']` at gui_calibration.py:413;
- `state['actuator_position_mm']` and `state['plunger_positions_mm']` at gui_calibration.py:267-269.

The model gives these keys the meaning their names and the declared types evidently intend:

- `service.py` reads keys that `GlobalState` does not declare: `gui_on`, `service_on`, `service_loop_interval`, `service_loop_last_start` and `service_loop_measured_delta`. They are modelled as the declared `shutting_down` (negated), `processing_enabled` and `processing_loop_*`.
- `selected_syringe` is modelled where the initial state puts it: under `nonpersistent`, `None` until set. In the modelled code only a finishing Rotate sets it. So from the initial state, every fresh Rotate raises `TypeError` on its first tick (`Service.RotateWithoutSelectionRaises`), which ends the service thread. `Service.FreshRotation`, `Service.RotateFirstTick` and `Service.SameSyringeFinishesAtOnce` describe states in which a syringe is selected; the initial state does not produce them.
- Several keys are used but never declared: `actuator_position_mm`, `plunger_positions_mm`, `current_syringe` and `request_handling_watermark`. They are modelled as persistent keys. The actuator constants and the calibration lock are modelled as nonpersistent ones.
- Several helpers are imported but not defined in the files shown: `direction`, `time_ms`, `signum`, `this_action_would_put_it_further_away_from_target_than_it_is_now` and `calibration_is_complete`. Each is defined by what its name states.

## Model

| member | source | states |
|---|---|---|
| Util.Intersperse | scripts/bioprintly/util.py:25-32 | the result has length 2n−1 for n ≥ 1 and 0 for an empty list; even positions hold the list's members in order, odd positions hold `item` |
| Util.IntersperseIsInterspersedRec | scripts/bioprintly/util.py:25-32 | the slice-assignment construction equals an independent recursive definition (first, separator, rest) |
| Util.IntersperseSingleton | scripts/bioprintly/util.py:30-32 | a one-member list comes back unchanged |
| Util.SetValue | scripts/bioprintly/util.py:18-23 | the key gets the value, every other key keeps its value, and no other key appears |
| Util.Signum | scripts/bioprintly/gui_calibration.py:444-448 | 1 exactly for a positive number, −1 exactly for a negative one, 0 exactly for 0 |
| Util.DirectionOfOppositeSigns | scripts/bioprintly/service.py:35-38 | step counts of opposite sign drive the direction pin to opposite levels |
| Util.SleepDuration | scripts/bioprintly/service.py:15-18 | the sleep is never negative, is either 0 or interval − elapsed, is the latter whenever the work fits the interval, and never exceeds the interval |
| Pins.FlipBit | scripts/bioprintly/pins.py:48-49 | the result is the other bit |
| Pins.FlipBitInvolution | scripts/bioprintly/pins.py:48-49 | flipping twice gives the bit back |
| Pins.Level | scripts/bioprintly/service.py:46-48 | what the step pin's flip negates: the stored bit, with a missing value taken as 0 |
| Pins.IndexFrom | scripts/bioprintly/pins.py:74-76 | finds the first entry with the name at or after `from`, and finds none exactly when no entry there has it |
| Pins.LookupFindsName | scripts/bioprintly/pins.py:74-76 | `name in state['pins']` exactly when some entry carries it, and the lookup gives that first entry's pin |
| Pins.ReadPinCases | scripts/bioprintly/pins.py:73-85 | an unknown name raises; an output gives its shadow value; an input gives the stub's level 0; any other io type raises |
| Pins.WriteOutcomes | scripts/bioprintly/pins.py:87-95 | a write succeeds exactly on a known output pin; an unknown name and a non-output pin raise their own exceptions |
| Pins.WriteShape | scripts/bioprintly/pins.py:87-95 | a successful write sets the named pin's value, keeps its number and io type and every name, and leaves every other entry as it was |
| Pins.ReadAfterWrite | scripts/bioprintly/pins.py:73-95 | reading a pin just written gives the written level |
| Pins.WriteLeavesOtherPins | scripts/bioprintly/pins.py:87-95 | a write changes neither the lookup nor the read of any other name |
| Pins.WriteKeepsLayout | scripts/bioprintly/pins.py:87-95 | a write keeps where every name is found and every pin's io type |
| Pins.WriteKeepsOutputPins | scripts/bioprintly/pins.py:87-95 | a write keeps every output an output and every other pin not one |
| Pins.WriteTwice | scripts/bioprintly/pins.py:87-95 | writing a pin twice equals writing it once with the second level |
| Pins.ZeroedPins | scripts/bioprintly/pins.py:97-103 | every mapping's value becomes 0 whatever its io type; names, numbers and io types are kept |
| Pins.ZeroedPinsReadZero | scripts/bioprintly/pins.py:73-103 | after zeroing, every read that succeeds gives 0, on outputs and inputs alike |
| Pins.SetupFailure | scripts/bioprintly/pins.py:57-71 | the exception of the first configured pin with a number outside `PinNumber` or an unrecognised io type; none exactly when every pin passes; pins with a `None` field are skipped |
| Pins.SetupOutcome | scripts/bioprintly/pins.py:51-71 | `setup_pins` succeeds exactly when every configured pin has a valid header number and an Input or Output type |
| Pins.SetupFailureIgnoresValues | scripts/bioprintly/pins.py:61-71 | the setup check depends on names, numbers and io types only, never on the values |
| Pins.SetupPinsIdempotent | scripts/bioprintly/pins.py:51-71 | rerunning `setup_pins` leaves the table it produced unchanged and raises exactly what the first run raised |
| PinIO.ZeroOutPins | scripts/bioprintly/pins.py:97-103 | the state's pin table becomes `ZeroedPins` of the old one, and nothing else changes |
| PinIO.SetupPins | scripts/bioprintly/pins.py:51-71 | the pins end zeroed (outputs at 0), the rest of the state is unchanged, and the outcome is the setup check's |
| PinIO.WritePin | scripts/bioprintly/pins.py:87-95 | on a known output pin the table becomes the written one and the call passes; otherwise the state is unchanged and the call raises the write's exception |
| State.Field | scripts/bioprintly/state.py:51-61 | each top-level key of the state reads as a save-file item carrying that key |
| State.FieldsDetermine | scripts/bioprintly/state.py:51-61 | two persistent states that agree on every key are equal |
| State.ApplyField | scripts/bioprintly/state.py:89-93 | one step of the load loop changes exactly the key it names, and nothing for `nonpersistent` or an unknown key |
| State.MergeAppend | scripts/bioprintly/state.py:89-93 | the load loop over items plus one more is the loop over the items, then that one step |
| State.LastFor | scripts/bioprintly/state.py:89-93 | the last occurrence of a key in the file is an item with that key; there is none exactly when no item has it |
| State.MergeField | scripts/bioprintly/state.py:86-93 | after the load, every known key has the value of its last occurrence in the file, and every key the file lacks keeps its current value |
| State.MergeIgnoresOtherKeys | scripts/bioprintly/state.py:90-93 | a file holding only `nonpersistent` and unknown keys changes nothing |
| State.LoadAfterSave | scripts/bioprintly/state.py:76-93 | loading what `save_state_to_disk` wrote gives back exactly the saved persistent state, whatever state it is loaded into |
| State.DefaultPins | scripts/bioprintly/state.py:111-118 | one entry per key of `PinMappings`, in declaration order, with number, io type and value all `None` |
| State.InitialRig | scripts/bioprintly/state.py:95-130 | the default nonpersistent part; with an unreadable file (load swallowed), exactly the defaults; otherwise every key as the load leaves it over the defaults |
| State.InitialStateWithoutSaveFile | scripts/bioprintly/state.py:95-128 | with no readable save file: empty queue and history, next ordinal 0, interval 8, steps90 235, processing disabled, every pin all `None` |
| State.DefaultPinsRefuseWrites | scripts/bioprintly/state.py:111-118 | with the default all-`None` pins, `write_pin` raises for every name |
| State.Enqueued | scripts/bioprintly/state.py:132-138 | exactly one unstarted, unfinished entry is appended at the tail, with the old counter as its ordinal and `now` as its stamp; the counter goes up by one; nothing else changes |
| State.EnqueueKeepsOrdinalsIncreasing | scripts/bioprintly/state.py:132-138 | queued ordinals strictly increase and stay below `next_command_ordinal` across an enqueue |
| State.EnqueuedAllFrame | scripts/bioprintly/request_handling.py:38-39 | a batch advances the counter by its length and touches nothing but the queue and the counter |
| State.EnqueuedAllNumbersConsecutively | scripts/bioprintly/request_handling.py:38-39 | a batch lands at the tail in order, unstarted, numbered consecutively from the old counter, and the ordinal invariant survives |
| State.GlobalState.constructor | scripts/bioprintly/state.py:95-130 | the new state is `InitialRig` of the save file |
| State.GlobalState.SaveStateToDisk | scripts/bioprintly/state.py:76-84 | the file holds the image of the persistent keys (not `nonpersistent`); the state itself is unchanged |
| State.GlobalState.LoadStateFromDisk | scripts/bioprintly/state.py:86-93 | an unreadable file raises and changes nothing; otherwise the persistent keys are merged from the file and `nonpersistent` is untouched |
| State.GlobalState.EnqueueCommand | scripts/bioprintly/state.py:132-138 | the persistent state becomes `Enqueued` of the old one; `nonpersistent` and the file are untouched |
| Service.Started | scripts/bioprintly/service.py:24-26 | `started_at` is stamped only when absent; the specifics are untouched |
| Service.Initialise | scripts/bioprintly/service.py:29-54 | an initialised command is left alone; a result is initialised, keeps the verb, the target and the Actuate fields |
| Service.TickFrame | scripts/bioprintly/service.py:20-63 | a tick changes only the queue, the history, the pin values, the selected syringe and the save file |
| Service.AdvanceFrame | scripts/bioprintly/service.py:41-63 | the part of the tick after initialisation changes no more than the tick may |
| Service.TickEmptyQueue | scripts/bioprintly/service.py:21-22 | a tick on an empty queue changes nothing |
| Service.TickStampsStartOnce | scripts/bioprintly/service.py:24-26 | the command a tick works on is stamped on its first tick and keeps that stamp afterwards, at the head or in the history |
| Service.FinishedMovesHead | scripts/bioprintly/service.py:65-69 | the queue becomes its tail, the history grows by the head stamped finished, and the start stamp and specifics are kept |
| Service.TickKeepsOrdinals | scripts/bioprintly/service.py:20-69 | history followed by queue keeps its sequence of ordinals through a tick: no reordering, no renumbering |
| Service.RotateWithoutSelectionRaises | scripts/bioprintly/service.py:35-37 | a fresh rotation with no syringe selected raises `TypeError` on its first tick, after the start stamp |
| Service.MotionOf | scripts/bioprintly/service.py:45-62 | each verb drives its own direction pin and step pin, and the two differ |
| Service.HalfStepOnReadyPins | scripts/bioprintly/service.py:45-49 | a half-step on two output pins succeeds: the direction pin holds the direction, the step pin is flipped, no other pin changes |
| Service.HalfStepsOnReadyPins | scripts/bioprintly/service.py:45-49 | any number of half-steps on ready pins all succeed, and the pins stay ready |
| Service.HalfStepsFlipStepPin | scripts/bioprintly/service.py:46-48 | after k half-steps the step pin has flipped k times: back at its starting level when k is even |
| Service.HalfStepsSetDirection | scripts/bioprintly/service.py:45 | after at least one half-step the direction pin holds the command's direction |
| Service.HalfStepsLeaveOtherPins | scripts/bioprintly/service.py:45-49 | half-steps change no pin but the two the motion drives |
| Service.TickOnInitialised | scripts/bioprintly/service.py:31-34 | a head whose countdown is known is not initialised again |
| Service.TickInitialises | scripts/bioprintly/service.py:31-39 | the first tick of a fresh head acts as it would on the head already initialised |
| Service.AdvanceMotion | scripts/bioprintly/service.py:45-49 | a successful half-step of an initialised head replaces the pins and lowers the countdown by one |
| Service.MotionTick | scripts/bioprintly/service.py:45-49 | a non-finishing tick decrements `half_steps_remaining` by exactly one and leaves the pins the half-step gives |
| Service.FinishingTick | scripts/bioprintly/service.py:41-44 | a spent countdown finishes the head with no pin write; a rotation first selects its target |
| Service.RotateFirstTick | scripts/bioprintly/service.py:30-49 | the first tick of a rotation sets `half_steps_remaining = 2·\|(target − selected)·steps90\|` and the direction from the sign, then finishes or makes the first half-step |
| Service.SameSyringeFinishesAtOnce | scripts/bioprintly/service.py:35-44 | rotating to the syringe already selected finishes on the first tick and writes no pin |
| Service.CompletedShape | scripts/bioprintly/service.py:41-69 | a run ends with the head last in the history, countdown spent and stamped finished, the queue moved up, the pins of all its half-steps, a rotation's target selected, and the state saved |
| Service.RunToCompletion | scripts/bioprintly/service.py:20-69 | an initialised head with k half-steps left that all succeed takes exactly k motion ticks and one finishing tick |
| Service.FreshCommandRun | scripts/bioprintly/service.py:20-69 | a fresh command whose initialisation gives k half-steps is done after exactly k + 1 ticks |
| Service.FreshRotation | scripts/bioprintly/service.py:30-49 | a fresh rotation takes 2·\|Δ\|·steps90 motion ticks plus one finishing tick; it ends last in the history stamped at both ends, the target selected, `rotator_step` back at its starting level and every other pin as it was |
| Service.ActuateFirstTick | scripts/bioprintly/service.py:51-54 | with the declared field `steps_needed_total`, a fresh Actuate starts counting down from 2·steps_needed_total |
| Service.ActuateAsWrittenNeverStarts | scripts/bioprintly/service.py:52-54 | as written, the lookup of `'steps needed total'` raises `KeyError` on every tick of a fresh Actuate head, which never gets a countdown |
| Service.ActuateMotionNeedsUndeclaredPin | scripts/bioprintly/service.py:59-62 | the Actuate half-step writes `actuator_direction`, which `PinMappings` does not declare, so it raises on a table of the declared names |
| Service.ServiceSleepsBounded | scripts/bioprintly/service.py:6-18 | on a clock that does not run backwards, every sleep lies between 0 and the interval, there is at most one per iteration, and the interval never changes |
| Service.DisabledServiceOnlyKeepsTime | scripts/bioprintly/service.py:6-18 | while processing is disabled the loop keeps only time: queue, history and pins stay put |
| Service.FinishActiveTask | scripts/bioprintly/service.py:65-69 | the state becomes `Finished` of the old state |
| Service.HalfStepOnPins | scripts/bioprintly/service.py:45-48 | the pins become the half-step's, and the outcome is the half-step's |
| Service.AdvanceHead | scripts/bioprintly/service.py:41-63 | the state and outcome are `Advance` of the old state |
| Service.ProcessCommands | scripts/bioprintly/service.py:20-63 | the state and outcome are `Tick` of the old state |
| Service.LoopIteration | scripts/bioprintly/service.py:8-13 | the state and outcome are one `LoopBody` of the old state |
| Service.RunService | scripts/bioprintly/service.py:6-18 | the state, the sleeps taken and the outcome are `ServiceRun` of the old state over the clock readings |
| RequestHandling.ScanFindsOnlyTarget | scripts/bioprintly/request_handling.py:46-52 | the newest-first scan says yes only when the target is in the history |
| RequestHandling.ScanDecidesMembership | scripts/bioprintly/request_handling.py:46-52 | on a history with increasing ordinals, the scan says yes exactly when the target is in the history |
| RequestHandling.CommandWithOrdinalIsComplete | scripts/bioprintly/request_handling.py:46-52 | the reverse for-loop answers as the newest-first scan does |
| RequestHandling.InterleaveFrame | scripts/bioprintly/request_handling.py:41-44 | the service thread and the window never touch the watermark or the ordinal counter, and a shutdown stays a shutdown |
| RequestHandling.WaitEnds | scripts/bioprintly/request_handling.py:41-44 | the wait keeps the bridge's state and ends in shutdown, in completion of the caboose, or after every sleep |
| RequestHandling.CabooseIsLastEnqueued | scripts/bioprintly/request_handling.py:37-39 | the caboose is the ordinal of the batch's last command, newest in the queue and the largest ordinal there |
| RequestHandling.HandleOnceAnswersFreshRequests | scripts/bioprintly/request_handling.py:12-34 | one iteration never raises; it answers exactly a readable request newer than the watermark, with that request's timestamp; the watermark becomes that timestamp and the ordinal counter advances by the batch's length; an unreadable or old request only sleeps |
| RequestHandling.AnsweredRequestIsIgnored | scripts/bioprintly/request_handling.py:22-24 | a request already answered is not answered, or enqueued, again: that iteration only sleeps |
| RequestHandling.ResponsesFollowTheWatermark | scripts/bioprintly/request_handling.py:10-34 | over any run, every response answers a request newer than the starting watermark, response timestamps strictly increase, and the watermark ends at the last one |
| RequestHandling.WatermarkNeverFalls | scripts/bioprintly/request_handling.py:22-24 | the watermark never decreases |
| RequestHandling.EnqueueArityRaises | scripts/bioprintly/request_handling.py:39 | as written, a fresh request with commands raises `TypeError` before enqueueing anything and is never answered; as intended it is answered |
| RequestHandling.EnqueueReturningOrdinal | scripts/bioprintly/request_handling.py:39 | the intended enqueue appends the command as `enqueue_command` does and returns the ordinal it assigned |
| RequestHandling.InterleaveStep | scripts/bioprintly/gui.py:83-84 | one event of the other threads (a service iteration, or the window closed: save, then shutdown) changes the state as `Interleave` says |
| RequestHandling.SleepBriefly | scripts/bioprintly/request_handling.py:7-8 | the state after a sleep is the other threads' events applied in order |
| RequestHandling.AwaitCompletion | scripts/bioprintly/request_handling.py:36-44 | enqueue the batch, then poll for the caboose between sleeps, as `Wait` of `EnqueuedAll` says |
| RequestHandling.HandleOnceStep | scripts/bioprintly/request_handling.py:13-34 | one iteration of the loop leaves the state and response that `HandleOnce` gives |
| RequestHandling.SavefolderLookupRaises | scripts/bioprintly/request_handling.py:11 | as written, the bridge raises `KeyError('savefolder_path')` before its loop, leaving the state unchanged and answering nothing; the initial state has only `savefile_path` |
| RequestHandling.HandleRequestsRepeatedly | scripts/bioprintly/request_handling.py:10-34 | the loop until shutdown leaves the state and the responses, in order, that `HandleRepeatedly` gives |
| Calibration.HomeUnderLockDoesNothing | scripts/bioprintly/gui_calibration.py:413-414 | homing while the lock is held changes nothing |
| Calibration.HomingInProgress | scripts/bioprintly/gui_calibration.py:415-417 | while the move runs, the lock is held, the position is unknown and `actuator_retract` is 1 |
| Calibration.HomeSleepCases | scripts/bioprintly/gui_calibration.py:418-423 | a rate of 0 raises `ZeroDivisionError`; a positive extension and rate with a margin below −1 give a negative duration and `ValueError`; a non-negative extension, positive rate and margin of at least −1 never raise |
| Calibration.HomeEndsAtZero | scripts/bioprintly/gui_calibration.py:409-426 | homing with an output retract pin succeeds exactly when the sleep's duration can be computed and is not negative; then it ends at position 0, with the lock free, `actuator_retract` at 0 and nothing else changed; otherwise it raises `ZeroDivisionError` or `ValueError` with the lock held, the position unknown and `actuator_retract` at 1 |
| Calibration.HomeWithoutRetractPinKeepsLock | scripts/bioprintly/gui_calibration.py:415-417 | without a usable retract pin homing raises after taking the lock, which is never released |
| Calibration.CrankTurnFrame | scripts/bioprintly/gui_calibration.py:439-484 | one iteration changes only the pins and the position, keeps the other pins as they read, goes on only when it did not raise, and raises with a known position only on an unusable drive pin |
| Calibration.CrankTurnApproaches | scripts/bioprintly/gui_calibration.py:454-459 | one iteration never credits travel that would take it further from the target |
| Calibration.CrankTurnPosition | scripts/bioprintly/gui_calibration.py:450-479 | one iteration never moves past the envelope, and moves by the travel credited unless a negative position is clamped to 0, which stops the loop |
| Calibration.HandcrankUnderLockDoesNothing | scripts/bioprintly/gui_calibration.py:432-433 | handcranking while the lock is held changes nothing |
| Calibration.CrankLoopFrame | scripts/bioprintly/gui_calibration.py:439-484 | the loop changes only the pins and the position; with a known position and a usable drive pin it never raises |
| Calibration.CrankLoopStaysInEnvelope | scripts/bioprintly/gui_calibration.py:461-468 | a position that starts within `max_extension·(1 − safety_margin)` stays within it |
| Calibration.CrankLoopApproachesTarget | scripts/bioprintly/gui_calibration.py:454-459 | the distance between the travel credited and the travel required never increases |
| Calibration.CrankLoopTracksTravel | scripts/bioprintly/gui_calibration.py:450-479 | the position moves by exactly the travel credited unless clamped at 0, so a stopped loop that did not raise ends at 0 or above |
| Calibration.CrankLoopDrivesOnePin | scripts/bioprintly/gui_calibration.py:470-473 | only the pin chosen by the sign of the required travel is driven; every other pin reads as before |
| Calibration.ReleaseZeroesPins | scripts/bioprintly/gui_calibration.py:486-488 | releasing usable actuator pins succeeds: both read 0 and the lock is free |
| Calibration.HandcrankEndsSafely | scripts/bioprintly/gui_calibration.py:428-488 | a handcrank the buttons allow that stops does not raise, releases the lock, leaves both pins at 0, ends at 0 or above and within the envelope, and ends no further from the target |
| Calibration.HandcrankWithoutPositionRaises | scripts/bioprintly/gui_calibration.py:450 | with the position unknown, the first iteration raises `TypeError` and the lock stays held |
| Calibration.ButtonRules | scripts/bioprintly/gui_calibration.py:144-382 | handcrank and record buttons share one rule, which implies the home rule; the set-syringe rule implies all three; a complete calibration enables set-syringe |
| Calibration.RecordedAllHoldsPosition | scripts/bioprintly/gui_calibration.py:265-276 | each recorded plunger holds the actuator position, the others are kept, and the last recorded is current |
| Calibration.RecordingAllFourCompletesCalibration | scripts/bioprintly/gui_calibration.py:265-276 | recording all four plungers at a known position, lock free, completes the calibration |
| Calibration.CloseCalibrationCases | scripts/bioprintly/gui_calibration.py:490-503 | closing raises exactly when the window is not open; it closes exactly when the calibration is complete or the user confirms; persistent keys are untouched |
| Calibration.SetSyringeCompletesCalibration | scripts/bioprintly/gui_calibration.py:346-353 | with every plunger known, an enabled set-syringe button completes the calibration and closes the window without asking |
| Calibration.MissingPlunger | scripts/bioprintly/gui_calibration.py:516-519 | the first syringe without a recorded plunger; none exactly when all four are recorded |
| Calibration.ToggleCases | scripts/bioprintly/gui_calibration.py:505-522 | disabling always succeeds and zeroes the pins; enabling raises `KeyError` exactly on a missing plunger position and otherwise follows the user's answer |
| Calibration.ToggleOnThenOff | scripts/bioprintly/gui_calibration.py:505-522 | enabling and then disabling again only zeroes the pins |
| Calibration.HomeTheActuator | scripts/bioprintly/gui_calibration.py:409-426 | the state and outcome are `Home` of the old state, including the raise of the sleep's duration |
| Calibration.TurnCrank | scripts/bioprintly/gui_calibration.py:440-484 | one loop iteration leaves what `CrankTurn` gives |
| Calibration.RunCrankLoop | scripts/bioprintly/gui_calibration.py:439-484 | the loop leaves what `CrankLoop` gives |
| Calibration.ReleaseActuator | scripts/bioprintly/gui_calibration.py:486-488 | both actuator pins to 0, then the lock released, as `Release` gives |
| Calibration.HandcrankTheActuator | scripts/bioprintly/gui_calibration.py:428-488 | the state, the travel and the outcome are `Handcrank` of the old state |
| Calibration.RecordPlungerPosition | scripts/bioprintly/gui_calibration.py:265-276 | `plunger_positions_mm[n]` becomes the actuator position and `current_syringe` becomes `n` |
| Calibration.CloseCalibrationGui | scripts/bioprintly/gui_calibration.py:490-503 | the state and outcome are `CloseCalibration` of the old state |
| Calibration.SetCurrentSyringeAndClose | scripts/bioprintly/gui_calibration.py:346-353 | the state and outcome are `SetSyringeAndClose` of the old state |
| Calibration.ToggleProcessingWithWarning | scripts/bioprintly/gui_calibration.py:505-522 | the state and outcome are `ToggleProcessing` of the old state |
| LegacyQueue.Started | scripts/bioprintly-gui/service.py:17-18 | the result is started, and only a command with no start stamp gets one |
| LegacyQueue.StartedOnce | scripts/bioprintly-gui/service.py:17-18 | a later start keeps the first stamp |
| LegacyPins.ReadUnknownRaises | scripts/bioprintly-gui/pins.py:45-46 | both legacy readers raise for a label the table lacks |
| LegacyPins.ReadStoredAfterWrite | scripts/bioprintly-gui/pins.py:44-66 | after a successful write the stored reader gives back the written level |
| LegacyPins.ReadTruthyAfterWrite | scripts/gui/pins.py:59-80 | after a successful write the truthy reader gives back a 1 and raises on a 0 |
| LegacyPins.FirstFault | scripts/bioprintly-gui/pins.py:33-42 | the first entry at or after `from` that `setup_pins` rejects; none exactly when all pass |
| LegacyPins.SetupRunFromShape | scripts/bioprintly-gui/pins.py:33-42 | the setup loop raises the first fault's exception, if any; the entries it got past are set up, the rest are as they were |
| LegacyPins.SetupRunCases | scripts/bioprintly-gui/pins.py:33-42 | `setup_pins` succeeds exactly when no entry has a fault, then every entry is set up; otherwise it raises the first fault's exception |
| LegacyPins.SetupKeepsLayout | scripts/bioprintly-gui/pins.py:33-42 | every entry keeps its name, number and io type through `setup_pins` |
| LegacyPins.UnderscoreSetupKeepsTable | scripts/bioprintly_gui/pins.py:96-108 | that `setup_pins` only configures hardware: the table is unchanged |
| LegacyPins.HyphenSetupThenRead | scripts/bioprintly-gui/pins.py:38-40 | after a successful setup every output reads 0 |
| LegacyPins.PlainSetupThenReadRaises | scripts/gui/pins.py:66-70 | after setup every output holds the falsy 0, so reading it raises |
| LegacyPins.PlainSetupIgnoresNumbers | scripts/gui/pins.py:87-99 | a pin number outside the header passes this `setup_pins`, which checks none |
| LegacyPins.SetupLoop | scripts/bioprintly-gui/pins.py:33-42 | the loop over the table gives what `SetupRun` gives |
| LegacyPins.Names | scripts/bioprintly-gui/pins.py:69 | the labels of the table, in dictionary order |
| LegacyPins.ZeroedUpTo | scripts/bioprintly-gui/pins.py:69-70 | the first `k` entries zeroed, the rest as they were |
| LegacyPins.FirstNonOutput | scripts/bioprintly-gui/pins.py:62-63 | the first entry at or after `from` that is not an output; none exactly when all are |
| LegacyPins.WriteZerosFrom | scripts/bioprintly-gui/pins.py:69-70 | writing 0 to the labels from `from` on succeeds exactly when they are all outputs, zeroing them in order |
| LegacyPins.CleanupCases | scripts/bioprintly-gui/pins.py:68-70 | writing 0 to every label succeeds exactly when every pin is an output, and then zeroes the table; a non-output raises after the pins before it are zeroed |
| LegacyPins.WriteZerosLoop | scripts/bioprintly-gui/pins.py:69-70 | the loop gives what `WriteZeros` over every label gives |
| LegacyPins.HalfStepOnOutputs | scripts/bioprintly-gui/service.py:26-30 | on two distinct outputs with a stored step value, a half-step succeeds, leaves the direction pin at 0, flips the step pin and changes no other pin |
| LegacyPins.HalfStepWithoutDirectionPin | scripts/bioprintly-gui/service.py:35 | a half-step whose direction pin is missing raises at once and changes nothing |
| BoardPins.LabelsDistinct | scripts/bioprintly_gui/pins.py:38-65 | the board's 26 labels are distinct |
| BoardPins.NumbersAreHeader | scripts/bioprintly_gui/pins.py:24-65 | the board's numbers are exactly the valid header pins |
| BoardPins.NumbersIncrease | scripts/bioprintly_gui/pins.py:38-65 | the numbers increase along the board |
| BoardPins.TableOf | scripts/bioprintly_gui/pins.py:38-65 | each label becomes an output on its number, holding the given value |
| BoardPins.TableOfWellFormed | scripts/bioprintly_gui/pins.py:38-65 | distinct labels on header numbers make a well-formed board |
| BoardPins.BoardTableWellFormed | scripts/bioprintly_gui/pins.py:38-65 | the literal board is well formed, has 26 entries, and every output holds the given value |
| BoardPins.BoardTableRotatorPins | scripts/bioprintly_gui/pins.py:39-40 | both rotator pins are outputs of the board, holding the given value |
| BoardPins.BoardTableCoversHeader | scripts/bioprintly_gui/pins.py:24-65 | every valid header pin carries a label of the board |
| BoardPins.BoardTableNumbersDistinct | scripts/bioprintly_gui/pins.py:38-65 | no two labels share a header pin |
| BoardPins.WriteKeepsWellFormed | scripts/bioprintly_gui/pins.py:81-89 | a write keeps the board well formed |
| BoardPins.SetupOnBoard | scripts/bioprintly_gui/pins.py:96-108 | a well-formed board passes every front end's `setup_pins` (for bioprintly_gui, once every pin holds a value); those that stamp leave every pin at 0, bioprintly_gui's leaves it unchanged |
| BoardPins.CleanupOnBoard | scripts/bioprintly_gui/pins.py:91-94 | `cleanup` on a well-formed board succeeds and leaves every pin at 0, still well formed |
| BoardPins.ZeroedKeepsOutputs | scripts/bioprintly_gui/pins.py:91-93 | zeroing keeps every output an output |
| UnderscoreGuiPins.PinBoard.constructor | scripts/bioprintly_gui/pins.py:38-65 | the board is the literal with every output at 0, and valid |
| UnderscoreGuiPins.PinBoard.WritePin | scripts/bioprintly_gui/pins.py:81-89 | a write to a known output stores the value and passes; otherwise the board is unchanged and the call raises; validity is kept |
| UnderscoreGuiPins.PinBoard.SetupPins | scripts/bioprintly_gui/pins.py:96-108 | the outcome is the setup check's, and a valid board always passes |
| UnderscoreGuiPins.PinBoard.Cleanup | scripts/bioprintly_gui/pins.py:91-94 | the board and outcome are those of writing 0 to every label; a valid board ends zeroed and valid |
| GuiPins.PinBoard.constructor | scripts/gui/pins.py:30-57 | the board is the literal with no output holding a value, and valid |
| GuiPins.PinBoard.WritePin | scripts/gui/pins.py:72-80 | a write to a known output stores the value and passes; otherwise the board is unchanged and the call raises; validity is kept |
| GuiPins.PinBoard.SetupPins | scripts/gui/pins.py:87-99 | the board and outcome are `SetupRun`; a valid board passes, ends zeroed and stays valid |
| GuiPins.PinBoard.Cleanup | scripts/gui/pins.py:82-85 | the board and outcome are those of writing 0 to every label; a valid board ends zeroed and valid |
| GuiPins.ReadBeforeSetupRaises | scripts/gui/pins.py:66-67 | before setup, reading any output of the literal raises `KeyError('value')` |
| GuiPins.ReadAfterSetupRaises | scripts/gui/pins.py:66-70 | after setup every output read raises until a 1 is written, which then reads back |
| HyphenGuiState.Field | scripts/bioprintly-gui/state.py:31-45 | each key of the state reads as a save-file item carrying that key |
| HyphenGuiState.FieldsDetermine | scripts/bioprintly-gui/state.py:31-45 | two states that agree on every key are equal |
| HyphenGuiState.ApplyField | scripts/bioprintly-gui/state.py:87-89 | one step of the load loop changes exactly the key it names |
| HyphenGuiState.MergeAppend | scripts/bioprintly-gui/state.py:87-89 | the load loop runs over the items in order |
| HyphenGuiState.LastFor | scripts/bioprintly-gui/state.py:87-89 | the last occurrence of a key in the file; none exactly when no item has the key |
| HyphenGuiState.MergeField | scripts/bioprintly-gui/state.py:84-89 | the load overwrites exactly the keys the file has, `savefile_path` included, with their last occurrence, and keeps the others |
| HyphenGuiState.MergeIgnoresOtherKeys | scripts/bioprintly-gui/state.py:88 | keys the state lacks are ignored |
| HyphenGuiState.LoadAfterSave | scripts/bioprintly-gui/state.py:80-89 | loading what was saved gives back the saved state, whatever state it is loaded into |
| HyphenGuiState.LastInImage | scripts/bioprintly-gui/state.py:80-82 | each key occurs in the saved image with the state's own value |
| HyphenGuiState.Saved | scripts/bioprintly-gui/state.py:80-82 | the state is kept and the file at its path holds the whole state |
| HyphenGuiState.SaveThenLoad | scripts/bioprintly-gui/state.py:80-89 | saving and then loading succeeds and leaves the state as it was |
| HyphenGuiState.LoadMovesSavefilePath | scripts/bioprintly-gui/state.py:84-89 | a load reads the file at the old path but takes `savefile_path` from the file; the disk is unchanged |
| HyphenGuiState.GlobalState.constructor | scripts/bioprintly-gui/state.py:63-78 | the state is the defaults: service off, timestep 8, pins 3 and 5 outputs at 0, empty queue and history, selected syringe 1, steps90 235 |
| HyphenGuiState.GlobalState.SaveStateToDisk | scripts/bioprintly-gui/state.py:80-82 | the machine becomes `Saved` of the old one |
| HyphenGuiState.GlobalState.LoadStateFromDisk | scripts/bioprintly-gui/state.py:84-89 | the machine and outcome are `Loaded` of the old one |
| HyphenGuiPins.SetupPins | scripts/bioprintly-gui/pins.py:25-42 | the pins and outcome are those of `SetupRun`, and nothing else changes |
| HyphenGuiPins.WritePin | scripts/bioprintly-gui/pins.py:58-66 | a write to a known output stores the value and passes; otherwise the state is unchanged and the call raises |
| HyphenGuiPins.ZeroOutPinsAndExit | scripts/bioprintly-gui/pins.py:68-71 | the pins and outcome are those of writing 0 to every label in turn |
| HyphenGuiPins.DefaultPinsSetUp | scripts/bioprintly-gui/state.py:70-73 | the default two-pin table passes `setup_pins` unchanged, zeroes without raising, and both pins read 0 |
| HyphenGuiService.TickFrame | scripts/bioprintly-gui/service.py:12-39 | a tick changes only the queue, the history, the pins and the disk |
| HyphenGuiService.TickEmptyQueue | scripts/bioprintly-gui/service.py:13-14 | an empty queue is left alone |
| HyphenGuiService.FinishingTick | scripts/bioprintly-gui/service.py:23-25 | a spent countdown finishes the head: it leaves the queue stamped at both ends, the history grows by exactly it, and the state is saved |
| HyphenGuiService.MotionTick | scripts/bioprintly-gui/service.py:26-30 | a countdown left on ready pins: the direction pin is 0, the step pin is flipped, the countdown drops by one, the head stays, started |
| HyphenGuiService.ActuateOnDefaultPinsRaises | scripts/bioprintly-gui/service.py:35 | the Actuate branch writes `actuator_direction`, which the default table lacks, and raises after the start stamp |
| HyphenGuiService.HalfStepKeepsReady | scripts/bioprintly-gui/service.py:26-29 | a half-step on ready pins succeeds and keeps them ready |
| HyphenGuiService.RunToCompletion | scripts/bioprintly-gui/service.py:12-39 | a head with countdown k on ready pins leaves the queue for the end of the history after exactly k + 1 ticks |
| HyphenGuiService.LoopBodyTiming | scripts/bioprintly-gui/service.py:43-50 | the delta is `loop_start − last_start`, and the reading after processing becomes the new last start |
| HyphenGuiService.ServiceSleepsBounded | scripts/bioprintly-gui/service.py:51-54 | every sleep is never negative and never above the timestep |
| HyphenGuiService.ServiceOffOnlyKeepsTime | scripts/bioprintly-gui/service.py:47-48 | with the service off, queue, history, pins and disk stay put |
| HyphenGuiService.FinishActiveTask | scripts/bioprintly-gui/service.py:6-10 | the machine becomes `Finished` of the old one |
| HyphenGuiService.HalfStepOnPins | scripts/bioprintly-gui/service.py:26-29 | the pins and outcome are those of `HalfStep` |
| HyphenGuiService.ProcessCommandsWith | scripts/bioprintly_gui/process.py:10-38 | the machine and outcome are `TickWith` of the old one |
| HyphenGuiService.ProcessCommands | scripts/bioprintly-gui/service.py:12-39 | the machine and outcome are `Tick` of the old one |
| HyphenGuiService.LoopIteration | scripts/bioprintly-gui/service.py:43-50 | one iteration up to the sleep leaves what `LoopBody` gives |
| HyphenGuiService.RunService | scripts/bioprintly-gui/service.py:41-54 | the machine, the sleeps and the outcome are `ServiceRun` of the old one |
| UnderscoreGuiProcess.FinishActiveTask | scripts/bioprintly_gui/process.py:4-8 | the machine becomes `Finished` of the old one |
| UnderscoreGuiProcess.ProcessCommands | scripts/bioprintly_gui/process.py:10-38 | the machine and outcome are the tick that saves after the start stamp |
| UnderscoreGuiProcess.SameTickAsService | scripts/bioprintly_gui/process.py:17 | the extra save changes only the disk: the state and outcome are those of the other front end's tick |
| UnderscoreGuiProcess.SavesOnEveryTick | scripts/bioprintly_gui/process.py:15-17 | every tick on a non-empty queue leaves a save of the state with the head started |
| UnderscoreGuiProcess.ServiceTickMaySkipSave | scripts/bioprintly-gui/service.py:16-18 | without that save, a tick on a head with an unrecognised verb leaves the disk as it was |
| UnderscoreGuiState.Saved | scripts/bioprintly_gui/state.py:50-52 | the state is kept, the file at its path holds the whole state, and other files are untouched |
| UnderscoreGuiState.SaveThenLoad | scripts/bioprintly_gui/state.py:50-56 | loading right after a save succeeds, and saving twice is saving once |
| UnderscoreGuiState.TickFrame | scripts/bioprintly_gui/state.py:62-79 | a tick changes only the head and the disk: the queue keeps its length and tail, the history never grows, the head keeps its verb and submission stamp |
| UnderscoreGuiState.RotateTick | scripts/bioprintly_gui/state.py:66-79 | a Rotate head with half-steps left: direction 0, step flipped, countdown one less, and the file holds the state before the countdown |
| UnderscoreGuiState.TicksNeverFinish | scripts/bioprintly_gui/state.py:58-79 | no number of ticks finishes a command: the history stays, the queue keeps its length and tail |
| UnderscoreGuiState.StuckHead | scripts/bioprintly_gui/state.py:72-76 | a head that is not a Rotate, or has a spent countdown, is stuck: every tick leaves the queue as the first left it, and the board as it was |
| UnderscoreGuiState.GlobalState.constructor | scripts/bioprintly_gui/state.py:41-48 | the defaults: empty queue and history, selected syringe 1, steps90 235 |
| UnderscoreGuiState.GlobalState.SaveGlobalState | scripts/bioprintly_gui/state.py:50-52 | the machine becomes `Saved` of the old one |
| UnderscoreGuiState.GlobalState.LoadGlobalState | scripts/bioprintly_gui/state.py:54-56 | the state is not changed; the load passes exactly when the file at the path is readable |
| UnderscoreGuiState.GlobalState.FinishActiveTask | scripts/bioprintly_gui/state.py:58-60 | only saves |
| UnderscoreGuiState.GlobalState.ProcessCommands | scripts/bioprintly_gui/state.py:62-79 | the machine, the board and the outcome are `Tick` of the old ones |

## Left out

- **Tk GUI:** windows, widgets, redraw scheduling, fonts, colours and position text. Only the rules that enable the calibration buttons, and the effects of their callbacks, are modelled. The `confirm_close_gui` close is modelled as the `WindowClosed` event (scripts/bioprintly/gui.py:83-84), which saves and then sets `shutting_down`.
- **Threads and time.** `sleep`, `Timer` and the thread launches are left out. Clock readings are parameters. The other threads act only at the bridge's sleeps, as a given sequence of events. Races between threads are not modelled.
- **Files.** `open` and `json` are not modelled, and neither is the environment lookup of `establish_savefile_path`. The save file and the request file are values, `None` when missing or malformed. A JSON `null` is not told apart from a missing key in the main program's commands (both are `Option.None`).
- **GPIO.** It is the stub, so configuring pins has no effect and inputs read 0. `exit()` and the `SIGINT` handler registration in the older front ends are left out; everything up to `exit()` is modelled.
- **Integer clocks.** `time_ms` and `unix_time_ms` floor nanoseconds to milliseconds; here a reading is simply an integer. `time_ns` in scripts/bioprintly_gui/state.py is a reading like any other.
- **Pin entries without an io type key.** `write_pin` treats such an entry as not an output. Python would raise `KeyError` on the missing key. Both reject the write.
- **bioprintly-gui imports.** `flip_binary` is imported by scripts/bioprintly-gui/service.py but not defined in scripts/bioprintly-gui/pins.py; it is modelled as `Pins.FlipBit`. scripts/bioprintly-gui/util.py is not part of this model.
- **scripts/bioprintly_gui/process.py imports.** It imports `time_ms`, `save_state_to_disk` and a three-argument `write_pin` that exist only in scripts/bioprintly-gui. It is therefore modelled over that front end's state (`HyphenGuiService.ProcessCommandsWith` with the extra save).
- **Writes to the physical pin.** The `GPIO.output` call after the store in scripts/gui/pins.py:80 passes the pin dictionary instead of its number. On the stub this has no effect.
- RequestHandling.HandleOnceAnswersFreshRequests: a request file is either readable, with a timestamp and commands, or unreadable. The code also accepts a valid JSON file that lacks `timestamp`, or that is fresh and lacks `commands`. Such a file raises `KeyError` at request_handling.py:22-23, outside the `try`, which ends the bridge's thread. The model instead treats it as unreadable.
- Service.Tick: one clock reading stamps both `started_at` and `finished_at` when a command starts and finishes in the same tick. The code reads the clock once for each (service.py:26, 66), so it can give two different stamps.
- Calibration.HomeTheActuator: the duration of the homing sleep is computed, and computing it can raise, but the sleep itself is not modelled.
- **Text getters and font scaling.** `get_actuator_position_text`, `get_plunger_position_text` and font scaling are display-only floating-point formatting.
- **Left-out files.** `scripts/gui/state.py`, `scripts/bioprintly/request.py`, `scripts/bioprintly/main.py` and the other front ends' `main.py` files are not part of this model. Their enqueue callbacks appear here only as inputs.

## Findings

| source | as written | input that shows it | evidently intended | confidence | as-written member | corrected member |
|---|---|---|---|---|---|---|
| scripts/bioprintly/service.py:52-54 | the Actuate countdown reads `specifics['steps needed total']`, with spaces, a key no `CommandActuate` has (state.py:20 declares `steps_needed_total`) | any fresh Actuate command at the head of the queue: every tick raises `KeyError` and the queue never moves | the countdown starts at 2·`steps_needed_total` | high (not executed) | Service.ActuateAsWrittenNeverStarts | Service.ActuateFirstTick |
| scripts/bioprintly/request_handling.py:11 | `state['nonpersistent']['savefolder_path']`, a key that neither `NonPersistentState` nor the initial state has: they have `savefile_path` (state.py:43, 97) | any state `get_initial_global_state` builds: `KeyError` before the first iteration, so no request is ever read or answered | read the request and response files in the folder of `savefile_path` | high (not executed) | RequestHandling.SavefolderLookupRaises | RequestHandling.ResponsesFollowTheWatermark |
| scripts/bioprintly/request_handling.py:39 | `enqueue_command(state, 'Klipper', command)` passes three arguments to a two-parameter function that returns nothing (state.py:132) | once the folder lookup above is corrected, any request newer than the watermark with at least one command: `TypeError` before anything is enqueued, and the bridge's thread ends | enqueue each command and use its ordinal as the caboose | high (not executed) | RequestHandling.EnqueueArityRaises | RequestHandling.HandleOnceAnswersFreshRequests |
