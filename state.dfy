/**
 * The rig's global state of scripts/bioprintly/state.py: the command queue and
 * history, the ordinal counter, the pin table, calibration values and the
 * nonpersistent runtime flags, with the save-file projection and merge.
 *
 * The keys that service.py, request_handling.py and gui_calibration.py use but
 * `GlobalState` does not declare (`actuator_position_mm`,
 * `plunger_positions_mm`, `current_syringe`, `request_handling_watermark`,
 * and the actuator constants and lock under `nonpersistent`) are declared here,
 * as their users evidently intend.
 */
module State {
  import opened Wrappers
  import opened Util
  import opened Pins

  /** `SyringeNumber`. */
  type SyringeNumber = n: int | 1 <= n <= 4 witness 1

  /** `CommandRotate` / `CommandActuate`; absent `NotRequired` fields are `None`. */
  datatype Specifics =
    | Rotate(targetSyringe: SyringeNumber, direction: Option<Bit>, halfStepsRemaining: Option<int>)
    | Actuate(actuateDirection: Bit, stepsNeededTotal: int, halfStepsRemaining: Option<int>)

  /** `Command` (and `FinishedCommand`, once both stamps are present). */
  datatype Command = Command(
    ordinal: int,
    enqueuedAt: int,
    startedAt: Option<int>,
    finishedAt: Option<int>,
    specifics: Specifics)

  /** The keys of `PinMappings`, in declaration order. */
  const PIN_NAMES: seq<string> := [
    "rotator_direction", "rotator_step", "actuator_retract", "actuator_extend",
    "heating_pad_1", "heating_pad_2", "heating_pad_3", "heating_pad_4",
    "uv_light_1", "uv_light_2", "uv_light_3", "uv_light_4"]

  /** Every top-level key of the state except `nonpersistent`: what the save file holds. */
  datatype Persistent = Persistent(
    uiScale: real,
    processingLoopInterval: int,
    processingLoopLastStart: int,
    processingLoopMeasuredDelta: int,
    pins: PinMappings,
    commandQueue: seq<Command>,
    commandHistory: seq<Command>,
    nextCommandOrdinal: int,
    rotatorStepsEquivalentTo90Degrees: int,
    actuatorPositionMm: Option<real>,
    plungerPositionsMm: map<SyringeNumber, Option<real>>,
    currentSyringe: Option<SyringeNumber>,
    requestHandlingWatermark: int)

  /** The actuator constants `gui_calibration.py` reads from `nonpersistent`. */
  datatype ActuatorConfig = ActuatorConfig(
    maxPossibleExtensionMm: real,
    travelMmPerMs: real,
    safetyMargin: real)

  /** The keys `get_initial_global_state` puts under `nonpersistent`. */
  const INITIAL_NONPERSISTENT_KEYS: set<string> := {
    "savefile_path", "gui_root", "gui_elements", "default_font_sizes",
    "reopening_gui", "shutting_down", "selected_syringe", "processing_enabled"}

  /**
   * `NonPersistentState`, reduced to what the modelled code reads or writes;
   * `calibrationModalOpen` stands for `modal != None`.
   */
  datatype Nonpersistent = Nonpersistent(
    reopeningGui: bool,
    shuttingDown: bool,
    selectedSyringe: Option<SyringeNumber>,
    processingEnabled: bool,
    actuatorHasCalibrationLock: bool,
    calibrationModalOpen: bool,
    actuator: ActuatorConfig)

  /** One key/value pair of the save file's JSON object, in file order. */
  datatype SavedItem =
    | SavedUiScale(uiScale: real)
    | SavedProcessingLoopInterval(interval: int)
    | SavedProcessingLoopLastStart(lastStart: int)
    | SavedProcessingLoopMeasuredDelta(measuredDelta: int)
    | SavedPins(pins: PinMappings)
    | SavedCommandQueue(queue: seq<Command>)
    | SavedCommandHistory(history: seq<Command>)
    | SavedNextCommandOrdinal(nextOrdinal: int)
    | SavedRotatorStepsEquivalentTo90Degrees(steps90: int)
    | SavedActuatorPositionMm(position: Option<real>)
    | SavedPlungerPositionsMm(plungers: map<SyringeNumber, Option<real>>)
    | SavedCurrentSyringe(current: Option<SyringeNumber>)
    | SavedRequestHandlingWatermark(watermark: int)
    | OtherKey(key: string)   // `nonpersistent`, or a key the state does not have

  /** The save file's contents; `None` when it is missing or is not valid JSON. */
  type SaveFile = Option<seq<SavedItem>>

  /** The whole state: the persistent part, the runtime part and the save file on disk. */
  datatype Rig = Rig(p: Persistent, n: Nonpersistent, savefile: SaveFile)

  /** The top-level keys of the state except `nonpersistent`. */
  datatype StateKey =
    | UiScaleKey | ProcessingLoopIntervalKey | ProcessingLoopLastStartKey | ProcessingLoopMeasuredDeltaKey
    | PinsKey | CommandQueueKey | CommandHistoryKey | NextCommandOrdinalKey
    | RotatorStepsEquivalentTo90DegreesKey | ActuatorPositionMmKey | PlungerPositionsMmKey
    | CurrentSyringeKey | RequestHandlingWatermarkKey

  /** The JSON spelling of a key. */
  function KeyName(k: StateKey): string
  {
    match k
    case UiScaleKey => "ui_scale"
    case ProcessingLoopIntervalKey => "processing_loop_interval"
    case ProcessingLoopLastStartKey => "processing_loop_last_start"
    case ProcessingLoopMeasuredDeltaKey => "processing_loop_measured_delta"
    case PinsKey => "pins"
    case CommandQueueKey => "command_queue"
    case CommandHistoryKey => "command_history"
    case NextCommandOrdinalKey => "next_command_ordinal"
    case RotatorStepsEquivalentTo90DegreesKey => "rotator_steps_equivalent_to_90_degrees"
    case ActuatorPositionMmKey => "actuator_position_mm"
    case PlungerPositionsMmKey => "plunger_positions_mm"
    case CurrentSyringeKey => "current_syringe"
    case RequestHandlingWatermarkKey => "request_handling_watermark"
  }

  /** The key of a save-file item, when it is one the state has (and not `nonpersistent`). */
  function KeyOf(x: SavedItem): Option<StateKey>
  {
    match x
    case SavedUiScale(_) => Some(UiScaleKey)
    case SavedProcessingLoopInterval(_) => Some(ProcessingLoopIntervalKey)
    case SavedProcessingLoopLastStart(_) => Some(ProcessingLoopLastStartKey)
    case SavedProcessingLoopMeasuredDelta(_) => Some(ProcessingLoopMeasuredDeltaKey)
    case SavedPins(_) => Some(PinsKey)
    case SavedCommandQueue(_) => Some(CommandQueueKey)
    case SavedCommandHistory(_) => Some(CommandHistoryKey)
    case SavedNextCommandOrdinal(_) => Some(NextCommandOrdinalKey)
    case SavedRotatorStepsEquivalentTo90Degrees(_) => Some(RotatorStepsEquivalentTo90DegreesKey)
    case SavedActuatorPositionMm(_) => Some(ActuatorPositionMmKey)
    case SavedPlungerPositionsMm(_) => Some(PlungerPositionsMmKey)
    case SavedCurrentSyringe(_) => Some(CurrentSyringeKey)
    case SavedRequestHandlingWatermark(_) => Some(RequestHandlingWatermarkKey)
    case OtherKey(_) => None
  }

  /** `state[key]` as a save-file item. */
  function Field(p: Persistent, k: StateKey): (r: SavedItem)
    ensures KeyOf(r) == Some(k)
  {
    match k
    case UiScaleKey => SavedUiScale(p.uiScale)
    case ProcessingLoopIntervalKey => SavedProcessingLoopInterval(p.processingLoopInterval)
    case ProcessingLoopLastStartKey => SavedProcessingLoopLastStart(p.processingLoopLastStart)
    case ProcessingLoopMeasuredDeltaKey => SavedProcessingLoopMeasuredDelta(p.processingLoopMeasuredDelta)
    case PinsKey => SavedPins(p.pins)
    case CommandQueueKey => SavedCommandQueue(p.commandQueue)
    case CommandHistoryKey => SavedCommandHistory(p.commandHistory)
    case NextCommandOrdinalKey => SavedNextCommandOrdinal(p.nextCommandOrdinal)
    case RotatorStepsEquivalentTo90DegreesKey => SavedRotatorStepsEquivalentTo90Degrees(p.rotatorStepsEquivalentTo90Degrees)
    case ActuatorPositionMmKey => SavedActuatorPositionMm(p.actuatorPositionMm)
    case PlungerPositionsMmKey => SavedPlungerPositionsMm(p.plungerPositionsMm)
    case CurrentSyringeKey => SavedCurrentSyringe(p.currentSyringe)
    case RequestHandlingWatermarkKey => SavedRequestHandlingWatermark(p.requestHandlingWatermark)
  }

  /** Two persistent states agreeing on every key are equal. */
  lemma FieldsDetermine(a: Persistent, b: Persistent)
    requires forall k :: Field(a, k) == Field(b, k)
    ensures a == b
  {
    assert a.uiScale == b.uiScale by { assert Field(a, UiScaleKey) == Field(b, UiScaleKey); }
    assert a.processingLoopInterval == b.processingLoopInterval by {
      assert Field(a, ProcessingLoopIntervalKey) == Field(b, ProcessingLoopIntervalKey);
    }
    assert a.processingLoopLastStart == b.processingLoopLastStart by {
      assert Field(a, ProcessingLoopLastStartKey) == Field(b, ProcessingLoopLastStartKey);
    }
    assert a.processingLoopMeasuredDelta == b.processingLoopMeasuredDelta by {
      assert Field(a, ProcessingLoopMeasuredDeltaKey) == Field(b, ProcessingLoopMeasuredDeltaKey);
    }
    assert a.pins == b.pins by { assert Field(a, PinsKey) == Field(b, PinsKey); }
    assert a.commandQueue == b.commandQueue by { assert Field(a, CommandQueueKey) == Field(b, CommandQueueKey); }
    assert a.commandHistory == b.commandHistory by { assert Field(a, CommandHistoryKey) == Field(b, CommandHistoryKey); }
    assert a.nextCommandOrdinal == b.nextCommandOrdinal by {
      assert Field(a, NextCommandOrdinalKey) == Field(b, NextCommandOrdinalKey);
    }
    assert a.rotatorStepsEquivalentTo90Degrees == b.rotatorStepsEquivalentTo90Degrees by {
      assert Field(a, RotatorStepsEquivalentTo90DegreesKey) == Field(b, RotatorStepsEquivalentTo90DegreesKey);
    }
    assert a.actuatorPositionMm == b.actuatorPositionMm by {
      assert Field(a, ActuatorPositionMmKey) == Field(b, ActuatorPositionMmKey);
    }
    assert a.plungerPositionsMm == b.plungerPositionsMm by {
      assert Field(a, PlungerPositionsMmKey) == Field(b, PlungerPositionsMmKey);
    }
    assert a.currentSyringe == b.currentSyringe by { assert Field(a, CurrentSyringeKey) == Field(b, CurrentSyringeKey); }
    assert a.requestHandlingWatermark == b.requestHandlingWatermark by {
      assert Field(a, RequestHandlingWatermarkKey) == Field(b, RequestHandlingWatermarkKey);
    }
  }

  /** One iteration of `load_state_from_disk`'s loop: `state[key] = value` for a known key. */
  function Apply(p: Persistent, x: SavedItem): Persistent
  {
    match x
    case SavedUiScale(v) => p.(uiScale := v)
    case SavedProcessingLoopInterval(v) => p.(processingLoopInterval := v)
    case SavedProcessingLoopLastStart(v) => p.(processingLoopLastStart := v)
    case SavedProcessingLoopMeasuredDelta(v) => p.(processingLoopMeasuredDelta := v)
    case SavedPins(v) => p.(pins := v)
    case SavedCommandQueue(v) => p.(commandQueue := v)
    case SavedCommandHistory(v) => p.(commandHistory := v)
    case SavedNextCommandOrdinal(v) => p.(nextCommandOrdinal := v)
    case SavedRotatorStepsEquivalentTo90Degrees(v) => p.(rotatorStepsEquivalentTo90Degrees := v)
    case SavedActuatorPositionMm(v) => p.(actuatorPositionMm := v)
    case SavedPlungerPositionsMm(v) => p.(plungerPositionsMm := v)
    case SavedCurrentSyringe(v) => p.(currentSyringe := v)
    case SavedRequestHandlingWatermark(v) => p.(requestHandlingWatermark := v)
    case OtherKey(_) => p
  }

  /** Applying an item changes exactly the key it names, and nothing for a key the state lacks. */
  lemma ApplyField(p: Persistent, x: SavedItem, k: StateKey)
    ensures Field(Apply(p, x), k) == if KeyOf(x) == Some(k) then x else Field(p, k)
  {
  }

  /** The state after `load_state_from_disk` has run through `items` in order. */
  function Merge(p: Persistent, items: seq<SavedItem>): Persistent
    decreases |items|
  {
    if |items| == 0 then p else Apply(Merge(p, items[..|items| - 1]), items[|items| - 1])
  }

  lemma MergeAppend(p: Persistent, items: seq<SavedItem>, x: SavedItem)
    ensures Merge(p, items + [x]) == Apply(Merge(p, items), x)
  {
    assert (items + [x])[..|items|] == items;
  }

  /** The last item of `items` with key `k`, if any. */
  function LastFor(items: seq<SavedItem>, k: StateKey): (r: Option<SavedItem>)
    ensures r.Some? ==> r.value in items && KeyOf(r.value) == Some(k)
    ensures r.None? <==> forall i :: 0 <= i < |items| ==> KeyOf(items[i]) != Some(k)
    decreases |items|
  {
    if |items| == 0 then None
    else
      var x := items[|items| - 1];
      if KeyOf(x) == Some(k) then Some(x) else LastFor(items[..|items| - 1], k)
  }

  /**
   * `load_state_from_disk` merges key by key: a known key takes the value of its
   * last occurrence in the file, a key the file lacks keeps its current value.
   */
  lemma {:induction false} MergeField(p: Persistent, items: seq<SavedItem>, k: StateKey)
    ensures Field(Merge(p, items), k) == if LastFor(items, k).Some? then LastFor(items, k).value else Field(p, k)
    decreases |items|
  {
    if |items| > 0 {
      var init := items[..|items| - 1];
      MergeField(p, init, k);
      ApplyField(Merge(p, init), items[|items| - 1], k);
    }
  }

  /** Keys the state does not have (and `nonpersistent`) are ignored by the load. */
  lemma MergeIgnoresOtherKeys(p: Persistent, items: seq<SavedItem>)
    requires forall i :: 0 <= i < |items| ==> KeyOf(items[i]).None?
    ensures Merge(p, items) == p
  {
    forall k ensures Field(Merge(p, items), k) == Field(p, k) {
      MergeField(p, items, k);
    }
    FieldsDetermine(Merge(p, items), p);
  }

  /** `save_state_to_disk`: the state minus `nonpersistent`, in the state's key order. */
  function SaveImage(p: Persistent): seq<SavedItem>
  {
    [SavedUiScale(p.uiScale),
     SavedProcessingLoopInterval(p.processingLoopInterval),
     SavedProcessingLoopLastStart(p.processingLoopLastStart),
     SavedProcessingLoopMeasuredDelta(p.processingLoopMeasuredDelta),
     SavedPins(p.pins),
     SavedCommandQueue(p.commandQueue),
     SavedCommandHistory(p.commandHistory),
     SavedNextCommandOrdinal(p.nextCommandOrdinal),
     SavedRotatorStepsEquivalentTo90Degrees(p.rotatorStepsEquivalentTo90Degrees),
     SavedActuatorPositionMm(p.actuatorPositionMm),
     SavedPlungerPositionsMm(p.plungerPositionsMm),
     SavedCurrentSyringe(p.currentSyringe),
     SavedRequestHandlingWatermark(p.requestHandlingWatermark)]
  }

  /**
   * Loading what `save_state_to_disk` wrote gives back exactly the saved
   * persistent state, whatever state it is loaded into.
   */
  lemma {:induction false} LoadAfterSave(p: Persistent, q: Persistent)
    ensures Merge(p, SaveImage(q)) == q
  {
    var items: seq<SavedItem> := [];
    var r := p;
    MergeAppend(p, items, SavedUiScale(q.uiScale));
    items := items + [SavedUiScale(q.uiScale)];
    r := r.(uiScale := q.uiScale);
    assert Merge(p, items) == r;
    MergeAppend(p, items, SavedProcessingLoopInterval(q.processingLoopInterval));
    items := items + [SavedProcessingLoopInterval(q.processingLoopInterval)];
    r := r.(processingLoopInterval := q.processingLoopInterval);
    assert Merge(p, items) == r;
    MergeAppend(p, items, SavedProcessingLoopLastStart(q.processingLoopLastStart));
    items := items + [SavedProcessingLoopLastStart(q.processingLoopLastStart)];
    r := r.(processingLoopLastStart := q.processingLoopLastStart);
    assert Merge(p, items) == r;
    MergeAppend(p, items, SavedProcessingLoopMeasuredDelta(q.processingLoopMeasuredDelta));
    items := items + [SavedProcessingLoopMeasuredDelta(q.processingLoopMeasuredDelta)];
    r := r.(processingLoopMeasuredDelta := q.processingLoopMeasuredDelta);
    assert Merge(p, items) == r;
    MergeAppend(p, items, SavedPins(q.pins));
    items := items + [SavedPins(q.pins)];
    r := r.(pins := q.pins);
    assert Merge(p, items) == r;
    MergeAppend(p, items, SavedCommandQueue(q.commandQueue));
    items := items + [SavedCommandQueue(q.commandQueue)];
    r := r.(commandQueue := q.commandQueue);
    assert Merge(p, items) == r;
    MergeAppend(p, items, SavedCommandHistory(q.commandHistory));
    items := items + [SavedCommandHistory(q.commandHistory)];
    r := r.(commandHistory := q.commandHistory);
    assert Merge(p, items) == r;
    MergeAppend(p, items, SavedNextCommandOrdinal(q.nextCommandOrdinal));
    items := items + [SavedNextCommandOrdinal(q.nextCommandOrdinal)];
    r := r.(nextCommandOrdinal := q.nextCommandOrdinal);
    assert Merge(p, items) == r;
    MergeAppend(p, items, SavedRotatorStepsEquivalentTo90Degrees(q.rotatorStepsEquivalentTo90Degrees));
    items := items + [SavedRotatorStepsEquivalentTo90Degrees(q.rotatorStepsEquivalentTo90Degrees)];
    r := r.(rotatorStepsEquivalentTo90Degrees := q.rotatorStepsEquivalentTo90Degrees);
    assert Merge(p, items) == r;
    MergeAppend(p, items, SavedActuatorPositionMm(q.actuatorPositionMm));
    items := items + [SavedActuatorPositionMm(q.actuatorPositionMm)];
    r := r.(actuatorPositionMm := q.actuatorPositionMm);
    assert Merge(p, items) == r;
    MergeAppend(p, items, SavedPlungerPositionsMm(q.plungerPositionsMm));
    items := items + [SavedPlungerPositionsMm(q.plungerPositionsMm)];
    r := r.(plungerPositionsMm := q.plungerPositionsMm);
    assert Merge(p, items) == r;
    MergeAppend(p, items, SavedCurrentSyringe(q.currentSyringe));
    items := items + [SavedCurrentSyringe(q.currentSyringe)];
    r := r.(currentSyringe := q.currentSyringe);
    assert Merge(p, items) == r;
    MergeAppend(p, items, SavedRequestHandlingWatermark(q.requestHandlingWatermark));
    items := items + [SavedRequestHandlingWatermark(q.requestHandlingWatermark)];
    r := r.(requestHandlingWatermark := q.requestHandlingWatermark);
    assert Merge(p, items) == r;
    assert items == SaveImage(q);
    assert Merge(p, items) == r == q;
  }

  /** Every pin of `PinMappings`, with number, io type and value all `None`. */
  function DefaultPins(): (r: PinMappings)
    ensures |r| == |PIN_NAMES|
    ensures forall i :: 0 <= i < |r| ==> r[i] == Entry(PIN_NAMES[i], Pin(None, None, None))
  {
    seq(|PIN_NAMES|, i requires 0 <= i < |PIN_NAMES| => Entry(PIN_NAMES[i], Pin(None, None, None)))
  }

  /** The persistent part of `get_initial_global_state` before the load. */
  function DefaultPersistent(): Persistent
  {
    Persistent(
      uiScale := 1.0,
      processingLoopInterval := 8,
      processingLoopLastStart := 0,
      processingLoopMeasuredDelta := 0,
      pins := DefaultPins(),
      commandQueue := [],
      commandHistory := [],
      nextCommandOrdinal := 0,
      rotatorStepsEquivalentTo90Degrees := 235,
      actuatorPositionMm := None,
      plungerPositionsMm := map[],
      currentSyringe := None,
      requestHandlingWatermark := 0)
  }

  /** The nonpersistent part of `get_initial_global_state`. */
  function DefaultNonpersistent(actuator: ActuatorConfig): Nonpersistent
  {
    Nonpersistent(
      reopeningGui := false,
      shuttingDown := false,
      selectedSyringe := None,
      processingEnabled := false,
      actuatorHasCalibrationLock := false,
      calibrationModalOpen := false,
      actuator := actuator)
  }

  /** `get_initial_global_state`: the defaults, merged with the save file when it can be read. */
  function InitialRig(file: SaveFile, actuator: ActuatorConfig): (r: Rig)
    ensures r.n == DefaultNonpersistent(actuator) && r.savefile == file
    ensures file.None? ==> r.p == DefaultPersistent()
    ensures file.Some? ==> forall k ::
      Field(r.p, k) == if LastFor(file.value, k).Some? then LastFor(file.value, k).value else Field(DefaultPersistent(), k)
  {
    var p := match file
      case None => DefaultPersistent()
      case Some(items) => Merge(DefaultPersistent(), items);
    assert file.Some? ==> forall k ::
      Field(p, k) == if LastFor(file.value, k).Some? then LastFor(file.value, k).value else Field(DefaultPersistent(), k)
    by {
      if file.Some? {
        forall k {
          MergeField(DefaultPersistent(), file.value, k);
        }
      }
    }
    Rig(p, DefaultNonpersistent(actuator), file)
  }

  /** With no readable save file the state is exactly the documented defaults. */
  lemma InitialStateWithoutSaveFile(actuator: ActuatorConfig)
    ensures InitialRig(None, actuator).p.commandQueue == []
    ensures InitialRig(None, actuator).p.commandHistory == []
    ensures InitialRig(None, actuator).p.nextCommandOrdinal == 0
    ensures InitialRig(None, actuator).p.processingLoopInterval == 8
    ensures InitialRig(None, actuator).p.rotatorStepsEquivalentTo90Degrees == 235
    ensures !InitialRig(None, actuator).n.processingEnabled
    ensures forall i :: 0 <= i < |InitialRig(None, actuator).p.pins| ==>
      InitialRig(None, actuator).p.pins[i].pin == Pin(None, None, None)
  {
  }

  /** With the default all-`None` pin table, `write_pin` raises for every name. */
  lemma {:induction false} DefaultPinsRefuseWrites(name: string, value: Bit)
    ensures PinsAfterWrite(DefaultPins(), name, value).Err?
  {
    var t := DefaultPins();
    match IndexOf(t, name)
    case None =>
    case Some(i) =>
      assert t[i].pin.ioType == None;
  }

  /** `enqueue_command`: the new entry at the tail, then the counter incremented. */
  function Enqueued(p: Persistent, specifics: Specifics, now: int): (r: Persistent)
    ensures r.commandQueue == p.commandQueue + [Command(p.nextCommandOrdinal, now, None, None, specifics)]
    ensures r.nextCommandOrdinal == p.nextCommandOrdinal + 1
    ensures r.(commandQueue := p.commandQueue, nextCommandOrdinal := p.nextCommandOrdinal) == p
  {
    p.(commandQueue := p.commandQueue + [Command(p.nextCommandOrdinal, now, None, None, specifics)],
       nextCommandOrdinal := p.nextCommandOrdinal + 1)
  }

  /** Queued ordinals strictly increase and all lie below `next_command_ordinal`. */
  predicate OrdinalsIncreasingBelow(queue: seq<Command>, next: int) {
    && (forall i, j :: 0 <= i < j < |queue| ==> queue[i].ordinal < queue[j].ordinal)
    && (forall i :: 0 <= i < |queue| ==> queue[i].ordinal < next)
  }

  /** `enqueue_command` keeps the ordinal invariant. */
  lemma EnqueueKeepsOrdinalsIncreasing(p: Persistent, specifics: Specifics, now: int)
    requires OrdinalsIncreasingBelow(p.commandQueue, p.nextCommandOrdinal)
    ensures OrdinalsIncreasingBelow(Enqueued(p, specifics, now).commandQueue, Enqueued(p, specifics, now).nextCommandOrdinal)
  {
  }

  /** Enqueueing a batch, one `enqueue_command` per member, with the clock readings `times`. */
  function EnqueuedAll(p: Persistent, batch: seq<Specifics>, times: seq<int>): Persistent
    requires |times| == |batch|
    decreases |batch|
  {
    if |batch| == 0 then p
    else EnqueuedAll(Enqueued(p, batch[0], times[0]), batch[1..], times[1..])
  }

  /** A batch advances the counter by its length and touches nothing but the queue and the counter. */
  lemma {:induction false} EnqueuedAllFrame(p: Persistent, batch: seq<Specifics>, times: seq<int>)
    requires |times| == |batch|
    ensures var r := EnqueuedAll(p, batch, times);
      && r.nextCommandOrdinal == p.nextCommandOrdinal + |batch|
      && r.(commandQueue := p.commandQueue, nextCommandOrdinal := p.nextCommandOrdinal) == p
    decreases |batch|
  {
    if |batch| > 0 {
      EnqueuedAllFrame(Enqueued(p, batch[0], times[0]), batch[1..], times[1..]);
    }
  }

  /**
   * A batch lands at the tail in order, unstarted, numbered consecutively from
   * the old counter; the ordinal invariant survives.
   */
  lemma {:induction false} EnqueuedAllNumbersConsecutively(p: Persistent, batch: seq<Specifics>, times: seq<int>)
    requires |times| == |batch|
    requires OrdinalsIncreasingBelow(p.commandQueue, p.nextCommandOrdinal)
    ensures var r := EnqueuedAll(p, batch, times);
      && r.nextCommandOrdinal == p.nextCommandOrdinal + |batch|
      && |r.commandQueue| == |p.commandQueue| + |batch|
      && r.commandQueue[..|p.commandQueue|] == p.commandQueue
      && (forall i :: 0 <= i < |batch| ==>
            r.commandQueue[|p.commandQueue| + i] == Command(p.nextCommandOrdinal + i, times[i], None, None, batch[i]))
      && OrdinalsIncreasingBelow(r.commandQueue, r.nextCommandOrdinal)
      && r.(commandQueue := p.commandQueue, nextCommandOrdinal := p.nextCommandOrdinal) == p
    decreases |batch|
  {
    if |batch| > 0 {
      var q := Enqueued(p, batch[0], times[0]);
      EnqueueKeepsOrdinalsIncreasing(p, batch[0], times[0]);
      EnqueuedAllNumbersConsecutively(q, batch[1..], times[1..]);
      var r := EnqueuedAll(q, batch[1..], times[1..]);
      assert r.commandQueue[..|q.commandQueue|] == q.commandQueue;
      assert r.commandQueue[..|p.commandQueue|] == r.commandQueue[..|q.commandQueue|][..|p.commandQueue|];
      forall i | 0 <= i < |batch|
        ensures r.commandQueue[|p.commandQueue| + i] == Command(p.nextCommandOrdinal + i, times[i], None, None, batch[i])
      {
        if i == 0 {
          assert r.commandQueue[|p.commandQueue|] == q.commandQueue[|p.commandQueue|];
        } else {
          assert r.commandQueue[|q.commandQueue| + (i - 1)] ==
            Command(q.nextCommandOrdinal + (i - 1), times[1..][i - 1], None, None, batch[1..][i - 1]);
        }
      }
    }
  }

  /**
   * `calibration_is_complete` (imported by gui_calibration.py from state.py, which
   * does not define it): the current syringe, the actuator position and all four plunger
   * positions are known, and no homing or handcrank holds the lock.
   */
  predicate CalibrationIsComplete(r: Rig) {
    && r.p.currentSyringe.Some?
    && r.p.actuatorPositionMm.Some?
    && (forall n: SyringeNumber :: n in r.p.plungerPositionsMm && r.p.plungerPositionsMm[n].Some?)
    && !r.n.actuatorHasCalibrationLock
  }

  /** The pin table replaced. */
  function WithPins(r: Rig, t: PinMappings): Rig {
    r.(p := r.p.(pins := t))
  }

  /**
   * The state dictionary that every thread shares: the persistent keys, the
   * `nonpersistent` sub-dictionary, and the save file it is written to.
   */
  class GlobalState {
    var persistent: Persistent
    var nonpersistent: Nonpersistent
    var savefile: SaveFile

    /** The whole state as a value. */
    function Model(): Rig
      reads this
    {
      Rig(persistent, nonpersistent, savefile)
    }

    /** `get_initial_global_state`, with the save file's contents and the actuator constants as inputs. */
    constructor (file: SaveFile, actuator: ActuatorConfig)
      ensures Model() == InitialRig(file, actuator)
    {
      persistent := DefaultPersistent();
      nonpersistent := DefaultNonpersistent(actuator);
      savefile := file;
      new;
      // try: load_state_from_disk(state) / except: pass
      var _ := LoadStateFromDisk();
    }

    /** `save_state_to_disk`: the file now holds the persistent keys; the state itself is untouched. */
    method SaveStateToDisk()
      modifies this
      ensures savefile == Some(SaveImage(old(persistent)))
      ensures persistent == old(persistent) && nonpersistent == old(nonpersistent)
    {
      savefile := Some(SaveImage(persistent));
    }

    /**
     * `load_state_from_disk`: raises when the file cannot be read; otherwise
     * overwrites each known key, in file order, and leaves `nonpersistent` alone.
     */
    method LoadStateFromDisk() returns (outcome: Outcome)
      modifies this
      ensures savefile == old(savefile) && nonpersistent == old(nonpersistent)
      ensures old(savefile).None? ==> outcome == Fail(UnreadableFile) && persistent == old(persistent)
      ensures old(savefile).Some? ==> outcome == Pass && persistent == Merge(old(persistent), old(savefile).value)
    {
      if savefile.None? {
        return Fail(UnreadableFile);
      }
      var items := savefile.value;
      for i := 0 to |items|
        invariant savefile == old(savefile) && nonpersistent == old(nonpersistent)
        invariant persistent == Merge(old(persistent), items[..i])
      {
        MergeAppend(old(persistent), items[..i], items[i]);
        assert items[..i + 1] == items[..i] + [items[i]];
        // `state[key] = value` when the key is one the state has
        persistent := Apply(persistent, items[i]);
      }
      assert items[..|items|] == items;
      return Pass;
    }

    /** `enqueue_command`, enqueued at clock reading `now`; returns nothing, like the source. */
    method EnqueueCommand(specifics: Specifics, now: int)
      modifies this
      ensures persistent == Enqueued(old(persistent), specifics, now)
      ensures nonpersistent == old(nonpersistent) && savefile == old(savefile)
    {
      var queue := persistent.commandQueue + [Command(persistent.nextCommandOrdinal, now, None, None, specifics)];
      persistent := persistent.(commandQueue := queue, nextCommandOrdinal := persistent.nextCommandOrdinal + 1);
    }
  }
}
