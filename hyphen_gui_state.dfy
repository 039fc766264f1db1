/**
 * The global state of scripts/bioprintly-gui/state.py: timing of the service
 * loop, the pin table, the command queue and history, and the save file. The
 * file system is a map from paths to save-file contents.
 */
module HyphenGuiState {
  import opened Wrappers
  import opened Pins
  import opened LegacyQueue

  /** `GlobalState`. */
  datatype Globals = Globals(
    savefilePath: string,
    pins: PinMappings,
    serviceOn: bool,
    serviceTimestepMs: int,
    lastServiceLoopStart: int,
    serviceDeltaMs: int,
    commandQueue: seq<Command>,
    commandHistory: seq<Command>,
    selectedSyringe: int,
    rotatorStepsEquivalentTo90Degrees: int)

  /** One key/value pair of the save file's JSON object, in file order. */
  datatype SavedItem =
    | SavedSavefilePath(path: string)
    | SavedPins(pins: PinMappings)
    | SavedServiceOn(on: bool)
    | SavedServiceTimestepMs(timestep: int)
    | SavedLastServiceLoopStart(lastStart: int)
    | SavedServiceDeltaMs(delta: int)
    | SavedCommandQueue(queue: seq<Command>)
    | SavedCommandHistory(history: seq<Command>)
    | SavedSelectedSyringe(selected: int)
    | SavedRotatorStepsEquivalentTo90Degrees(steps90: int)
    | OtherKey(key: string)   // a key the state does not have

  /** A save file's contents; `None` when it is not valid JSON. */
  type SaveFile = Option<seq<SavedItem>>

  /** The files on disk, by path. */
  type Disk = map<string, SaveFile>

  /** The state and the disk it is saved to. */
  datatype Machine = Machine(g: Globals, disk: Disk)

  /** A machine after a statement that may raise. */
  datatype Step = Step(m: Machine, outcome: Outcome)

  /** The keys of `GlobalState`. */
  datatype StateKey =
    | SavefilePathKey | PinsKey | ServiceOnKey | ServiceTimestepMsKey | LastServiceLoopStartKey
    | ServiceDeltaMsKey | CommandQueueKey | CommandHistoryKey | SelectedSyringeKey
    | RotatorStepsEquivalentTo90DegreesKey

  /** The key of a save-file item, when it is one the state has. */
  function KeyOf(x: SavedItem): Option<StateKey>
  {
    match x
    case SavedSavefilePath(_) => Some(SavefilePathKey)
    case SavedPins(_) => Some(PinsKey)
    case SavedServiceOn(_) => Some(ServiceOnKey)
    case SavedServiceTimestepMs(_) => Some(ServiceTimestepMsKey)
    case SavedLastServiceLoopStart(_) => Some(LastServiceLoopStartKey)
    case SavedServiceDeltaMs(_) => Some(ServiceDeltaMsKey)
    case SavedCommandQueue(_) => Some(CommandQueueKey)
    case SavedCommandHistory(_) => Some(CommandHistoryKey)
    case SavedSelectedSyringe(_) => Some(SelectedSyringeKey)
    case SavedRotatorStepsEquivalentTo90Degrees(_) => Some(RotatorStepsEquivalentTo90DegreesKey)
    case OtherKey(_) => None
  }

  /** `state[key]` as a save-file item. */
  function Field(g: Globals, k: StateKey): (r: SavedItem)
    ensures KeyOf(r) == Some(k)
  {
    match k
    case SavefilePathKey => SavedSavefilePath(g.savefilePath)
    case PinsKey => SavedPins(g.pins)
    case ServiceOnKey => SavedServiceOn(g.serviceOn)
    case ServiceTimestepMsKey => SavedServiceTimestepMs(g.serviceTimestepMs)
    case LastServiceLoopStartKey => SavedLastServiceLoopStart(g.lastServiceLoopStart)
    case ServiceDeltaMsKey => SavedServiceDeltaMs(g.serviceDeltaMs)
    case CommandQueueKey => SavedCommandQueue(g.commandQueue)
    case CommandHistoryKey => SavedCommandHistory(g.commandHistory)
    case SelectedSyringeKey => SavedSelectedSyringe(g.selectedSyringe)
    case RotatorStepsEquivalentTo90DegreesKey => SavedRotatorStepsEquivalentTo90Degrees(g.rotatorStepsEquivalentTo90Degrees)
  }

  /** Two states agreeing on every key are equal. */
  lemma FieldsDetermine(a: Globals, b: Globals)
    requires forall k :: Field(a, k) == Field(b, k)
    ensures a == b
  {
    assert a.savefilePath == b.savefilePath by { assert Field(a, SavefilePathKey) == Field(b, SavefilePathKey); }
    assert a.pins == b.pins by { assert Field(a, PinsKey) == Field(b, PinsKey); }
    assert a.serviceOn == b.serviceOn by { assert Field(a, ServiceOnKey) == Field(b, ServiceOnKey); }
    assert a.serviceTimestepMs == b.serviceTimestepMs by {
      assert Field(a, ServiceTimestepMsKey) == Field(b, ServiceTimestepMsKey);
    }
    assert a.lastServiceLoopStart == b.lastServiceLoopStart by {
      assert Field(a, LastServiceLoopStartKey) == Field(b, LastServiceLoopStartKey);
    }
    assert a.serviceDeltaMs == b.serviceDeltaMs by { assert Field(a, ServiceDeltaMsKey) == Field(b, ServiceDeltaMsKey); }
    assert a.commandQueue == b.commandQueue by { assert Field(a, CommandQueueKey) == Field(b, CommandQueueKey); }
    assert a.commandHistory == b.commandHistory by { assert Field(a, CommandHistoryKey) == Field(b, CommandHistoryKey); }
    assert a.selectedSyringe == b.selectedSyringe by { assert Field(a, SelectedSyringeKey) == Field(b, SelectedSyringeKey); }
    assert a.rotatorStepsEquivalentTo90Degrees == b.rotatorStepsEquivalentTo90Degrees by {
      assert Field(a, RotatorStepsEquivalentTo90DegreesKey) == Field(b, RotatorStepsEquivalentTo90DegreesKey);
    }
  }

  /** One iteration of `load_state_from_disk`'s loop: `state[key] = value` when `key in state`. */
  function Apply(g: Globals, x: SavedItem): Globals
  {
    match x
    case SavedSavefilePath(v) => g.(savefilePath := v)
    case SavedPins(v) => g.(pins := v)
    case SavedServiceOn(v) => g.(serviceOn := v)
    case SavedServiceTimestepMs(v) => g.(serviceTimestepMs := v)
    case SavedLastServiceLoopStart(v) => g.(lastServiceLoopStart := v)
    case SavedServiceDeltaMs(v) => g.(serviceDeltaMs := v)
    case SavedCommandQueue(v) => g.(commandQueue := v)
    case SavedCommandHistory(v) => g.(commandHistory := v)
    case SavedSelectedSyringe(v) => g.(selectedSyringe := v)
    case SavedRotatorStepsEquivalentTo90Degrees(v) => g.(rotatorStepsEquivalentTo90Degrees := v)
    case OtherKey(_) => g
  }

  /** Applying an item changes exactly the key it names, and nothing for a key the state lacks. */
  lemma ApplyField(g: Globals, x: SavedItem, k: StateKey)
    ensures Field(Apply(g, x), k) == if KeyOf(x) == Some(k) then x else Field(g, k)
  {
  }

  /** The state after the load loop has run through `items` in order. */
  function Merge(g: Globals, items: seq<SavedItem>): Globals
    decreases |items|
  {
    if |items| == 0 then g else Apply(Merge(g, items[..|items| - 1]), items[|items| - 1])
  }

  lemma MergeAppend(g: Globals, items: seq<SavedItem>, x: SavedItem)
    ensures Merge(g, items + [x]) == Apply(Merge(g, items), x)
  {
    assert (items + [x])[..|items|] == items;
  }

  /** The last item of `items` with key `k`, if any. */
  function LastFor(items: seq<SavedItem>, k: StateKey): (r: Option<SavedItem>)
    ensures r.Some? ==> r.value in items && KeyOf(r.value) == Some(k)
    ensures r.None? <==> forall i :: 0 <= i < |items| ==> KeyOf(items[i]) != Some(k)
    decreases |items|
  {
    if |items| == 0 then None
    else
      var x := items[|items| - 1];
      if KeyOf(x) == Some(k) then Some(x) else LastFor(items[..|items| - 1], k)
  }

  /**
   * `load_state_from_disk` overwrites exactly the keys the file has (the last
   * occurrence wins), `savefile_path` included, and keeps every other key.
   */
  lemma {:induction false} MergeField(g: Globals, items: seq<SavedItem>, k: StateKey)
    ensures Field(Merge(g, items), k) == if LastFor(items, k).Some? then LastFor(items, k).value else Field(g, k)
    decreases |items|
  {
    if |items| > 0 {
      var init := items[..|items| - 1];
      MergeField(g, init, k);
      ApplyField(Merge(g, init), items[|items| - 1], k);
    }
  }

  /** Keys the state does not have are ignored by the load. */
  lemma MergeIgnoresOtherKeys(g: Globals, items: seq<SavedItem>)
    requires forall i :: 0 <= i < |items| ==> KeyOf(items[i]).None?
    ensures Merge(g, items) == g
  {
    forall k ensures Field(Merge(g, items), k) == Field(g, k) {
      MergeField(g, items, k);
    }
    FieldsDetermine(Merge(g, items), g);
  }

  /** `save_state_to_disk`: every key of the state, in the state's key order. */
  function SaveImage(g: Globals): seq<SavedItem>
  {
    [SavedSavefilePath(g.savefilePath),
     SavedPins(g.pins),
     SavedServiceOn(g.serviceOn),
     SavedServiceTimestepMs(g.serviceTimestepMs),
     SavedLastServiceLoopStart(g.lastServiceLoopStart),
     SavedServiceDeltaMs(g.serviceDeltaMs),
     SavedCommandQueue(g.commandQueue),
     SavedCommandHistory(g.commandHistory),
     SavedSelectedSyringe(g.selectedSyringe),
     SavedRotatorStepsEquivalentTo90Degrees(g.rotatorStepsEquivalentTo90Degrees)]
  }

  /** Loading what `save_state_to_disk` wrote gives back the saved state, whatever state it is loaded into. */
  lemma {:induction false} LoadAfterSave(g: Globals, q: Globals)
    ensures Merge(g, SaveImage(q)) == q
  {
    forall k ensures Field(Merge(g, SaveImage(q)), k) == Field(q, k) {
      MergeField(g, SaveImage(q), k);
      LastInImage(q, k);
    }
    FieldsDetermine(Merge(g, SaveImage(q)), q);
  }

  /** Each key occurs in the image, last (and only) as the state's own value. */
  lemma LastInImage(q: Globals, k: StateKey)
    ensures LastFor(SaveImage(q), k) == Some(Field(q, k))
  {
    var img := SaveImage(q);
    var i := match k
      case SavefilePathKey => 0
      case PinsKey => 1
      case ServiceOnKey => 2
      case ServiceTimestepMsKey => 3
      case LastServiceLoopStartKey => 4
      case ServiceDeltaMsKey => 5
      case CommandQueueKey => 6
      case CommandHistoryKey => 7
      case SelectedSyringeKey => 8
      case RotatorStepsEquivalentTo90DegreesKey => 9;
    assert img[i] == Field(q, k);
    LastForFinds(img, k, i);
  }

  lemma {:induction false} LastForFinds(items: seq<SavedItem>, k: StateKey, i: nat)
    requires i < |items| && KeyOf(items[i]) == Some(k)
    requires forall j :: i < j < |items| ==> KeyOf(items[j]) != Some(k)
    ensures LastFor(items, k) == Some(items[i])
    decreases |items|
  {
    if i < |items| - 1 {
      LastForFinds(items[..|items| - 1], k, i);
    }
  }

  /** `save_state_to_disk`: the file at the state's own path now holds the whole state. */
  function Saved(m: Machine): (r: Machine)
    ensures r.g == m.g
  {
    m.(disk := m.disk[m.g.savefilePath := Some(SaveImage(m.g))])
  }

  /**
   * `load_state_from_disk`: raises when the file at the state's path is missing
   * or is not valid JSON; otherwise merges it into the state.
   */
  function Loaded(m: Machine): Step
  {
    var path := m.g.savefilePath;
    if path !in m.disk || m.disk[path].None? then Step(m, Fail(UnreadableFile))
    else Step(m.(g := Merge(m.g, m.disk[path].value)), Pass)
  }

  /** Saving and then loading leaves the state as it was. */
  lemma SaveThenLoad(m: Machine)
    ensures Loaded(Saved(m)) == Step(Saved(m), Pass)
  {
    LoadAfterSave(m.g, m.g);
  }

  /** A load reads the file at the old path but may move the state's own `savefile_path`. */
  lemma LoadMovesSavefilePath(m: Machine)
    requires Loaded(m).outcome == Pass
    ensures Loaded(m).m.g.savefilePath ==
      match LastFor(m.disk[m.g.savefilePath].value, SavefilePathKey)
      case None => m.g.savefilePath
      case Some(x) => x.path
    ensures Loaded(m).m.disk == m.disk
  {
    MergeField(m.g, m.disk[m.g.savefilePath].value, SavefilePathKey);
  }

  /** `build_default_global_state`, with the path `establish_savefile_path` found. */
  function DefaultGlobals(savefilePath: string): Globals
  {
    Globals(
      savefilePath := savefilePath,
      pins := [Entry("rotator_step", Pin(Some(3), Some(Output), Some(0))),
               Entry("rotator_direction", Pin(Some(5), Some(Output), Some(0)))],
      serviceOn := false,
      serviceTimestepMs := 8,
      lastServiceLoopStart := 0,
      serviceDeltaMs := 0,
      commandQueue := [],
      commandHistory := [],
      selectedSyringe := 1,
      rotatorStepsEquivalentTo90Degrees := 235)
  }

  /** The pin table replaced. */
  function WithPins(m: Machine, t: PinMappings): Machine {
    m.(g := m.g.(pins := t))
  }

  /** The state dictionary shared by the GUI and the service thread, and the disk it is saved on. */
  class GlobalState {
    var g: Globals
    var disk: Disk

    function Model(): Machine
      reads this
    {
      Machine(g, disk)
    }

    /** `build_default_global_state`; the disk is given. */
    constructor (savefilePath: string, files: Disk)
      ensures Model() == Machine(DefaultGlobals(savefilePath), files)
    {
      g := DefaultGlobals(savefilePath);
      disk := files;
    }

    /** `save_state_to_disk`. */
    method SaveStateToDisk()
      modifies this
      ensures Model() == Saved(old(Model()))
    {
      disk := disk[g.savefilePath := Some(SaveImage(g))];
    }

    /** `load_state_from_disk`: open the file (or raise), then the key-by-key loop. */
    method LoadStateFromDisk() returns (outcome: Outcome)
      modifies this
      ensures Step(Model(), outcome) == Loaded(old(Model()))
    {
      var path := g.savefilePath;
      if path !in disk || disk[path].None? {
        return Fail(UnreadableFile);
      }
      var items := disk[path].value;
      for i := 0 to |items|
        invariant disk == old(disk)
        invariant g == Merge(old(g), items[..i])
      {
        MergeAppend(old(g), items[..i], items[i]);
        assert items[..i + 1] == items[..i] + [items[i]];
        g := Apply(g, items[i]);
      }
      assert items[..|items|] == items;
      return Pass;
    }
  }
}
