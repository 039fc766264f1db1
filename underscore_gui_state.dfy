/**
 * scripts/bioprintly_gui/state.py: a smaller global state (no pins and no
 * service keys) with its own command tick over the `PINS` board of
 * scripts/bioprintly_gui/pins.py. As written, its `finish_active_task` only
 * saves, its `load_global_state` reads the file and discards what it read,
 * and its tick knows only the Rotate verb, so a head that has run out of
 * half-steps, or is not a Rotate, stays at the head of the queue for good.
 */
module UnderscoreGuiState {
  import opened Wrappers
  import opened Pins
  import opened LegacyPins
  import opened LegacyQueue
  import opened UnderscoreGuiPins

  /** `GlobalState`. */
  datatype Globals = Globals(
    savefilePath: string,
    commandQueue: seq<Command>,
    commandHistory: seq<Command>,
    selectedSyringe: int,
    rotatorStepsEquivalentTo90Degrees: int)

  /** The files on disk, by path: the state last dumped there, or `None` when the file is not valid JSON. */
  type Disk = map<string, Option<Globals>>

  /** The state and the disk it is saved to. */
  datatype Machine = Machine(g: Globals, disk: Disk)

  /** A machine and the board after a call that may raise. */
  datatype Step = Step(m: Machine, pins: PinMappings, outcome: Outcome)

  /** `get_default_global_state`, with the path `establish_savefile_path` found. */
  function DefaultGlobals(savefilePath: string): Globals
  {
    Globals(
      savefilePath := savefilePath,
      commandQueue := [],
      commandHistory := [],
      selectedSyringe := 1,
      rotatorStepsEquivalentTo90Degrees := 235)
  }

  /** `save_global_state`: the file at the state's own path now holds the whole state. */
  function Saved(m: Machine): (r: Machine)
    ensures r.g == m.g
    ensures m.g.savefilePath in r.disk && r.disk[m.g.savefilePath] == Some(m.g)
    ensures forall path :: path in m.disk && path != m.g.savefilePath ==> path in r.disk && r.disk[path] == m.disk[path]
  {
    m.(disk := m.disk[m.g.savefilePath := Some(m.g)])
  }

  /**
   * `load_global_state`: raises when the file at the state's path is missing
   * or is not valid JSON; what it reads is dropped, so the state never changes.
   */
  function Loaded(m: Machine): Outcome
  {
    var path := m.g.savefilePath;
    if path !in m.disk || m.disk[path].None? then Fail(UnreadableFile) else Pass
  }

  /** Saving and then loading succeeds; saving twice is saving once. */
  lemma SaveThenLoad(m: Machine)
    ensures Loaded(Saved(m)) == Pass
    ensures Saved(Saved(m)) == Saved(m)
  {
  }

  /** The head replaced. */
  function WithHead(m: Machine, c: Command): Machine
    requires |m.g.commandQueue| > 0
  {
    m.(g := m.g.(commandQueue := m.g.commandQueue[0 := c]))
  }

  /**
   * `process_commands` on the board `pins`, at the clock reading `now`: stamp
   * and save the head; a Rotate head with half-steps left takes one on the
   * rotator pins and counts down; a Rotate head with none calls
   * `finish_active_task`, which only saves again; any other verb does nothing.
   */
  function Tick(m: Machine, pins: PinMappings, now: int): Step
  {
    if |m.g.commandQueue| == 0 then Step(m, pins, Pass)
    else
      var head := Started(m.g.commandQueue[0], now);
      var m1 := Saved(WithHead(m, head));
      var s := head.specifics;
      if s.verb != Rotate then Step(m1, pins, Pass)
      else if s.halfStepsRemaining == 0 then Step(Saved(m1), pins, Pass)
      else
        var run := HalfStep(pins, "rotator_direction", "rotator_step");
        if run.outcome.Fail? then Step(m1, run.pins, run.outcome)
        else Step(WithHead(m1, CountedDown(head)), run.pins, Pass)
  }

  /**
   * A tick changes only the head of the queue and the disk: the queue keeps
   * its length and its tail, the history never grows, and the head keeps
   * its verb and its submission stamp.
   */
  lemma TickFrame(m: Machine, pins: PinMappings, now: int)
    ensures var g := Tick(m, pins, now).m.g;
      && g.(commandQueue := m.g.commandQueue) == m.g
      && |g.commandQueue| == |m.g.commandQueue|
      && (|g.commandQueue| > 0 ==>
            g.commandQueue[1..] == m.g.commandQueue[1..]
            && g.commandQueue[0].queuedAt == m.g.commandQueue[0].queuedAt
            && g.commandQueue[0].specifics.verb == m.g.commandQueue[0].specifics.verb)
  {
  }

  /**
   * A Rotate head with half-steps left, on a board whose rotator pins are
   * outputs and whose step pin holds a value: the direction pin reads 0, the
   * step pin is flipped, the head counts down, and the file holds the state
   * as it was before the count-down.
   */
  lemma RotateTick(m: Machine, pins: PinMappings, now: int)
    requires |m.g.commandQueue| > 0
    requires var s := m.g.commandQueue[0].specifics; s.verb == Rotate && s.halfStepsRemaining != 0
    requires OutputPin(pins, "rotator_direction") && OutputPin(pins, "rotator_step")
    requires Lookup(pins, "rotator_step").value.value.Some?
    ensures var st := Tick(m, pins, now); var head := Started(m.g.commandQueue[0], now);
      && st.outcome == Pass
      && st.m.g.commandQueue == m.g.commandQueue[0 := CountedDown(head)]
      && ReadStored(st.pins, "rotator_direction") == Ok(0)
      && ReadStored(st.pins, "rotator_step") == Ok(FlipBit(Lookup(pins, "rotator_step").value.value.value))
      && st.m.disk[m.g.savefilePath] == Some(WithHead(m, head).g)
  {
    HalfStepOnOutputs(pins, "rotator_direction", "rotator_step", "");
  }

  /** `process_commands` at each reading in `clocks`, stopping at the first raise. */
  function RunTicks(m: Machine, pins: PinMappings, clocks: seq<int>): Step
    decreases |clocks|
  {
    if |clocks| == 0 then Step(m, pins, Pass)
    else
      var st := Tick(m, pins, clocks[0]);
      if st.outcome.Fail? then st else RunTicks(st.m, st.pins, clocks[1..])
  }

  /** No number of ticks finishes a command: the history stays as it is and the queue keeps its length and its tail. */
  lemma {:induction false} TicksNeverFinish(m: Machine, pins: PinMappings, clocks: seq<int>)
    ensures var g := RunTicks(m, pins, clocks).m.g;
      && g.commandHistory == m.g.commandHistory
      && |g.commandQueue| == |m.g.commandQueue|
      && (|g.commandQueue| > 0 ==> g.commandQueue[1..] == m.g.commandQueue[1..])
    decreases |clocks|
  {
    if |clocks| > 0 {
      var st := Tick(m, pins, clocks[0]);
      TickFrame(m, pins, clocks[0]);
      if st.outcome.Pass? {
        TicksNeverFinish(st.m, st.pins, clocks[1..]);
      }
    }
  }

  /**
   * A head that is not a Rotate, or has no half-steps left, is stuck: every
   * tick from the first on leaves the queue as the first left it (the head
   * stamped with the first reading) and the board as it was.
   */
  lemma {:induction false} StuckHead(m: Machine, pins: PinMappings, clocks: seq<int>)
    requires |m.g.commandQueue| > 0 && |clocks| > 0
    requires var s := m.g.commandQueue[0].specifics; s.verb != Rotate || s.halfStepsRemaining == 0
    ensures var st := RunTicks(m, pins, clocks);
      && st.outcome == Pass
      && st.pins == pins
      && st.m.g == WithHead(m, Started(m.g.commandQueue[0], clocks[0])).g
    decreases |clocks|
  {
    var st := Tick(m, pins, clocks[0]);
    if |clocks| > 1 {
      StuckHead(st.m, pins, clocks[1..]);
      StartedOnce(m.g.commandQueue[0], clocks[0], clocks[1]);
      assert st.m.g.commandQueue[0 := Started(st.m.g.commandQueue[0], clocks[1])] == st.m.g.commandQueue;
    }
  }

  /** The state dictionary and the disk it is saved on. */
  class GlobalState {
    var g: Globals
    var disk: Disk

    function Model(): Machine
      reads this
    {
      Machine(g, disk)
    }

    /** `get_default_global_state`; the disk is given. */
    constructor (savefilePath: string, files: Disk)
      ensures Model() == Machine(DefaultGlobals(savefilePath), files)
    {
      g := DefaultGlobals(savefilePath);
      disk := files;
    }

    /** `save_global_state`. */
    method SaveGlobalState()
      modifies this
      ensures Model() == Saved(old(Model()))
    {
      disk := disk[g.savefilePath := Some(g)];
    }

    /** `load_global_state`: open and parse the file, or raise. */
    method LoadGlobalState() returns (outcome: Outcome)
      ensures outcome == Loaded(Model())
      ensures outcome == Pass <==> g.savefilePath in disk && disk[g.savefilePath].Some?
    {
      var path := g.savefilePath;
      if path !in disk || disk[path].None? {
        return Fail(UnreadableFile);
      }
      return Pass;
    }

    /** `finish_active_task`: only saves. */
    method FinishActiveTask()
      modifies this
      ensures Model() == Saved(old(Model()))
    {
      SaveGlobalState();
    }

    /** `process_commands`, at the clock reading `now` (`time_ns`). */
    method ProcessCommands(board: PinBoard, now: int) returns (outcome: Outcome)
      modifies this, board
      ensures Step(Model(), board.pins, outcome) == Tick(old(Model()), old(board.pins), now)
    {
      if |g.commandQueue| == 0 {
        return Pass;
      }
      var head := Started(g.commandQueue[0], now);
      g := g.(commandQueue := g.commandQueue[0 := head]);
      SaveGlobalState();
      var s := head.specifics;
      if s.verb != Rotate {
        return Pass;
      }
      if s.halfStepsRemaining == 0 {
        FinishActiveTask();
        return Pass;
      }
      outcome := board.WritePin("rotator_direction", 0);
      if outcome.Fail? {
        return;
      }
      var level := board.ReadPin("rotator_step");
      if level.Err? {
        return Fail(level.error);
      }
      outcome := board.WritePin("rotator_step", FlipBit(level.value));
      if outcome.Fail? {
        return;
      }
      g := g.(commandQueue := g.commandQueue[0 := CountedDown(head)]);
    }
  }
}
