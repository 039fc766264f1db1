/**
 * scripts/bioprintly-gui/service.py: the command-processing tick and the
 * service loop that times it. The clock is a parameter: one reading for
 * `started_at`, one for `finished_at` and the loop's own readings. The same
 * tick, saving the state after the start stamp, is scripts/bioprintly_gui/process.py's.
 */
module HyphenGuiService {
  import opened Wrappers
  import opened Util
  import opened Pins
  import opened LegacyPins
  import opened LegacyQueue
  import opened HyphenGuiState
  import HyphenGuiPins

  /** The clock readings one `process_commands` call takes. */
  datatype TickClock = TickClock(startReading: int, finishReading: int)

  /** The head of the queue replaced. */
  function WithHead(m: Machine, c: Command): Machine
    requires |m.g.commandQueue| > 0
  {
    m.(g := m.g.(commandQueue := m.g.commandQueue[0 := c]))
  }

  /**
   * `finish_active_task`: stamp the head finished, append it to the history,
   * keep the rest of the queue, then save.
   */
  function Finished(m: Machine, now: int): Machine
    requires |m.g.commandQueue| > 0
  {
    var q := m.g.commandQueue;
    Saved(m.(g := m.g.(commandHistory := m.g.commandHistory + [q[0].(finishedAt := Some(now))],
                       commandQueue := q[1..])))
  }

  /** The direction pin a verb drives. */
  function DirectionPinOf(v: Verb): string {
    if v == Actuate then "actuator_direction" else "rotator_direction"
  }

  /** The step pin a verb drives. */
  function StepPinOf(v: Verb): string {
    if v == Actuate then "actuator_step" else "rotator_step"
  }

  /**
   * `process_commands`; with `savesOnStart` it is the tick of
   * scripts/bioprintly_gui/process.py, which saves the state after the start stamp.
   */
  function TickWith(m: Machine, clock: TickClock, savesOnStart: bool): Step
  {
    if |m.g.commandQueue| == 0 then Step(m, Pass)
    else
      var head := Started(m.g.commandQueue[0], clock.startReading);
      var m1 := if savesOnStart then Saved(WithHead(m, head)) else WithHead(m, head);
      var s := head.specifics;
      if s.verb.OtherVerb? then Step(m1, Pass)
      else if s.halfStepsRemaining == 0 then Step(Finished(m1, clock.finishReading), Pass)
      else
        var run := HalfStep(m1.g.pins, DirectionPinOf(s.verb), StepPinOf(s.verb));
        var m2 := WithPins(m1, run.pins);
        if run.outcome.Fail? then Step(m2, run.outcome)
        else Step(WithHead(m2, CountedDown(head)), Pass)
  }

  /** scripts/bioprintly-gui/service.py's `process_commands`. */
  function Tick(m: Machine, clock: TickClock): Step {
    TickWith(m, clock, false)
  }

  /**
   * A tick changes only the queue, the history, the pins and the disk; it never
   * moves the save path, the service switch or the timing keys.
   */
  lemma TickFrame(m: Machine, clock: TickClock, savesOnStart: bool)
    ensures var g := TickWith(m, clock, savesOnStart).m.g;
      g.(commandQueue := m.g.commandQueue, commandHistory := m.g.commandHistory, pins := m.g.pins) == m.g
  {
  }

  /** An empty queue: nothing happens. */
  lemma TickEmptyQueue(m: Machine, clock: TickClock, savesOnStart: bool)
    requires |m.g.commandQueue| == 0
    ensures TickWith(m, clock, savesOnStart) == Step(m, Pass)
  {
  }

  /**
   * A head whose countdown is 0 is finished: it leaves the queue, stamped at
   * both ends (the start stamp kept if it had one), and the history grows by
   * exactly it; the state is saved to its path.
   */
  lemma FinishingTick(m: Machine, clock: TickClock, savesOnStart: bool)
    requires |m.g.commandQueue| > 0
    requires var s := m.g.commandQueue[0].specifics; !s.verb.OtherVerb? && s.halfStepsRemaining == 0
    ensures var st := TickWith(m, clock, savesOnStart); var c := m.g.commandQueue[0];
      && st.outcome == Pass
      && st.m.g.commandQueue == m.g.commandQueue[1..]
      && st.m.g.commandHistory == m.g.commandHistory + [Started(c, clock.startReading).(finishedAt := Some(clock.finishReading))]
      && st.m.g.pins == m.g.pins
      && st.m.disk[m.g.savefilePath] == Some(SaveImage(st.m.g))
  {
  }

  /**
   * A head with a positive countdown on ready pins takes one half-step: the
   * direction pin is 0, the step pin is flipped, the countdown drops by one and
   * the command stays at the head, started.
   */
  lemma MotionTick(m: Machine, clock: TickClock, savesOnStart: bool)
    requires |m.g.commandQueue| > 0
    requires var s := m.g.commandQueue[0].specifics; !s.verb.OtherVerb? && s.halfStepsRemaining != 0
    requires var v := m.g.commandQueue[0].specifics.verb;
      OutputPin(m.g.pins, DirectionPinOf(v)) && OutputPin(m.g.pins, StepPinOf(v))
      && Lookup(m.g.pins, StepPinOf(v)).value.value.Some?
    ensures var st := TickWith(m, clock, savesOnStart); var c := m.g.commandQueue[0]; var v := c.specifics.verb;
      && st.outcome == Pass
      && |st.m.g.commandQueue| == |m.g.commandQueue|
      && st.m.g.commandQueue[0] == CountedDown(Started(c, clock.startReading))
      && st.m.g.commandQueue[1..] == m.g.commandQueue[1..]
      && st.m.g.commandHistory == m.g.commandHistory
      && ReadStored(st.m.g.pins, DirectionPinOf(v)) == Ok(0)
      && ReadStored(st.m.g.pins, StepPinOf(v)) == Ok(FlipBit(Lookup(m.g.pins, StepPinOf(v)).value.value.value))
  {
    var c := m.g.commandQueue[0];
    var v := c.specifics.verb;
    var head := Started(c, clock.startReading);
    var m1 := if savesOnStart then Saved(WithHead(m, head)) else WithHead(m, head);
    assert m1.g.pins == m.g.pins;
    HalfStepOnOutputs(m.g.pins, DirectionPinOf(v), StepPinOf(v), "");
  }

  /**
   * The Actuate branch drives `actuator_direction`, which the default pin
   * table does not have: the tick raises, with only the start stamp taken.
   */
  lemma ActuateOnDefaultPinsRaises(m: Machine, clock: TickClock, savefilePath: string)
    requires m.g.pins == DefaultGlobals(savefilePath).pins
    requires |m.g.commandQueue| > 0
    requires var s := m.g.commandQueue[0].specifics; s.verb == Actuate && s.halfStepsRemaining != 0
    ensures Tick(m, clock) == Step(WithHead(m, Started(m.g.commandQueue[0], clock.startReading)), Fail(UnknownPin("actuator_direction")))
  {
    HalfStepWithoutDirectionPin(m.g.pins, "actuator_direction", "actuator_step");
  }

  /** `process_commands` run once per clock in `clocks`, stopping at the first raise. */
  function RunTicks(m: Machine, clocks: seq<TickClock>): Step
    decreases |clocks|
  {
    if |clocks| == 0 then Step(m, Pass)
    else
      var st := Tick(m, clocks[0]);
      if st.outcome.Fail? then st else RunTicks(st.m, clocks[1..])
  }

  /** The step pin and direction pin of a verb, outputs with stored values. */
  predicate ReadyFor(t: PinMappings, v: Verb) {
    && OutputPin(t, DirectionPinOf(v)) && OutputPin(t, StepPinOf(v))
    && Lookup(t, StepPinOf(v)).value.value.Some?
  }

  /** A half-step keeps a verb's pins ready. */
  lemma HalfStepKeepsReady(t: PinMappings, v: Verb)
    requires !v.OtherVerb? && ReadyFor(t, v)
    ensures HalfStep(t, DirectionPinOf(v), StepPinOf(v)).outcome == Pass
    ensures ReadyFor(HalfStep(t, DirectionPinOf(v), StepPinOf(v)).pins, v)
  {
    var d := DirectionPinOf(v);
    var p := StepPinOf(v);
    HalfStepOnOutputs(t, d, p, "");
    var t1 := PinsAfterWrite(t, d, 0).value;
    WriteKeepsOutputPins(t, d, 0, d);
    WriteKeepsOutputPins(t, d, 0, p);
    WriteKeepsOutputPins(t1, p, FlipBit(ReadStored(t1, p).value), d);
    WriteKeepsOutputPins(t1, p, FlipBit(ReadStored(t1, p).value), p);
  }

  /**
   * A Rotate or Actuate head with countdown `k` on ready pins takes exactly
   * `k` half-steps and is finished by the next tick: after `k + 1` ticks it has
   * left the queue for the end of the history, and the rest of the queue is unchanged.
   */
  lemma {:induction false} RunToCompletion(m: Machine, clocks: seq<TickClock>)
    requires |m.g.commandQueue| > 0
    requires var s := m.g.commandQueue[0].specifics; !s.verb.OtherVerb? && s.halfStepsRemaining >= 0
    requires ReadyFor(m.g.pins, m.g.commandQueue[0].specifics.verb)
    requires |clocks| == m.g.commandQueue[0].specifics.halfStepsRemaining + 1
    ensures var st := RunTicks(m, clocks);
      && st.outcome == Pass
      && st.m.g.commandQueue == m.g.commandQueue[1..]
      && |st.m.g.commandHistory| == |m.g.commandHistory| + 1
      && st.m.g.commandHistory[..|m.g.commandHistory|] == m.g.commandHistory
      && st.m.g.commandHistory[|m.g.commandHistory|].specifics.halfStepsRemaining == 0
    decreases |clocks|
  {
    var c := m.g.commandQueue[0];
    var st := Tick(m, clocks[0]);
    assert clocks[1..] == [] ==> RunTicks(st.m, clocks[1..]) == Step(st.m, Pass);
    if c.specifics.halfStepsRemaining == 0 {
      FinishingTick(m, clocks[0], false);
    } else {
      MotionTick(m, clocks[0], false);
      HalfStepKeepsReady(m.g.pins, c.specifics.verb);
      var head := Started(c, clocks[0].startReading);
      assert st.m.g.pins == HalfStep(m.g.pins, DirectionPinOf(c.specifics.verb), StepPinOf(c.specifics.verb)).pins;
      RunToCompletion(st.m, clocks[1..]);
    }
  }

  // ---------------------------------------------------------------- the service loop

  /** The clock readings of one `run_service` iteration. */
  datatype LoopTimes = LoopTimes(
    loopStart: int,      // `loop_start_time`
    tick: TickClock,     // the readings `process_commands` takes
    afterReading: int,   // the reading stored as the last loop start
    sleepReading: int)   // the reading the sleep is computed from

  /** The state, the sleeps taken and the outcome of some iterations of `run_service`. */
  datatype Run = Run(m: Machine, sleeps: seq<int>, outcome: Outcome)

  /** One iteration up to the sleep: measure the delta, maybe tick, then record the loop start. */
  function LoopBody(m: Machine, t: LoopTimes): Step {
    var m1 := m.(g := m.g.(serviceDeltaMs := t.loopStart - m.g.lastServiceLoopStart));
    var st := if m1.g.serviceOn then Tick(m1, t.tick) else Step(m1, Pass);
    if st.outcome.Fail? then st
    else Step(st.m.(g := st.m.g.(lastServiceLoopStart := t.afterReading)), Pass)
  }

  /** `run_service`'s `while True` over the iterations whose readings are `times`; a raise ends the thread. */
  function ServiceRun(m: Machine, times: seq<LoopTimes>): Run
    decreases |times|
  {
    if |times| == 0 then Run(m, [], Pass)
    else
      var st := LoopBody(m, times[0]);
      if st.outcome.Fail? then Run(st.m, [], st.outcome)
      else
        var sleep := SleepDuration(st.m.g.serviceTimestepMs, times[0].sleepReading - times[0].loopStart);
        Prepend([sleep], ServiceRun(st.m, times[1..]))
  }

  function Prepend(sleeps: seq<int>, run: Run): Run {
    Run(run.m, sleeps + run.sleeps, run.outcome)
  }

  /**
   * Each completed iteration stores `loop_start − last_start` as the delta and
   * the after-processing reading as the new last start; the timestep is kept.
   */
  lemma LoopBodyTiming(m: Machine, t: LoopTimes)
    requires LoopBody(m, t).outcome == Pass
    ensures var g := LoopBody(m, t).m.g;
      && g.serviceDeltaMs == t.loopStart - m.g.lastServiceLoopStart
      && g.lastServiceLoopStart == t.afterReading
      && g.serviceTimestepMs == m.g.serviceTimestepMs
      && g.serviceOn == m.g.serviceOn
  {
    var m1 := m.(g := m.g.(serviceDeltaMs := t.loopStart - m.g.lastServiceLoopStart));
    TickFrame(m1, t.tick, false);
  }

  /**
   * Every sleep is `max(0, timestep − work time)`: never negative and, when the
   * clock does not run backwards within an iteration, never above the timestep.
   */
  lemma {:induction false} ServiceSleepsBounded(m: Machine, times: seq<LoopTimes>)
    requires m.g.serviceTimestepMs >= 0
    requires forall i :: 0 <= i < |times| ==> times[i].loopStart <= times[i].sleepReading
    ensures var run := ServiceRun(m, times);
      && |run.sleeps| <= |times|
      && forall i :: 0 <= i < |run.sleeps| ==> 0 <= run.sleeps[i] <= m.g.serviceTimestepMs
    decreases |times|
  {
    if |times| > 0 {
      var st := LoopBody(m, times[0]);
      if st.outcome.Pass? {
        LoopBodyTiming(m, times[0]);
        ServiceSleepsBounded(st.m, times[1..]);
      }
    }
  }

  /** With the service off the loop only keeps time: queue, history, pins and disk stay put. */
  lemma {:induction false} ServiceOffOnlyKeepsTime(m: Machine, times: seq<LoopTimes>)
    requires !m.g.serviceOn
    ensures var run := ServiceRun(m, times);
      && run.outcome == Pass
      && |run.sleeps| == |times|
      && run.m.g.commandQueue == m.g.commandQueue
      && run.m.g.commandHistory == m.g.commandHistory
      && run.m.g.pins == m.g.pins
      && run.m.disk == m.disk
    decreases |times|
  {
    if |times| > 0 {
      ServiceOffOnlyKeepsTime(LoopBody(m, times[0]).m, times[1..]);
    }
  }

  /** One iteration of `run_service`, given the iteration's result `st`. */
  lemma ServiceRunAfter(m: Machine, times: seq<LoopTimes>, st: Step)
    requires |times| > 0 && st == LoopBody(m, times[0])
    ensures ServiceRun(m, times) ==
      if st.outcome.Fail? then Run(st.m, [], st.outcome)
      else Prepend([SleepDuration(st.m.g.serviceTimestepMs, times[0].sleepReading - times[0].loopStart)], ServiceRun(st.m, times[1..]))
  {
  }

  lemma PrependTwice(a: seq<int>, b: seq<int>, run: Run)
    ensures Prepend(a, Prepend(b, run)) == Prepend(a + b, run)
  {
    assert a + (b + run.sleeps) == (a + b) + run.sleeps;
  }

  // ---------------------------------------------------------------- the imperative code

  /** `finish_active_task`. */
  method FinishActiveTask(state: GlobalState, now: int)
    requires |state.g.commandQueue| > 0
    modifies state
    ensures state.Model() == Finished(old(state.Model()), now)
  {
    var queue := state.g.commandQueue;
    queue := queue[0 := queue[0].(finishedAt := Some(now))];
    state.g := state.g.(commandHistory := state.g.commandHistory + [queue[0]], commandQueue := queue[1..]);
    state.SaveStateToDisk();
  }

  /** Write the direction pin 0, then the step pin flipped. */
  method HalfStepOnPins(state: GlobalState, directionPin: string, stepPin: string) returns (outcome: Outcome)
    modifies state
    ensures state.Model() == WithPins(old(state.Model()), HalfStep(old(state.g.pins), directionPin, stepPin).pins)
    ensures outcome == HalfStep(old(state.g.pins), directionPin, stepPin).outcome
  {
    outcome := HyphenGuiPins.WritePin(state, directionPin, 0);
    if outcome.Fail? {
      return;
    }
    var level := HyphenGuiPins.ReadPin(state, stepPin);
    if level.Err? {
      return Fail(level.error);
    }
    outcome := HyphenGuiPins.WritePin(state, stepPin, FlipBit(level.value));
  }

  /** `process_commands`; with `savesOnStart`, the one of scripts/bioprintly_gui/process.py. */
  method ProcessCommandsWith(state: GlobalState, clock: TickClock, savesOnStart: bool) returns (outcome: Outcome)
    modifies state
    ensures Step(state.Model(), outcome) == TickWith(old(state.Model()), clock, savesOnStart)
  {
    var queue := state.g.commandQueue;
    if |queue| == 0 {
      return Pass;
    }
    var head := Started(queue[0], clock.startReading);
    state.g := state.g.(commandQueue := queue[0 := head]);
    if savesOnStart {
      state.SaveStateToDisk();
    }
    var s := head.specifics;
    if s.verb.OtherVerb? {
      return Pass;
    }
    if s.halfStepsRemaining == 0 {
      FinishActiveTask(state, clock.finishReading);
      return Pass;
    }
    outcome := HalfStepOnPins(state, DirectionPinOf(s.verb), StepPinOf(s.verb));
    if outcome.Pass? {
      state.g := state.g.(commandQueue := state.g.commandQueue[0 := CountedDown(head)]);
    }
  }

  /** scripts/bioprintly-gui/service.py's `process_commands`. */
  method ProcessCommands(state: GlobalState, clock: TickClock) returns (outcome: Outcome)
    modifies state
    ensures Step(state.Model(), outcome) == Tick(old(state.Model()), clock)
  {
    outcome := ProcessCommandsWith(state, clock, false);
  }

  /** One iteration of `run_service`'s loop, up to the sleep. */
  method LoopIteration(state: GlobalState, t: LoopTimes) returns (outcome: Outcome)
    modifies state
    ensures Step(state.Model(), outcome) == LoopBody(old(state.Model()), t)
  {
    state.g := state.g.(serviceDeltaMs := t.loopStart - state.g.lastServiceLoopStart);
    outcome := Pass;
    if state.g.serviceOn {
      outcome := ProcessCommands(state, t.tick);
      if outcome.Fail? {
        return;
      }
    }
    state.g := state.g.(lastServiceLoopStart := t.afterReading);
  }

  /** `run_service`, over the iterations whose clock readings are `times`; returns the sleeps. */
  method RunService(state: GlobalState, times: seq<LoopTimes>) returns (sleeps: seq<int>, outcome: Outcome)
    modifies state
    ensures Run(state.Model(), sleeps, outcome) == ServiceRun(old(state.Model()), times)
  {
    ghost var start := state.Model();
    ghost var current := start;
    sleeps := [];
    var i := 0;
    while i < |times|
      invariant 0 <= i <= |times|
      invariant current == state.Model()
      invariant ServiceRun(start, times) == Prepend(sleeps, ServiceRun(current, times[i..]))
      decreases |times| - i
    {
      outcome := LoopIteration(state, times[i]);
      ServiceRunAfter(current, times[i..], Step(state.Model(), outcome));
      if outcome.Fail? {
        return;
      }
      var sleep := SleepDuration(state.g.serviceTimestepMs, times[i].sleepReading - times[i].loopStart);
      assert times[i..][1..] == times[i + 1..];
      PrependTwice(sleeps, [sleep], ServiceRun(state.Model(), times[i + 1..]));
      sleeps := sleeps + [sleep];
      current := state.Model();
      i := i + 1;
    }
    return sleeps, Pass;
  }

}
