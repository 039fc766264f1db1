/**
 * The command processor of scripts/bioprintly/service.py: one tick advances
 * the head of the queue by one half-step (a direction write and a flip of the
 * step pin), initialising the command's countdown on its first tick and moving
 * it to the history when the countdown is spent; `run_service` repeats ticks at
 * a fixed interval.
 *
 * `state['selected_syringe']` is the `selected_syringe` of `nonpersistent`, where
 * the initial state keeps it; `service_on`, `gui_on` and `service_loop_*` are
 * `processing_enabled`, not `shutting_down` and `processing_loop_*`. As
 * written, each of these keys is missing from the state and its lookup would
 * raise `KeyError`. The clock readings are inputs: one per tick, which stamps
 * both `started_at` and `finished_at` of a command that starts and finishes
 * in the same tick (the code reads the clock once for each).
 */
module Service {
  import opened Wrappers
  import opened Util
  import opened Pins
  import opened State
  import opened PinIO

  /** The state after one call, and whether the call raised. */
  datatype Step = Step(rig: Rig, outcome: Outcome)

  /** The pin table after a sequence of pin operations, and whether one raised. */
  datatype PinStep = PinStep(pins: PinMappings, outcome: Outcome)

  /** The key service.py line 54 looks up; the declared field is `steps_needed_total`. */
  const STEPS_KEY_AS_WRITTEN: string := "steps needed total"

  /** The queue with its head replaced. */
  function WithHead(r: Rig, c: Command): Rig
    requires |r.p.commandQueue| > 0
  {
    r.(p := r.p.(commandQueue := r.p.commandQueue[0 := c]))
  }

  /** `started_at` is stamped only when absent. */
  function Started(c: Command, now: int): (r: Command)
    ensures r.startedAt.Some? && r.specifics == c.specifics
    ensures c.startedAt.Some? ==> r == c
    ensures c.startedAt.None? ==> r == c.(startedAt := Some(now))
  {
    if c.startedAt.Some? then c else c.(startedAt := Some(now))
  }

  /** A command whose countdown (and, for a rotation, direction) has been computed. */
  predicate Initialised(s: Specifics) {
    s.halfStepsRemaining.Some? && (s.Rotate? ==> s.direction.Some?)
  }

  /** The signed number of full steps from the selected syringe to the target. */
  function RawSteps(target: SyringeNumber, selected: SyringeNumber, steps90: int): int {
    (target - selected) * steps90
  }

  /**
   * The lazy initialisation of the head's countdown. `keyAsWritten` selects the
   * Actuate lookup of `'steps needed total'` as written in the source instead of
   * the declared `steps_needed_total`.
   */
  function Initialise(s: Specifics, selected: Option<SyringeNumber>, steps90: int, keyAsWritten: bool): (r: Result<Specifics>)
    ensures Initialised(s) ==> r == Ok(s)
    ensures r.Ok? ==> Initialised(r.value) && r.value.Rotate? == s.Rotate?
    ensures r.Ok? && s.Rotate? ==> r.value.targetSyringe == s.targetSyringe
    ensures r.Ok? && s.Actuate? ==> r.value.actuateDirection == s.actuateDirection && r.value.stepsNeededTotal == s.stepsNeededTotal
  {
    match s
    case Rotate(target, dir, hsr) =>
      if dir.Some? && hsr.Some? then Ok(s)
      else if selected.None? then Err(TypeError)   // int - None
      else
        var raw := RawSteps(target, selected.value, steps90);
        Ok(Rotate(target, Some(Direction(raw)), Some(2 * AbsInt(raw))))
    case Actuate(dir, total, hsr) =>
      if hsr.Some? then Ok(s)
      else if keyAsWritten then Err(KeyError(STEPS_KEY_AS_WRITTEN))
      else Ok(Actuate(dir, total, Some(2 * total)))
  }

  function DirectionPin(s: Specifics): string {
    if s.Rotate? then "rotator_direction" else "actuator_direction"
  }

  function StepPin(s: Specifics): string {
    if s.Rotate? then "rotator_step" else "actuator_step"
  }

  function DirectionLevel(s: Specifics): Bit
    requires Initialised(s)
  {
    if s.Rotate? then s.direction.value else s.actuateDirection
  }

  /** One half-step on the table: write the direction, read the step pin, write it flipped. */
  function HalfStepPins(t: PinMappings, dirPin: string, dir: Bit, stepPin: string): PinStep
  {
    match PinsAfterWrite(t, dirPin, dir)
    case Err(e) => PinStep(t, Fail(e))
    case Ok(t1) =>
      match ReadPin(t1, stepPin)
      case Err(e) => PinStep(t1, Fail(e))
      case Ok(v) =>
        match PinsAfterWrite(t1, stepPin, FlipBit(Level(v)))
        case Err(e) => PinStep(t1, Fail(e))
        case Ok(t2) => PinStep(t2, Pass)
  }

  /** `finish_active_task`: stamp the head, append it to the history, drop it, save. */
  function Finished(r: Rig, now: int): (r': Rig)
    requires |r.p.commandQueue| > 0
  {
    var done := r.p.commandQueue[0].(finishedAt := Some(now));
    var p := r.p.(commandHistory := r.p.commandHistory + [done], commandQueue := r.p.commandQueue[1..]);
    r.(p := p, savefile := Some(SaveImage(p)))
  }

  /** Selecting the rotation's target, as the finishing tick of a rotation does. */
  function SelectTarget(r: Rig, s: Specifics): Rig {
    if s.Rotate? then r.(n := r.n.(selectedSyringe := Some(s.targetSyringe))) else r
  }

  /** The part of a tick after initialisation: finish, or one half-step, on the head `c`. */
  function Advance(r: Rig, c: Command, now: int): Step
    requires |r.p.commandQueue| > 0 && Initialised(c.specifics)
  {
    var s := c.specifics;
    var r2 := WithHead(r, c);
    var k := s.halfStepsRemaining.value;
    if k == 0 then Step(Finished(SelectTarget(r2, s), now), Pass)
    else
      var ps := HalfStepPins(r2.p.pins, DirectionPin(s), DirectionLevel(s), StepPin(s));
      if ps.outcome.Fail? then Step(WithPins(r2, ps.pins), ps.outcome)
      else Step(WithHead(WithPins(r2, ps.pins), c.(specifics := s.(halfStepsRemaining := Some(k - 1)))), Pass)
  }

  /** `process_commands`, with the source's Actuate key or the declared one. */
  function TickWith(r: Rig, now: int, keyAsWritten: bool): Step
  {
    if |r.p.commandQueue| == 0 then Step(r, Pass)
    else
      var head := Started(r.p.commandQueue[0], now);
      match Initialise(head.specifics, r.n.selectedSyringe, r.p.rotatorStepsEquivalentTo90Degrees, keyAsWritten)
      case Err(e) => Step(WithHead(r, head), Fail(e))
      case Ok(s) => Advance(r, head.(specifics := s), now)
  }

  /** `process_commands` as the source writes it (Actuate looks up `'steps needed total'`). */
  function TickAsWritten(r: Rig, now: int): Step {
    TickWith(r, now, true)
  }

  /**
   * `process_commands` with the Actuate countdown read from `steps_needed_total`,
   * the field `CommandActuate` declares; the rest of the model uses this one.
   */
  function Tick(r: Rig, now: int): Step {
    TickWith(r, now, false)
  }

  /** A tick changes only the queue, the history, the pin values, the selected syringe and the save file. */
  lemma TickFrame(r: Rig, now: int)
    ensures var s := Tick(r, now);
      && s.rig.p.(commandQueue := r.p.commandQueue, commandHistory := r.p.commandHistory, pins := r.p.pins) == r.p
      && s.rig.n.(selectedSyringe := r.n.selectedSyringe) == r.n
  {
    if |r.p.commandQueue| > 0 {
      var head := Started(r.p.commandQueue[0], now);
      match Initialise(head.specifics, r.n.selectedSyringe, r.p.rotatorStepsEquivalentTo90Degrees, false)
      case Err(_) =>
      case Ok(s) => AdvanceFrame(r, head.(specifics := s), now);
    }
  }

  /** `Advance` changes only the queue, the history, the pin values, the selected syringe and the save file. */
  lemma AdvanceFrame(r: Rig, c: Command, now: int)
    requires |r.p.commandQueue| > 0 && Initialised(c.specifics)
    ensures var s := Advance(r, c, now);
      && s.rig.p.(commandQueue := r.p.commandQueue, commandHistory := r.p.commandHistory, pins := r.p.pins) == r.p
      && s.rig.n == (if c.specifics.halfStepsRemaining.value == 0 then SelectTarget(r, c.specifics).n else r.n)
  {
    var st := Advance(r, c, now);
    var r2 := WithHead(r, c);
    if c.specifics.halfStepsRemaining.value == 0 {
      assert st.rig == Finished(SelectTarget(r2, c.specifics), now);
    } else {
      var ps := HalfStep(r2.p.pins, MotionOf(c.specifics));
      assert st.rig.n == r.n && st.rig.p.rotatorStepsEquivalentTo90Degrees == r.p.rotatorStepsEquivalentTo90Degrees;
    }
  }

  /** The ordinals of a list of commands. */
  function Ordinals(cs: seq<Command>): (r: seq<int>)
    ensures |r| == |cs| && forall i :: 0 <= i < |cs| ==> r[i] == cs[i].ordinal
  {
    seq(|cs|, i requires 0 <= i < |cs| => cs[i].ordinal)
  }

  /** Both stamps of a command are unchanged by the pin and countdown updates of a tick. */
  predicate SameCommand(a: Command, b: Command) {
    a.ordinal == b.ordinal && a.enqueuedAt == b.enqueuedAt
  }

  // ---------------------------------------------------------------- lemmas

  /** An empty queue: nothing happens. */
  lemma TickEmptyQueue(r: Rig, now: int)
    requires r.p.commandQueue == []
    ensures Tick(r, now) == Step(r, Pass)
  {
  }

  /**
   * The command a tick works on gets `started_at` on its first tick and keeps it
   * afterwards, whether it stays at the head or moves to the history.
   */
  lemma TickStampsStartOnce(r: Rig, now: int)
    requires |r.p.commandQueue| > 0
    ensures var r' := Tick(r, now).rig;
      var c := r.p.commandQueue[0];
      var stamp := if c.startedAt.Some? then c.startedAt else Some(now);
      if |r'.p.commandQueue| == |r.p.commandQueue| then
        && r'.p.commandHistory == r.p.commandHistory
        && SameCommand(r'.p.commandQueue[0], c) && r'.p.commandQueue[0].startedAt == stamp
        && r'.p.commandQueue[1..] == r.p.commandQueue[1..]
      else
        && r'.p.commandQueue == r.p.commandQueue[1..]
        && |r'.p.commandHistory| == |r.p.commandHistory| + 1
        && SameCommand(r'.p.commandHistory[|r.p.commandHistory|], c)
        && r'.p.commandHistory[|r.p.commandHistory|].startedAt == stamp
        && r'.p.commandHistory[|r.p.commandHistory|].finishedAt == Some(now)
  {
  }

  /** `finish_active_task`: one command leaves the queue's head for the history's tail. */
  lemma FinishedMovesHead(r: Rig, now: int)
    requires |r.p.commandQueue| > 0
    ensures var p' := Finished(r, now).p;
      && |p'.commandQueue| == |r.p.commandQueue| - 1
      && |p'.commandHistory| == |r.p.commandHistory| + 1
      && p'.commandQueue == r.p.commandQueue[1..]
      && p'.commandHistory == r.p.commandHistory + [r.p.commandQueue[0].(finishedAt := Some(now))]
      && Ordinals(p'.commandHistory + p'.commandQueue) == Ordinals(r.p.commandHistory + r.p.commandQueue)
      && Finished(r, now).savefile == Some(SaveImage(p'))
  {
    var p' := Finished(r, now).p;
    var a := p'.commandHistory + p'.commandQueue;
    var b := r.p.commandHistory + r.p.commandQueue;
    assert |a| == |b|;
    forall i | 0 <= i < |a| ensures a[i].ordinal == b[i].ordinal {
      if i < |r.p.commandHistory| {
      } else if i == |r.p.commandHistory| {
      } else {
        assert a[i] == p'.commandQueue[i - |r.p.commandHistory| - 1];
      }
    }
  }

  /** A tick never reorders or renumbers commands: history then queue keeps its ordinals. */
  lemma TickKeepsOrdinals(r: Rig, now: int)
    ensures Ordinals(Tick(r, now).rig.p.commandHistory + Tick(r, now).rig.p.commandQueue)
         == Ordinals(r.p.commandHistory + r.p.commandQueue)
  {
    if |r.p.commandQueue| > 0 {
      var r' := Tick(r, now).rig;
      TickStampsStartOnce(r, now);
      var a := r'.p.commandHistory + r'.p.commandQueue;
      var b := r.p.commandHistory + r.p.commandQueue;
      if |r'.p.commandQueue| == |r.p.commandQueue| {
        forall i | 0 <= i < |a| ensures a[i].ordinal == b[i].ordinal {
          if i > |r.p.commandHistory| {
            assert a[i] == r'.p.commandQueue[1..][i - |r.p.commandHistory| - 1];
          }
        }
      } else {
        forall i | 0 <= i < |a| ensures a[i].ordinal == b[i].ordinal {
          if i > |r.p.commandHistory| {
            assert a[i] == r'.p.commandQueue[i - |r.p.commandHistory| - 1];
          }
        }
      }
    }
  }

  /** A rotation with no syringe selected raises on its first tick, after stamping it. */
  lemma RotateWithoutSelectionRaises(r: Rig, now: int)
    requires |r.p.commandQueue| > 0 && r.p.commandQueue[0].specifics.Rotate?
    requires !Initialised(r.p.commandQueue[0].specifics) && r.n.selectedSyringe.None?
    ensures Tick(r, now) == Step(WithHead(r, Started(r.p.commandQueue[0], now)), Fail(TypeError))
  {
  }

  /** The pins and the direction level a half-step of an initialised verb uses. */
  datatype Motion = Motion(directionPin: string, direction: Bit, stepPin: string)

  function MotionOf(s: Specifics): (m: Motion)
    requires Initialised(s)
    ensures m.directionPin == DirectionPin(s) && m.stepPin == StepPin(s) && m.directionPin != m.stepPin
  {
    Motion(DirectionPin(s), DirectionLevel(s), StepPin(s))
  }

  /** One half-step of a motion on the table `t`. */
  function HalfStep(t: PinMappings, m: Motion): PinStep {
    HalfStepPins(t, m.directionPin, m.direction, m.stepPin)
  }

  /** Both pins a motion drives exist and are outputs. */
  predicate Ready(t: PinMappings, m: Motion) {
    OutputPin(t, m.directionPin) && OutputPin(t, m.stepPin)
  }

  /** The level last written to a pin (`None` reads as 0). */
  function ShadowLevel(t: PinMappings, name: string): Bit {
    match Lookup(t, name)
    case None => 0
    case Some(p) => Level(p.value)
  }

  /**
   * A half-step on ready pins succeeds: the direction pin then holds the
   * direction, the step pin is flipped, no other pin changes and both pins
   * stay ready.
   */
  lemma HalfStepOnReadyPins(t: PinMappings, m: Motion)
    requires m.directionPin != m.stepPin && Ready(t, m)
    ensures var ps := HalfStep(t, m);
      && ps.outcome == Pass
      && Ready(ps.pins, m)
      && ReadPin(ps.pins, m.directionPin) == Ok(Some(m.direction))
      && ShadowLevel(ps.pins, m.stepPin) == FlipBit(ShadowLevel(t, m.stepPin))
      && (forall name :: name != m.directionPin && name != m.stepPin ==> Lookup(ps.pins, name) == Lookup(t, name))
  {
    var dirPin, stepPin := m.directionPin, m.stepPin;
    var t1 := PinsAfterWrite(t, dirPin, m.direction).value;
    WriteLeavesOtherPins(t, dirPin, m.direction, stepPin);
    ReadAfterWrite(t, dirPin, m.direction);
    var v := ReadPin(t1, stepPin).value;
    assert v == Lookup(t, stepPin).value.value;
    var t2 := PinsAfterWrite(t1, stepPin, FlipBit(Level(v))).value;
    ReadAfterWrite(t1, stepPin, FlipBit(Level(v)));
    WriteLeavesOtherPins(t1, stepPin, FlipBit(Level(v)), dirPin);
    forall name | name != dirPin && name != stepPin ensures Lookup(t2, name) == Lookup(t, name) {
      WriteLeavesOtherPins(t, dirPin, m.direction, name);
      WriteLeavesOtherPins(t1, stepPin, FlipBit(Level(v)), name);
    }
    WriteKeepsLayout(t, dirPin, m.direction, dirPin);
    WriteKeepsLayout(t1, stepPin, FlipBit(Level(v)), dirPin);
    WriteKeepsLayout(t1, stepPin, FlipBit(Level(v)), stepPin);
  }

  /** The table after `k` half-steps of `m`. */
  function PinsAfterHalfSteps(t: PinMappings, m: Motion, k: nat): PinMappings
    decreases k
  {
    if k == 0 then t else PinsAfterHalfSteps(HalfStep(t, m).pins, m, k - 1)
  }

  /** Each of `k` half-steps of `m` from `t` succeeds. */
  predicate HalfStepsSucceed(t: PinMappings, m: Motion, k: nat)
    decreases k
  {
    k == 0 || (HalfStep(t, m).outcome == Pass && HalfStepsSucceed(HalfStep(t, m).pins, m, k - 1))
  }

  /** `k` half-steps on ready pins all succeed, and the pins stay ready. */
  lemma {:induction false} HalfStepsOnReadyPins(t: PinMappings, m: Motion, k: nat)
    requires m.directionPin != m.stepPin && Ready(t, m)
    ensures HalfStepsSucceed(t, m, k) && Ready(PinsAfterHalfSteps(t, m, k), m)
    decreases k
  {
    if k > 0 {
      HalfStepOnReadyPins(t, m);
      HalfStepsOnReadyPins(HalfStep(t, m).pins, m, k - 1);
    }
  }

  /**
   * After `k` half-steps on ready pins the step pin has been flipped `k`
   * times: it is back where it was when `k` is even.
   */
  lemma {:induction false} HalfStepsFlipStepPin(t: PinMappings, m: Motion, k: nat)
    requires m.directionPin != m.stepPin && Ready(t, m)
    ensures ShadowLevel(PinsAfterHalfSteps(t, m, k), m.stepPin) ==
      (if k % 2 == 0 then ShadowLevel(t, m.stepPin) else FlipBit(ShadowLevel(t, m.stepPin)))
    decreases k
  {
    if k > 0 {
      var t1 := HalfStep(t, m).pins;
      HalfStepOnReadyPins(t, m);
      HalfStepsFlipStepPin(t1, m, k - 1);
      var l0 := ShadowLevel(t, m.stepPin);
      if k % 2 == 0 {
        FlipBitInvolution(l0);
      }
    }
  }

  /** After at least one half-step on ready pins the direction pin holds the direction. */
  lemma {:induction false} HalfStepsSetDirection(t: PinMappings, m: Motion, k: nat)
    requires m.directionPin != m.stepPin && Ready(t, m) && k > 0
    ensures ReadPin(PinsAfterHalfSteps(t, m, k), m.directionPin) == Ok(Some(m.direction))
    decreases k
  {
    HalfStepOnReadyPins(t, m);
    if k > 1 {
      HalfStepsSetDirection(HalfStep(t, m).pins, m, k - 1);
    }
  }

  /** Half-steps on ready pins change no pin but the two the motion drives. */
  lemma {:induction false} HalfStepsLeaveOtherPins(t: PinMappings, m: Motion, k: nat, name: string)
    requires m.directionPin != m.stepPin && Ready(t, m)
    requires name != m.directionPin && name != m.stepPin
    ensures Lookup(PinsAfterHalfSteps(t, m, k), name) == Lookup(t, name)
    decreases k
  {
    if k > 0 {
      HalfStepOnReadyPins(t, m);
      HalfStepsLeaveOtherPins(HalfStep(t, m).pins, m, k - 1, name);
    }
  }

  /** On an initialised head a tick goes straight to `Advance`. */
  lemma TickOnInitialised(r: Rig, now: int)
    requires |r.p.commandQueue| > 0 && Initialised(r.p.commandQueue[0].specifics)
    ensures Tick(r, now) == Advance(r, Started(r.p.commandQueue[0], now), now)
  {
    var head := Started(r.p.commandQueue[0], now);
    assert head.(specifics := head.specifics) == head;
  }

  /**
   * The first tick of a fresh head only adds the countdown before going on:
   * whenever initialisation succeeds, the tick acts as it would on the head
   * already initialised.
   */
  lemma TickInitialises(r: Rig, now: int, s: Specifics)
    requires |r.p.commandQueue| > 0
    requires Initialise(r.p.commandQueue[0].specifics, r.n.selectedSyringe, r.p.rotatorStepsEquivalentTo90Degrees, false) == Ok(s)
    ensures Tick(r, now) == Tick(WithHead(r, r.p.commandQueue[0].(specifics := s)), now)
  {
    var c := r.p.commandQueue[0];
    var r' := WithHead(r, c.(specifics := s));
    TickOnInitialised(r', now);
    assert Started(c, now).(specifics := s) == Started(c.(specifics := s), now);
    assert WithHead(r', Started(c.(specifics := s), now)) == WithHead(r, Started(c.(specifics := s), now));
  }

  /** The state after a successful half-step of the head `c`: new pins, countdown one less. */
  function Moved(r: Rig, c: Command, t: PinMappings): Rig
    requires |r.p.commandQueue| > 0 && c.specifics.halfStepsRemaining.Some?
  {
    WithHead(WithPins(r, t), c.(specifics := c.specifics.(halfStepsRemaining := Some(c.specifics.halfStepsRemaining.value - 1))))
  }

  lemma AdvanceMotion(r: Rig, c: Command, now: int)
    requires |r.p.commandQueue| > 0 && Initialised(c.specifics) && c.specifics.halfStepsRemaining.value != 0
    requires HalfStep(r.p.pins, MotionOf(c.specifics)).outcome == Pass
    ensures Advance(r, c, now) == Step(Moved(r, c, HalfStep(r.p.pins, MotionOf(c.specifics)).pins), Pass)
  {
  }

  /**
   * A tick on an initialised head with half-steps left whose half-step
   * succeeds: the countdown drops by one and the pins are the half-step's.
   */
  lemma MotionTick(r: Rig, now: int)
    requires |r.p.commandQueue| > 0
    requires var s := r.p.commandQueue[0].specifics;
      Initialised(s) && s.halfStepsRemaining.value != 0 && HalfStep(r.p.pins, MotionOf(s)).outcome == Pass
    ensures Tick(r, now) ==
      Step(Moved(r, Started(r.p.commandQueue[0], now), HalfStep(r.p.pins, MotionOf(r.p.commandQueue[0].specifics)).pins), Pass)
  {
    TickOnInitialised(r, now);
    AdvanceMotion(r, Started(r.p.commandQueue[0], now), now);
  }

  /** A tick on an initialised head whose countdown is spent: it finishes, with no pin write. */
  lemma FinishingTick(r: Rig, now: int)
    requires |r.p.commandQueue| > 0
    requires var s := r.p.commandQueue[0].specifics; Initialised(s) && s.halfStepsRemaining.value == 0
    ensures var c := r.p.commandQueue[0];
      var st := Tick(r, now);
      && st.outcome == Pass
      && st.rig.p.pins == r.p.pins
      && st.rig.p.commandQueue == r.p.commandQueue[1..]
      && st.rig.p.commandHistory == r.p.commandHistory + [Started(c, now).(finishedAt := Some(now))]
      && st.rig.n == (if c.specifics.Rotate? then r.n.(selectedSyringe := Some(c.specifics.targetSyringe)) else r.n)
      && st.rig.savefile == Some(SaveImage(st.rig.p))
  {
  }

  /**
   * The first tick of a rotation computes `half_steps_remaining` as
   * 2·|(target − selected)·steps90| and the direction from the sign, then
   * either finishes (nothing to do) or makes the first half-step.
   */
  lemma RotateFirstTick(r: Rig, now: int)
    requires |r.p.commandQueue| > 0
    requires var s := r.p.commandQueue[0].specifics; s.Rotate? && !Initialised(s)
    requires r.n.selectedSyringe.Some?
    requires OutputPin(r.p.pins, "rotator_direction") && OutputPin(r.p.pins, "rotator_step")
    ensures var c := r.p.commandQueue[0];
      var raw := RawSteps(c.specifics.targetSyringe, r.n.selectedSyringe.value, r.p.rotatorStepsEquivalentTo90Degrees);
      var st := Tick(r, now);
      && st.outcome == Pass
      && (raw == 0 ==> st.rig.p.commandQueue == r.p.commandQueue[1..] && st.rig.p.pins == r.p.pins &&
                       st.rig.n.selectedSyringe == Some(c.specifics.targetSyringe))
      && (raw != 0 ==> st.rig.p.commandQueue[1..] == r.p.commandQueue[1..] &&
                       st.rig.p.commandQueue[0].specifics ==
                         Rotate(c.specifics.targetSyringe, Some(Direction(raw)), Some(2 * AbsInt(raw) - 1)) &&
                       ReadPin(st.rig.p.pins, "rotator_direction") == Ok(Some(Direction(raw))) &&
                       ShadowLevel(st.rig.p.pins, "rotator_step") == FlipBit(ShadowLevel(r.p.pins, "rotator_step")))
  {
    var c := r.p.commandQueue[0];
    var raw := RawSteps(c.specifics.targetSyringe, r.n.selectedSyringe.value, r.p.rotatorStepsEquivalentTo90Degrees);
    var s := Rotate(c.specifics.targetSyringe, Some(Direction(raw)), Some(2 * AbsInt(raw)));
    TickInitialises(r, now, s);
    var r' := WithHead(r, c.(specifics := s));
    if raw != 0 {
      HalfStepOnReadyPins(r.p.pins, MotionOf(s));
      MotionTick(r', now);
    } else {
      FinishingTick(r', now);
    }
  }

  /** Rotating to the syringe already selected finishes on the first tick and moves nothing. */
  lemma SameSyringeFinishesAtOnce(r: Rig, now: int)
    requires |r.p.commandQueue| > 0
    requires var s := r.p.commandQueue[0].specifics; s.Rotate? && !Initialised(s)
    requires r.n.selectedSyringe == Some(r.p.commandQueue[0].specifics.targetSyringe)
    ensures var st := Tick(r, now);
      && st.outcome == Pass
      && st.rig.p.pins == r.p.pins
      && st.rig.p.commandQueue == r.p.commandQueue[1..]
      && st.rig.n == r.n
  {
  }

  /** Ticks at clock readings `nows`, stopping at the first that raises. */
  function RunTicks(r: Rig, nows: seq<int>): Step
    decreases |nows|
  {
    if |nows| == 0 then Step(r, Pass)
    else
      var st := Tick(r, nows[0]);
      if st.outcome.Fail? then st else RunTicks(st.rig, nows[1..])
  }

  /** A motion tick at the start of a run: the run goes on from the moved state. */
  lemma RunMotionStep(r: Rig, nows: seq<int>)
    requires |nows| > 0 && |r.p.commandQueue| > 0
    requires var s := r.p.commandQueue[0].specifics;
      Initialised(s) && s.halfStepsRemaining.value != 0 && HalfStep(r.p.pins, MotionOf(s)).outcome == Pass
    ensures RunTicks(r, nows) ==
      RunTicks(Moved(r, Started(r.p.commandQueue[0], nows[0]), HalfStep(r.p.pins, MotionOf(r.p.commandQueue[0].specifics)).pins), nows[1..])
  {
    MotionTick(r, nows[0]);
  }

  /** A run of the started, initialised head `c` to its end, finishing at `now`. */
  function Completed(r: Rig, c: Command, now: int): Rig
    requires |r.p.commandQueue| > 0 && Initialised(c.specifics) && c.specifics.halfStepsRemaining.value >= 0
  {
    var s := c.specifics;
    var t := PinsAfterHalfSteps(r.p.pins, MotionOf(s), s.halfStepsRemaining.value);
    Finished(SelectTarget(WithHead(WithPins(r, t), c.(specifics := s.(halfStepsRemaining := Some(0)))), s), now)
  }

  /**
   * Where a run of the head ends: it is the last entry of the history with its
   * countdown spent and its finishing stamp, the rest of the queue has moved
   * up, the pins are those of all its half-steps, a rotation has selected its
   * target, the state has been saved, and nothing else has changed.
   */
  lemma CompletedShape(r: Rig, c: Command, now: int)
    requires |r.p.commandQueue| > 0 && Initialised(c.specifics) && c.specifics.halfStepsRemaining.value >= 0
    ensures var s := c.specifics;
      var e := Completed(r, c, now);
      && e.p.commandQueue == r.p.commandQueue[1..]
      && e.p.commandHistory == r.p.commandHistory + [c.(specifics := s.(halfStepsRemaining := Some(0)), finishedAt := Some(now))]
      && e.p.pins == PinsAfterHalfSteps(r.p.pins, MotionOf(s), s.halfStepsRemaining.value)
      && e.p.(commandQueue := r.p.commandQueue, commandHistory := r.p.commandHistory, pins := r.p.pins) == r.p
      && e.n == (if s.Rotate? then r.n.(selectedSyringe := Some(s.targetSyringe)) else r.n)
      && e.savefile == Some(SaveImage(e.p))
  {
  }

  /** A lone finishing tick is a whole run. */
  lemma RunFinishingStep(r: Rig, nows: seq<int>)
    requires |nows| == 1 && |r.p.commandQueue| > 0
    requires var s := r.p.commandQueue[0].specifics; Initialised(s) && s.halfStepsRemaining.value == 0
    ensures RunTicks(r, nows) == Step(Completed(r, Started(r.p.commandQueue[0], nows[0]), nows[0]), Pass)
  {
    var s := r.p.commandQueue[0].specifics;
    assert |nows[1..]| == 0;
    assert s.(halfStepsRemaining := Some(0)) == s;
  }

  /** The head after a motion tick: the same command, initialised, one half-step fewer, on the given pins. */
  lemma MovedHead(r: Rig, c: Command, t: PinMappings)
    requires |r.p.commandQueue| > 0 && Initialised(c.specifics) && c.specifics.halfStepsRemaining.value > 0
    ensures var r1 := Moved(r, c, t);
      var s1 := r1.p.commandQueue[0].specifics;
      && |r1.p.commandQueue| == |r.p.commandQueue|
      && r1.p.commandQueue[0] == c.(specifics := s1)
      && Initialised(s1) && s1.halfStepsRemaining.value == c.specifics.halfStepsRemaining.value - 1
      && MotionOf(s1) == MotionOf(c.specifics)
      && r1.p.pins == t
  {
  }

  /** A motion tick does not change where the run of the head ends. */
  lemma CompletedAfterMotion(r: Rig, c: Command, now: int)
    requires |r.p.commandQueue| > 0 && Initialised(c.specifics) && c.specifics.halfStepsRemaining.value > 0
    ensures var r1 := Moved(r, c, HalfStep(r.p.pins, MotionOf(c.specifics)).pins);
      Completed(r1, r1.p.commandQueue[0], now) == Completed(r, c, now)
  {
    var s := c.specifics;
    var s1 := s.(halfStepsRemaining := Some(s.halfStepsRemaining.value - 1));
    assert MotionOf(s1) == MotionOf(s);
    var r1 := Moved(r, c, HalfStep(r.p.pins, MotionOf(s)).pins);
    assert r1.p.commandQueue[0] == c.(specifics := s1);
  }

  /**
   * An initialised head with k half-steps left, all of which succeed, takes
   * exactly k motion ticks and one finishing tick, and the run ends as
   * `Completed` describes, stamped with the last reading.
   */
  lemma {:induction false} RunToCompletion(r: Rig, nows: seq<int>)
    requires |r.p.commandQueue| > 0
    requires var s := r.p.commandQueue[0].specifics;
      Initialised(s) && s.halfStepsRemaining.value >= 0 && HalfStepsSucceed(r.p.pins, MotionOf(s), s.halfStepsRemaining.value)
    requires |nows| == r.p.commandQueue[0].specifics.halfStepsRemaining.value + 1
    ensures RunTicks(r, nows) == Step(Completed(r, Started(r.p.commandQueue[0], nows[0]), nows[|nows| - 1]), Pass)
    decreases |nows|
  {
    var c := r.p.commandQueue[0];
    var s := c.specifics;
    var k := s.halfStepsRemaining.value;
    if k == 0 {
      RunFinishingStep(r, nows);
    } else {
      var rest := nows[1..];
      assert |rest| == k && rest[|rest| - 1] == nows[|nows| - 1];
      var c1 := Started(c, nows[0]);
      var s1 := s.(halfStepsRemaining := Some(k - 1));
      var r1 := Moved(r, c1, HalfStep(r.p.pins, MotionOf(s)).pins);
      RunMotionStep(r, nows);
      MovedHead(r, c1, HalfStep(r.p.pins, MotionOf(s)).pins);
      RunToCompletion(r1, rest);
      CompletedAfterMotion(r, c1, nows[|nows| - 1]);
      assert Started(c1.(specifics := s1), rest[0]) == c1.(specifics := s1);
    }
  }

  /**
   * A fresh command whose initialisation gives k half-steps, on pins on which
   * all of them succeed, is done after exactly k + 1 ticks.
   */
  lemma FreshCommandRun(r: Rig, nows: seq<int>, s: Specifics)
    requires |r.p.commandQueue| > 0
    requires Initialise(r.p.commandQueue[0].specifics, r.n.selectedSyringe, r.p.rotatorStepsEquivalentTo90Degrees, false) == Ok(s)
    requires s.halfStepsRemaining.value >= 0 && HalfStepsSucceed(r.p.pins, MotionOf(s), s.halfStepsRemaining.value)
    requires |nows| == s.halfStepsRemaining.value + 1
    ensures RunTicks(r, nows) ==
      Step(Completed(r, Started(r.p.commandQueue[0], nows[0]).(specifics := s), nows[|nows| - 1]), Pass)
  {
    var c := r.p.commandQueue[0];
    var r' := WithHead(r, c.(specifics := s));
    TickInitialises(r, nows[0], s);
    assert RunTicks(r, nows) == RunTicks(r', nows);
    RunToCompletion(r', nows);
    assert Started(c.(specifics := s), nows[0]) == Started(c, nows[0]).(specifics := s);
  }

  /**
   * A fresh rotation from the selected syringe, on ready rotator pins, is done
   * after 2·|Δ|·steps90 motion ticks and one finishing tick: it is then the
   * last entry of the history, stamped with the first and the last reading,
   * the target is selected, the step pin is back at its starting level, and
   * all other pins are as they were.
   */
  lemma FreshRotation(r: Rig, nows: seq<int>)
    requires |r.p.commandQueue| > 0
    requires var s := r.p.commandQueue[0].specifics; s.Rotate? && !Initialised(s)
    requires r.n.selectedSyringe.Some?
    requires OutputPin(r.p.pins, "rotator_direction") && OutputPin(r.p.pins, "rotator_step")
    requires |nows| == 2 * AbsInt(RawSteps(r.p.commandQueue[0].specifics.targetSyringe, r.n.selectedSyringe.value,
                                            r.p.rotatorStepsEquivalentTo90Degrees)) + 1
    ensures var c := r.p.commandQueue[0];
      var raw := RawSteps(c.specifics.targetSyringe, r.n.selectedSyringe.value, r.p.rotatorStepsEquivalentTo90Degrees);
      var e := RunTicks(r, nows);
      && e.outcome == Pass
      && e.rig.p.commandQueue == r.p.commandQueue[1..]
      && e.rig.p.commandHistory == r.p.commandHistory +
           [Started(c, nows[0]).(specifics := Rotate(c.specifics.targetSyringe, Some(Direction(raw)), Some(0)),
                                 finishedAt := Some(nows[|nows| - 1]))]
      && e.rig.n.selectedSyringe == Some(c.specifics.targetSyringe)
      && ShadowLevel(e.rig.p.pins, "rotator_step") == ShadowLevel(r.p.pins, "rotator_step")
      && (forall name :: name != "rotator_direction" && name != "rotator_step" ==> Lookup(e.rig.p.pins, name) == Lookup(r.p.pins, name))
  {
    var c := r.p.commandQueue[0];
    var raw := RawSteps(c.specifics.targetSyringe, r.n.selectedSyringe.value, r.p.rotatorStepsEquivalentTo90Degrees);
    var s := Rotate(c.specifics.targetSyringe, Some(Direction(raw)), Some(2 * AbsInt(raw)));
    var m := MotionOf(s);
    assert m == Motion("rotator_direction", Direction(raw), "rotator_step") && Ready(r.p.pins, m);
    assert (2 * AbsInt(raw)) % 2 == 0;
    HalfStepsOnReadyPins(r.p.pins, m, 2 * AbsInt(raw));
    HalfStepsFlipStepPin(r.p.pins, m, 2 * AbsInt(raw));
    FreshCommandRun(r, nows, s);
    CompletedShape(r, Started(c, nows[0]).(specifics := s), nows[|nows| - 1]);
    forall name | name != "rotator_direction" && name != "rotator_step"
      ensures Lookup(RunTicks(r, nows).rig.p.pins, name) == Lookup(r.p.pins, name)
    {
      HalfStepsLeaveOtherPins(r.p.pins, m, 2 * AbsInt(raw), name);
    }
  }

  /**
   * The Actuate countdown from the declared field: a fresh Actuate command
   * starts with 2·steps_needed_total half-steps.
   */
  lemma ActuateFirstTick(r: Rig, now: int)
    requires |r.p.commandQueue| > 0
    requires var s := r.p.commandQueue[0].specifics; s.Actuate? && s.halfStepsRemaining.None?
    ensures var s := r.p.commandQueue[0].specifics;
      var st := Tick(r, now);
      && (s.stepsNeededTotal == 0 ==> st.outcome == Pass && st.rig.p.commandQueue == r.p.commandQueue[1..])
      && (s.stepsNeededTotal != 0 && st.outcome == Pass ==>
            st.rig.p.commandQueue[0].specifics == Actuate(s.actuateDirection, s.stepsNeededTotal, Some(2 * s.stepsNeededTotal - 1)))
      && (s.stepsNeededTotal != 0 && st.outcome.Fail? ==>
            st.rig.p.commandQueue[0].specifics == Actuate(s.actuateDirection, s.stepsNeededTotal, Some(2 * s.stepsNeededTotal)))
  {
  }

  /**
   * As written, the Actuate initialisation looks up `'steps needed total'`,
   * which no `CommandActuate` has: every tick on a fresh Actuate head raises
   * `KeyError`, and the head never gets a countdown, so the queue is stuck.
   */
  lemma ActuateAsWrittenNeverStarts(r: Rig, now: int)
    requires |r.p.commandQueue| > 0
    requires var s := r.p.commandQueue[0].specifics; s.Actuate? && s.halfStepsRemaining.None?
    ensures var st := TickAsWritten(r, now);
      && st.outcome == Fail(KeyError(STEPS_KEY_AS_WRITTEN))
      && st.rig.p.commandQueue[0].specifics == r.p.commandQueue[0].specifics
      && st.rig.p.commandQueue[1..] == r.p.commandQueue[1..]
      && st.rig.p.commandHistory == r.p.commandHistory
  {
  }

  /**
   * The Actuate half-step writes `actuator_direction`, which `PinMappings` does
   * not declare: on any table with exactly the declared names it raises.
   */
  lemma ActuateMotionNeedsUndeclaredPin(r: Rig, now: int)
    requires |r.p.commandQueue| > 0
    requires var s := r.p.commandQueue[0].specifics; s.Actuate? && Initialised(s) && s.halfStepsRemaining.value != 0
    requires |r.p.pins| == |PIN_NAMES| && forall i :: 0 <= i < |PIN_NAMES| ==> r.p.pins[i].name == PIN_NAMES[i]
    ensures Tick(r, now).outcome == Fail(UnknownPin("actuator_direction"))
  {
    assert Lookup(r.p.pins, "actuator_direction").None?;
  }

  // ---------------------------------------------------------------- the service loop

  /** The clock readings of one `run_service` iteration. */
  datatype LoopTimes = LoopTimes(
    deltaReading: int,     // the reading the measured delta is taken from
    startReading: int,     // the reading stored as the loop's last start
    processReading: int,   // the reading `process_commands` stamps with
    sleepReading: int)     // the reading the sleep is computed from

  /** The state, the sleeps taken and the outcome of some iterations of `run_service`. */
  datatype Run = Run(rig: Rig, sleeps: seq<int>, outcome: Outcome)

  function Prepend(sleeps: seq<int>, run: Run): Run {
    Run(run.rig, sleeps + run.sleeps, run.outcome)
  }

  /** One iteration: measure the delta, stamp the start, maybe tick. */
  function LoopBody(r: Rig, t: LoopTimes): Step {
    var r1 := r.(p := r.p.(processingLoopMeasuredDelta := t.deltaReading - r.p.processingLoopLastStart,
                           processingLoopLastStart := t.startReading));
    if r1.n.processingEnabled then Tick(r1, t.processReading) else Step(r1, Pass)
  }

  /**
   * `run_service` over the iterations whose readings are `times`: it stops when
   * the program shuts down or a tick raises (the exception ends the thread).
   */
  function ServiceRun(r: Rig, times: seq<LoopTimes>): Run
    decreases |times|
  {
    if |times| == 0 || r.n.shuttingDown then Run(r, [], Pass)
    else
      var st := LoopBody(r, times[0]);
      if st.outcome.Fail? then Run(st.rig, [], st.outcome)
      else
        var sleep := SleepDuration(st.rig.p.processingLoopInterval, times[0].sleepReading - st.rig.p.processingLoopLastStart);
        Prepend([sleep], ServiceRun(st.rig, times[1..]))
  }

  /**
   * Every sleep is `max(0, interval − work time)`: never negative and, on a
   * clock that does not run backwards within an iteration, never longer than
   * the interval; the interval itself never changes.
   */
  lemma {:induction false} ServiceSleepsBounded(r: Rig, times: seq<LoopTimes>)
    requires r.p.processingLoopInterval >= 0
    requires forall i :: 0 <= i < |times| ==> times[i].startReading <= times[i].sleepReading
    ensures var run := ServiceRun(r, times);
      && |run.sleeps| <= |times|
      && run.rig.p.processingLoopInterval == r.p.processingLoopInterval
      && forall i :: 0 <= i < |run.sleeps| ==> 0 <= run.sleeps[i] <= r.p.processingLoopInterval
    decreases |times|
  {
    if |times| > 0 && !r.n.shuttingDown {
      var st := LoopBody(r, times[0]);
      if st.outcome.Pass? {
        ServiceSleepsBounded(st.rig, times[1..]);
      }
    }
  }

  /** While processing is disabled the loop only keeps time: queue, history and pins stay put. */
  lemma {:induction false} DisabledServiceOnlyKeepsTime(r: Rig, times: seq<LoopTimes>)
    requires !r.n.processingEnabled
    ensures var run := ServiceRun(r, times);
      && run.outcome == Pass
      && run.rig.p.commandQueue == r.p.commandQueue
      && run.rig.p.commandHistory == r.p.commandHistory
      && run.rig.p.pins == r.p.pins
      && run.rig.n == r.n
      && |run.sleeps| == (if r.n.shuttingDown then 0 else |times|)
    decreases |times|
  {
    if |times| > 0 && !r.n.shuttingDown {
      var st := LoopBody(r, times[0]);
      assert st.outcome == Pass && st.rig.n == r.n;
      DisabledServiceOnlyKeepsTime(st.rig, times[1..]);
    }
  }

  // ---------------------------------------------------------------- the imperative code

  /** `finish_active_task`. */
  method FinishActiveTask(state: GlobalState, now: int)
    requires |state.persistent.commandQueue| > 0
    modifies state
    ensures state.Model() == Finished(old(state.Model()), now)
  {
    var queue := state.persistent.commandQueue;
    queue := queue[0 := queue[0].(finishedAt := Some(now))];
    state.persistent := state.persistent.(commandHistory := state.persistent.commandHistory + [queue[0]]);
    state.persistent := state.persistent.(commandQueue := queue[1..]);
    state.SaveStateToDisk();
  }

  /** `Advance` overwrites the head, so whatever head it is given a state with does not matter. */
  lemma AdvanceOverwritesHead(r: Rig, a: Command, c: Command, now: int)
    requires |r.p.commandQueue| > 0 && Initialised(c.specifics)
    ensures Advance(WithHead(r, a), c, now) == Advance(r, c, now)
  {
    assert WithHead(WithHead(r, a), c) == WithHead(r, c);
  }

  /** A half-step on the state's pins: write the direction, read the step pin, write it flipped. */
  method HalfStepOnPins(state: GlobalState, m: Motion) returns (outcome: Outcome)
    modifies state
    ensures state.Model() == WithPins(old(state.Model()), HalfStep(old(state.persistent.pins), m).pins)
    ensures outcome == HalfStep(old(state.persistent.pins), m).outcome
  {
    outcome := WritePin(state, m.directionPin, m.direction);
    if outcome.Fail? {
      return;
    }
    var level := ReadPin(state.persistent.pins, m.stepPin);
    if level.Err? {
      return Fail(level.error);
    }
    outcome := WritePin(state, m.stepPin, FlipBit(Level(level.value)));
  }

  /** The part of `process_commands` after the countdown is known, on the head `c`. */
  method AdvanceHead(state: GlobalState, c: Command, now: int) returns (outcome: Outcome)
    requires |state.persistent.commandQueue| > 0 && Initialised(c.specifics)
    modifies state
    ensures Step(state.Model(), outcome) == Advance(old(state.Model()), c, now)
  {
    state.persistent := state.persistent.(commandQueue := state.persistent.commandQueue[0 := c]);
    var s := c.specifics;
    var k := s.halfStepsRemaining.value;
    if k == 0 {
      if s.Rotate? {
        state.nonpersistent := state.nonpersistent.(selectedSyringe := Some(s.targetSyringe));
      }
      FinishActiveTask(state, now);
      return Pass;
    }
    outcome := HalfStepOnPins(state, MotionOf(s));
    if outcome.Pass? {
      var queue := state.persistent.commandQueue;
      state.persistent := state.persistent.(commandQueue := queue[0 := c.(specifics := s.(halfStepsRemaining := Some(k - 1)))]);
    }
  }

  /** `process_commands`, with every clock reading of the tick equal to `now`. */
  method ProcessCommands(state: GlobalState, now: int) returns (outcome: Outcome)
    modifies state
    ensures Step(state.Model(), outcome) == Tick(old(state.Model()), now)
  {
    var queue := state.persistent.commandQueue;
    if |queue| == 0 {
      return Pass;
    }
    ghost var r := state.Model();
    var head := Started(queue[0], now);
    state.persistent := state.persistent.(commandQueue := queue[0 := head]);
    var init := Initialise(head.specifics, state.nonpersistent.selectedSyringe,
      state.persistent.rotatorStepsEquivalentTo90Degrees, false);
    if init.Err? {
      return Fail(init.error);
    }
    AdvanceOverwritesHead(r, head, head.(specifics := init.value), now);
    outcome := AdvanceHead(state, head.(specifics := init.value), now);
  }

  /** One iteration of `run_service`'s loop, up to the sleep. */
  method LoopIteration(state: GlobalState, t: LoopTimes) returns (outcome: Outcome)
    modifies state
    ensures Step(state.Model(), outcome) == LoopBody(old(state.Model()), t)
  {
    var p := state.persistent;
    state.persistent := p.(processingLoopMeasuredDelta := t.deltaReading - p.processingLoopLastStart,
                           processingLoopLastStart := t.startReading);
    outcome := Pass;
    if state.nonpersistent.processingEnabled {
      outcome := ProcessCommands(state, t.processReading);
    }
  }

  /**
   * `run_service`: iterate while the program is not shutting down, with the
   * clock readings of each iteration taken from `times`; returns the sleeps.
   */
  method RunService(state: GlobalState, times: seq<LoopTimes>) returns (sleeps: seq<int>, outcome: Outcome)
    modifies state
    ensures Run(state.Model(), sleeps, outcome) == ServiceRun(old(state.Model()), times)
  {
    sleeps := [];
    var i := 0;
    while i < |times| && !state.nonpersistent.shuttingDown
      invariant 0 <= i <= |times|
      invariant ServiceRun(old(state.Model()), times) == Prepend(sleeps, ServiceRun(state.Model(), times[i..]))
      decreases |times| - i
    {
      assert times[i..][1..] == times[i + 1..];
      outcome := LoopIteration(state, times[i]);
      if outcome.Fail? {
        return;
      }
      var sleep := SleepDuration(state.persistent.processingLoopInterval,
        times[i].sleepReading - state.persistent.processingLoopLastStart);
      sleeps := sleeps + [sleep];
      i := i + 1;
    }
    return sleeps, Pass;
  }
}
