/**
 * The calibration actions of scripts/bioprintly/gui_calibration.py: homing
 * and handcranking the actuator under the calibration lock, the buttons that
 * record plunger positions and the current syringe, closing the calibration
 * window, the processing toggle, and the rules that enable the buttons.
 *
 * The user's answer to a confirmation dialog is an input (`confirm`). The
 * handcrank's clock readings are inputs too; its sleeps are not modelled.
 */
module Calibration {
  import opened Wrappers
  import opened Util
  import opened Pins
  import opened State
  import opened PinIO
  import Service

  const EXTEND_PIN: string := "actuator_extend"
  const RETRACT_PIN: string := "actuator_retract"

  function WithLock(r: Rig, held: bool): Rig {
    r.(n := r.n.(actuatorHasCalibrationLock := held))
  }

  function WithPosition(r: Rig, position: Option<real>): Rig {
    r.(p := r.p.(actuatorPositionMm := position))
  }

  /** Both actuator pins exist and are outputs, so writing them cannot raise. */
  predicate ActuatorPinsReady(t: PinMappings) {
    OutputPin(t, EXTEND_PIN) && OutputPin(t, RETRACT_PIN)
  }

  // ---------------------------------------------------------------- homing

  /** `home_the_actuator` up to the timed move: the lock taken, the position unknown, retracting. */
  function HomeStart(r: Rig): Service.Step {
    var r1 := WithPosition(WithLock(r, true), None);
    match PinsAfterWrite(r1.p.pins, RETRACT_PIN, 1)
    case Err(e) => Service.Step(r1, Fail(e))
    case Ok(t) => Service.Step(WithPins(r1, t), Pass)
  }

  /**
   * The argument of the sleep in `home_the_actuator`, in seconds:
   * `max_extension / rate / 1000 · (1 + safety_margin)`. A rate of 0 raises
   * `ZeroDivisionError`; a negative duration makes `sleep` raise `ValueError`.
   */
  function HomeSleep(a: ActuatorConfig): Result<real> {
    if a.travelMmPerMs == 0.0 then Err(ZeroDivisionError)
    else
      var seconds := a.maxPossibleExtensionMm / a.travelMmPerMs / 1000.0 * (1.0 + a.safetyMargin);
      if seconds < 0.0 then Err(ValueError) else Ok(seconds)
  }

  /** `home_the_actuator`: a no-op under the lock; otherwise retract fully, then the position is 0. */
  function Home(r: Rig): Service.Step {
    if r.n.actuatorHasCalibrationLock then Service.Step(r, Pass)
    else
      var s := HomeStart(r);
      if s.outcome.Fail? then s
      else if HomeSleep(r.n.actuator).Err? then Service.Step(s.rig, Fail(HomeSleep(r.n.actuator).error))
      else match PinsAfterWrite(s.rig.p.pins, RETRACT_PIN, 0)
        case Err(e) => Service.Step(s.rig, Fail(e))
        case Ok(t) => Service.Step(WithLock(WithPosition(WithPins(s.rig, t), Some(0.0)), false), Pass)
  }

  /** Homing while the lock is held changes nothing. */
  lemma HomeUnderLockDoesNothing(r: Rig)
    requires r.n.actuatorHasCalibrationLock
    ensures Home(r) == Service.Step(r, Pass)
  {
  }

  /** While the timed move runs, the lock is held, the position is unknown and the retract pin is 1. */
  lemma HomingInProgress(r: Rig)
    requires !r.n.actuatorHasCalibrationLock && OutputPin(r.p.pins, RETRACT_PIN)
    ensures var s := HomeStart(r);
      && s.outcome == Pass
      && s.rig.n.actuatorHasCalibrationLock
      && s.rig.p.actuatorPositionMm.None?
      && ReadPin(s.rig.p.pins, RETRACT_PIN) == Ok(Some(1))
  {
    WriteOutcomes(r.p.pins, RETRACT_PIN, 1);
    ReadAfterWrite(r.p.pins, RETRACT_PIN, 1);
  }

  /**
   * Homing with a usable retract pin succeeds exactly when the sleep's
   * duration can be computed and is not negative. Then it ends at position
   * 0 with the lock free and the retract pin at 0, and nothing else changes.
   * Otherwise it raises during the move: the lock stays held, the position
   * unknown and the retract pin at 1.
   */
  lemma HomeEndsAtZero(r: Rig)
    requires !r.n.actuatorHasCalibrationLock && OutputPin(r.p.pins, RETRACT_PIN)
    ensures PinsAfterWrite(r.p.pins, RETRACT_PIN, 0).Ok?
    ensures Home(r).outcome == Pass <==> HomeSleep(r.n.actuator).Ok?
    ensures HomeSleep(r.n.actuator).Ok? ==> var s := Home(r);
      && s.rig == WithPosition(WithPins(r, PinsAfterWrite(r.p.pins, RETRACT_PIN, 0).value), Some(0.0))
      && ReadPin(s.rig.p.pins, RETRACT_PIN) == Ok(Some(0))
    ensures HomeSleep(r.n.actuator).Err? ==> var s := Home(r);
      && s.outcome == Fail(HomeSleep(r.n.actuator).error)
      && s.rig.n == r.n.(actuatorHasCalibrationLock := true)
      && s.rig.p.actuatorPositionMm.None?
      && ReadPin(s.rig.p.pins, RETRACT_PIN) == Ok(Some(1))
  {
    var t := r.p.pins;
    WriteOutcomes(t, RETRACT_PIN, 1);
    WriteOutcomes(t, RETRACT_PIN, 0);
    WriteTwice(t, RETRACT_PIN, 1, 0);
    ReadAfterWrite(t, RETRACT_PIN, 0);
    ReadAfterWrite(t, RETRACT_PIN, 1);
  }

  /**
   * When the sleep raises: a rate of 0 gives `ZeroDivisionError`; a positive
   * extension and rate with a safety margin below −1 give a negative duration
   * and `ValueError`; a non-negative extension, a positive rate and a margin
   * of at least −1 never raise.
   */
  lemma HomeSleepCases(a: ActuatorConfig)
    ensures a.travelMmPerMs == 0.0 ==> HomeSleep(a) == Err(ZeroDivisionError)
    ensures a.maxPossibleExtensionMm > 0.0 && a.travelMmPerMs > 0.0 && a.safetyMargin < -1.0 ==> HomeSleep(a) == Err(ValueError)
    ensures a.maxPossibleExtensionMm >= 0.0 && a.travelMmPerMs > 0.0 && a.safetyMargin >= -1.0 ==> HomeSleep(a).Ok?
  {
    if a.travelMmPerMs > 0.0 {
      var q := a.maxPossibleExtensionMm / a.travelMmPerMs / 1000.0;
      if a.maxPossibleExtensionMm > 0.0 {
        assert q > 0.0;
      }
      if a.maxPossibleExtensionMm >= 0.0 {
        assert q >= 0.0;
      }
    }
  }

  /**
   * Without a usable retract pin, homing raises after taking the lock, and
   * the lock is never released: every calibration button stays disabled.
   */
  lemma HomeWithoutRetractPinKeepsLock(r: Rig)
    requires !r.n.actuatorHasCalibrationLock && !OutputPin(r.p.pins, RETRACT_PIN)
    ensures var s := Home(r);
      && s.outcome.Fail?
      && s.rig == WithPosition(WithLock(r, true), None)
      && !HomeButtonEnabled(s.rig) && !HandcrankButtonEnabled(s.rig)
  {
    WriteOutcomes(r.p.pins, RETRACT_PIN, 1);
  }

  // ---------------------------------------------------------------- handcranking

  /** The two clock readings at the top of each handcrank iteration. */
  datatype CrankReading = CrankReading(deltaReading: int, startReading: int)

  /**
   * The state, the travel credited so far, and the outcome after some
   * iterations; `running` when the loop had not stopped when the readings ran out.
   */
  datatype Crank = Crank(rig: Rig, traveled: real, outcome: Outcome, running: bool)

  /** The furthest the handcrank may extend: `max_extension · (1 − safety_margin)`. */
  function Envelope(a: ActuatorConfig): real {
    a.maxPossibleExtensionMm * (1.0 - a.safetyMargin)
  }

  /** One iteration's travel: `signum(required) · rate · delta`. */
  function ExpectedTravel(required: real, a: ActuatorConfig, delta: int): real {
    (Signum(required) as real) * a.travelMmPerMs * (delta as real)
  }

  /** The pin driven towards the target. */
  function DrivePin(required: real): string {
    if required > 0.0 then EXTEND_PIN else RETRACT_PIN
  }

  /**
   * One iteration of the `while True` loop of `handcrank_the_actuator`, on
   * one reading; `running` when the loop goes on.
   */
  function CrankTurn(r: Rig, required: real, traveled: real, last: int, reading: CrankReading): Crank {
    var expected := ExpectedTravel(required, r.n.actuator, reading.deltaReading - last);
    match r.p.actuatorPositionMm
    // `None < 0` raises in Python
    case None => Crank(r, traveled, Fail(TypeError), false)
    case Some(position) =>
      if position < 0.0 then Crank(WithPosition(r, Some(0.0)), traveled, Pass, false)
      else if WouldMoveFurther(traveled, expected, required) then Crank(r, traveled, Pass, false)
      else if position + expected > Envelope(r.n.actuator) then Crank(r, traveled, Pass, false)
      else match PinsAfterWrite(r.p.pins, DrivePin(required), 1)
        case Err(e) => Crank(r, traveled, Fail(e), false)
        case Ok(t) => Crank(WithPosition(WithPins(r, t), Some(position + expected)), traveled + expected, Pass, true)
  }

  /** The loop, one reading per iteration. */
  function CrankLoop(r: Rig, required: real, traveled: real, last: int, readings: seq<CrankReading>): Crank
    decreases |readings|
  {
    if |readings| == 0 then Crank(r, traveled, Pass, true)
    else
      var c := CrankTurn(r, required, traveled, last, readings[0]);
      if c.running then CrankLoop(c.rig, required, c.traveled, readings[0].startReading, readings[1..]) else c
  }

  /**
   * One iteration changes only the pins and the position; it keeps the
   * actuator pins usable and the other pins as they read, and a known
   * position known; it goes on only when it did not raise, and with a known
   * position it raises only when the drive pin is unusable.
   */
  lemma CrankTurnFrame(r: Rig, required: real, traveled: real, last: int, reading: CrankReading, other: string)
    ensures var c := CrankTurn(r, required, traveled, last, reading);
      && c.rig.n == r.n && c.rig.savefile == r.savefile
      && c.rig.p.(pins := r.p.pins, actuatorPositionMm := r.p.actuatorPositionMm) == r.p
      && (c.running ==> c.outcome == Pass)
      && (ActuatorPinsReady(r.p.pins) ==> ActuatorPinsReady(c.rig.p.pins))
      && (OutputPin(r.p.pins, DrivePin(required)) ==> OutputPin(c.rig.p.pins, DrivePin(required)))
      && (other != DrivePin(required) ==> ReadPin(c.rig.p.pins, other) == ReadPin(r.p.pins, other))
      && (r.p.actuatorPositionMm.Some? ==> c.rig.p.actuatorPositionMm.Some?)
      && (r.p.actuatorPositionMm.Some? && OutputPin(r.p.pins, DrivePin(required)) ==> c.outcome == Pass)
  {
    if r.p.actuatorPositionMm.Some? {
      WriteOutcomes(r.p.pins, DrivePin(required), 1);
      var w := PinsAfterWrite(r.p.pins, DrivePin(required), 1);
      if w.Ok? {
        WriteKeepsOutputPins(r.p.pins, DrivePin(required), 1, EXTEND_PIN);
        WriteKeepsOutputPins(r.p.pins, DrivePin(required), 1, RETRACT_PIN);
        WriteKeepsOutputPins(r.p.pins, DrivePin(required), 1, DrivePin(required));
        if other != DrivePin(required) {
          WriteLeavesOtherPins(r.p.pins, DrivePin(required), 1, other);
        }
      }
    }
  }

  /** One iteration never credits travel that takes it further from the target. */
  lemma CrankTurnApproaches(r: Rig, required: real, traveled: real, last: int, reading: CrankReading)
    ensures Abs(CrankTurn(r, required, traveled, last, reading).traveled - required) <= Abs(traveled - required)
  {
  }

  /**
   * One iteration never moves the position past the envelope; it moves the
   * position by the travel credited unless a negative one is clamped to 0,
   * which stops the loop.
   */
  lemma CrankTurnPosition(r: Rig, required: real, traveled: real, last: int, reading: CrankReading)
    requires r.p.actuatorPositionMm.Some?
    ensures var c := CrankTurn(r, required, traveled, last, reading);
      var moved := r.p.actuatorPositionMm.value + (c.traveled - traveled);
      && c.rig.p.actuatorPositionMm.Some?
      && (r.p.actuatorPositionMm.value <= Envelope(r.n.actuator) && 0.0 <= Envelope(r.n.actuator) ==>
            c.rig.p.actuatorPositionMm.value <= Envelope(r.n.actuator))
      && (c.rig.p.actuatorPositionMm == Some(moved)
          || (c.rig.p.actuatorPositionMm == Some(0.0) && moved < 0.0 && !c.running))
      && (!c.running && c.outcome.Pass? ==> c.rig.p.actuatorPositionMm.value >= 0.0)
  {
  }

  /** After the loop: both actuator pins to 0, then the lock released. */
  function Release(r: Rig): Service.Step {
    match PinsAfterWrite(r.p.pins, EXTEND_PIN, 0)
    case Err(e) => Service.Step(r, Fail(e))
    case Ok(t) =>
      match PinsAfterWrite(t, RETRACT_PIN, 0)
      case Err(e) => Service.Step(WithPins(r, t), Fail(e))
      case Ok(u) => Service.Step(WithLock(WithPins(r, u), false), Pass)
  }

  /** `handcrank_the_actuator(state, required)`, its loop's clock starting at `start`. */
  function Handcrank(r: Rig, required: real, start: int, readings: seq<CrankReading>): Crank {
    if r.n.actuatorHasCalibrationLock then Crank(r, 0.0, Pass, false)
    else
      var c := CrankLoop(WithLock(r, true), required, 0.0, start, readings);
      if c.outcome.Fail? || c.running then c
      else
        var s := Release(c.rig);
        Crank(s.rig, c.traveled, s.outcome, false)
  }

  /** Handcranking while the lock is held changes nothing. */
  lemma HandcrankUnderLockDoesNothing(r: Rig, required: real, start: int, readings: seq<CrankReading>)
    requires r.n.actuatorHasCalibrationLock
    ensures Handcrank(r, required, start, readings) == Crank(r, 0.0, Pass, false)
  {
  }

  /**
   * What the loop changes: only the pins and the position, and the actuator
   * pins stay usable; with a known position and a usable drive pin it never
   * raises; a known position stays known.
   */
  lemma {:induction false} CrankLoopFrame(r: Rig, required: real, traveled: real, last: int, readings: seq<CrankReading>)
    ensures var c := CrankLoop(r, required, traveled, last, readings);
      && c.rig.n == r.n && c.rig.savefile == r.savefile
      && c.rig.p.(pins := r.p.pins, actuatorPositionMm := r.p.actuatorPositionMm) == r.p
      && (ActuatorPinsReady(r.p.pins) ==> ActuatorPinsReady(c.rig.p.pins))
      && (r.p.actuatorPositionMm.Some? ==> c.rig.p.actuatorPositionMm.Some?)
      && (r.p.actuatorPositionMm.Some? && OutputPin(r.p.pins, DrivePin(required)) ==> c.outcome == Pass)
    decreases |readings|
  {
    if |readings| > 0 {
      var c := CrankTurn(r, required, traveled, last, readings[0]);
      CrankTurnFrame(r, required, traveled, last, readings[0], EXTEND_PIN);
      if c.running {
        CrankLoopFrame(c.rig, required, c.traveled, readings[0].startReading, readings[1..]);
      }
    }
  }

  /**
   * The safety envelope: a position that starts within the envelope (and the
   * envelope above 0) stays within it.
   */
  lemma {:induction false} CrankLoopStaysInEnvelope(r: Rig, required: real, traveled: real, last: int, readings: seq<CrankReading>)
    requires r.p.actuatorPositionMm.Some? && r.p.actuatorPositionMm.value <= Envelope(r.n.actuator)
    requires 0.0 <= Envelope(r.n.actuator)
    ensures var c := CrankLoop(r, required, traveled, last, readings);
      c.rig.p.actuatorPositionMm.Some? && c.rig.p.actuatorPositionMm.value <= Envelope(r.n.actuator)
    decreases |readings|
  {
    if |readings| > 0 {
      var c := CrankTurn(r, required, traveled, last, readings[0]);
      CrankTurnPosition(r, required, traveled, last, readings[0]);
      if c.running {
        CrankLoopStaysInEnvelope(c.rig, required, c.traveled, readings[0].startReading, readings[1..]);
      }
    }
  }

  /** No step moves the credited travel further from the travel required. */
  lemma {:induction false} CrankLoopApproachesTarget(r: Rig, required: real, traveled: real, last: int, readings: seq<CrankReading>)
    ensures Abs(CrankLoop(r, required, traveled, last, readings).traveled - required) <= Abs(traveled - required)
    decreases |readings|
  {
    if |readings| > 0 {
      var c := CrankTurn(r, required, traveled, last, readings[0]);
      CrankTurnApproaches(r, required, traveled, last, readings[0]);
      if c.running {
        CrankLoopApproachesTarget(c.rig, required, c.traveled, readings[0].startReading, readings[1..]);
      }
    }
  }

  /**
   * The position moves by exactly the travel credited, except that once it is
   * below 0 it is clamped to 0 and the loop stops; so a stopped loop that did
   * not raise leaves it at 0 or above.
   */
  lemma {:induction false} CrankLoopTracksTravel(r: Rig, required: real, traveled: real, last: int, readings: seq<CrankReading>)
    requires r.p.actuatorPositionMm.Some?
    ensures var c := CrankLoop(r, required, traveled, last, readings);
      var moved := r.p.actuatorPositionMm.value + (c.traveled - traveled);
      && (c.rig.p.actuatorPositionMm == Some(moved)
          || (c.rig.p.actuatorPositionMm == Some(0.0) && moved < 0.0 && !c.running))
      && (!c.running && c.outcome.Pass? ==> c.rig.p.actuatorPositionMm.value >= 0.0)
    decreases |readings|
  {
    if |readings| > 0 {
      var c := CrankTurn(r, required, traveled, last, readings[0]);
      CrankTurnPosition(r, required, traveled, last, readings[0]);
      if c.running {
        CrankLoopTracksTravel(c.rig, required, c.traveled, readings[0].startReading, readings[1..]);
      }
    }
  }

  /** The loop drives only the pin towards the target: every other pin reads as before. */
  lemma {:induction false} CrankLoopDrivesOnePin(r: Rig, required: real, traveled: real, last: int,
                                                 readings: seq<CrankReading>, other: string)
    requires other != DrivePin(required)
    ensures ReadPin(CrankLoop(r, required, traveled, last, readings).rig.p.pins, other) == ReadPin(r.p.pins, other)
    decreases |readings|
  {
    if |readings| > 0 {
      var c := CrankTurn(r, required, traveled, last, readings[0]);
      CrankTurnFrame(r, required, traveled, last, readings[0], other);
      if c.running {
        CrankLoopDrivesOnePin(c.rig, required, c.traveled, readings[0].startReading, readings[1..], other);
      }
    }
  }

  /** Releasing usable actuator pins succeeds: both read 0 and the lock is free. */
  lemma ReleaseZeroesPins(r: Rig)
    requires ActuatorPinsReady(r.p.pins)
    ensures var s := Release(r);
      && s.outcome == Pass
      && !s.rig.n.actuatorHasCalibrationLock
      && ReadPin(s.rig.p.pins, EXTEND_PIN) == Ok(Some(0))
      && ReadPin(s.rig.p.pins, RETRACT_PIN) == Ok(Some(0))
      && s.rig.p.(pins := r.p.pins) == r.p
  {
    var t := r.p.pins;
    WriteOutcomes(t, EXTEND_PIN, 0);
    var t1 := PinsAfterWrite(t, EXTEND_PIN, 0).value;
    WriteKeepsOutputPins(t, EXTEND_PIN, 0, RETRACT_PIN);
    WriteOutcomes(t1, RETRACT_PIN, 0);
    ReadAfterWrite(t, EXTEND_PIN, 0);
    ReadAfterWrite(t1, RETRACT_PIN, 0);
    WriteLeavesOtherPins(t1, RETRACT_PIN, 0, EXTEND_PIN);
  }

  /**
   * A handcrank the buttons allow, on usable actuator pins, that stops:
   * it does not raise, releases the lock, leaves both pins at 0, ends at 0 or
   * above and within the envelope (when it started there), and credits travel
   * no further from the target than none.
   */
  lemma HandcrankEndsSafely(r: Rig, required: real, start: int, readings: seq<CrankReading>)
    requires HandcrankButtonEnabled(r) && ActuatorPinsReady(r.p.pins)
    requires !Handcrank(r, required, start, readings).running
    ensures var c := Handcrank(r, required, start, readings);
      && c.outcome == Pass
      && !c.rig.n.actuatorHasCalibrationLock
      && ReadPin(c.rig.p.pins, EXTEND_PIN) == Ok(Some(0))
      && ReadPin(c.rig.p.pins, RETRACT_PIN) == Ok(Some(0))
      && c.rig.p.actuatorPositionMm.Some? && c.rig.p.actuatorPositionMm.value >= 0.0
      && (r.p.actuatorPositionMm.value <= Envelope(r.n.actuator) && 0.0 <= Envelope(r.n.actuator) ==>
            c.rig.p.actuatorPositionMm.value <= Envelope(r.n.actuator))
      && Abs(c.traveled - required) <= Abs(required)
  {
    var r1 := WithLock(r, true);
    assert OutputPin(r1.p.pins, DrivePin(required));
    CrankLoopFrame(r1, required, 0.0, start, readings);
    CrankLoopTracksTravel(r1, required, 0.0, start, readings);
    CrankLoopApproachesTarget(r1, required, 0.0, start, readings);
    if r.p.actuatorPositionMm.value <= Envelope(r.n.actuator) && 0.0 <= Envelope(r.n.actuator) {
      CrankLoopStaysInEnvelope(r1, required, 0.0, start, readings);
    }
    ReleaseZeroesPins(CrankLoop(r1, required, 0.0, start, readings).rig);
  }

  /** A handcrank with the position unknown raises on its first iteration and keeps the lock. */
  lemma HandcrankWithoutPositionRaises(r: Rig, required: real, start: int, readings: seq<CrankReading>)
    requires !r.n.actuatorHasCalibrationLock && r.p.actuatorPositionMm.None? && |readings| > 0
    ensures Handcrank(r, required, start, readings) == Crank(WithLock(r, true), 0.0, Fail(TypeError), false)
  {
  }

  // ---------------------------------------------------------------- buttons

  /** The home button is enabled exactly when no homing or handcrank holds the lock. */
  predicate HomeButtonEnabled(r: Rig) {
    !r.n.actuatorHasCalibrationLock
  }

  /** The retract/extend buttons: the position is known and the lock is free. */
  predicate HandcrankButtonEnabled(r: Rig) {
    !(r.p.actuatorPositionMm.None? || r.n.actuatorHasCalibrationLock)
  }

  /** The record buttons: the same rule as the handcrank buttons. */
  predicate RecordButtonEnabled(r: Rig) {
    !(r.p.actuatorPositionMm.None? || r.n.actuatorHasCalibrationLock)
  }

  /** The set-current-syringe buttons: also every plunger position recorded. */
  predicate SetSyringeButtonEnabled(r: Rig) {
    !(r.p.actuatorPositionMm.None?
      || !(forall n: SyringeNumber :: n in r.p.plungerPositionsMm)
      || r.n.actuatorHasCalibrationLock)
  }

  /**
   * The set-syringe rule is the strictest: it implies the others, and a
   * complete calibration enables it.
   */
  lemma ButtonRules(r: Rig)
    ensures SetSyringeButtonEnabled(r) ==> RecordButtonEnabled(r) && HandcrankButtonEnabled(r) && HomeButtonEnabled(r)
    ensures HandcrankButtonEnabled(r) <==> RecordButtonEnabled(r)
    ensures HandcrankButtonEnabled(r) ==> HomeButtonEnabled(r)
    ensures CalibrationIsComplete(r) ==> SetSyringeButtonEnabled(r)
  {
  }

  /** A record button: the actuator position as plunger `n`'s, and `n` as the current syringe. */
  function Recorded(r: Rig, n: SyringeNumber): Rig {
    r.(p := r.p.(plungerPositionsMm := SetValue(r.p.plungerPositionsMm, n, r.p.actuatorPositionMm),
                 currentSyringe := Some(n)))
  }

  /** Record buttons pressed in turn. */
  function RecordedAll(r: Rig, ns: seq<SyringeNumber>): Rig
    decreases |ns|
  {
    if |ns| == 0 then r else RecordedAll(Recorded(r, ns[0]), ns[1..])
  }

  /**
   * Each pressed plunger holds the actuator position (which recording does
   * not move), the others are as before, and the last pressed is current.
   */
  lemma {:induction false} RecordedAllHoldsPosition(r: Rig, ns: seq<SyringeNumber>, m: SyringeNumber)
    ensures var q := RecordedAll(r, ns);
      && q.p.actuatorPositionMm == r.p.actuatorPositionMm
      && q.n == r.n
      && (m in ns ==> m in q.p.plungerPositionsMm && q.p.plungerPositionsMm[m] == r.p.actuatorPositionMm)
      && (m !in ns && m in r.p.plungerPositionsMm ==>
            m in q.p.plungerPositionsMm && q.p.plungerPositionsMm[m] == r.p.plungerPositionsMm[m])
      && (m !in ns ==> (m in q.p.plungerPositionsMm <==> m in r.p.plungerPositionsMm))
      && q.p.currentSyringe == (if |ns| == 0 then r.p.currentSyringe else Some(ns[|ns| - 1]))
    decreases |ns|
  {
    if |ns| > 0 {
      RecordedAllHoldsPosition(Recorded(r, ns[0]), ns[1..], m);
      if |ns| > 1 {
        assert ns[1..][|ns| - 2] == ns[|ns| - 1];
      }
    }
  }

  /**
   * Recording all four plungers at a known position, with the lock free,
   * completes the calibration (and so enables the set-syringe buttons).
   */
  lemma RecordingAllFourCompletesCalibration(r: Rig, ns: seq<SyringeNumber>)
    requires RecordButtonEnabled(r)
    requires forall m: SyringeNumber :: m in ns
    ensures CalibrationIsComplete(RecordedAll(r, ns))
  {
    var q := RecordedAll(r, ns);
    forall m: SyringeNumber ensures m in q.p.plungerPositionsMm && q.p.plungerPositionsMm[m].Some? {
      RecordedAllHoldsPosition(r, ns, m);
    }
    RecordedAllHoldsPosition(r, ns, 1);
  }

  /**
   * `close_calibration_gui`: raises when the window is not open; an
   * incomplete calibration closes only when the user confirms.
   */
  function CloseCalibration(r: Rig, confirm: bool): Service.Step {
    if !r.n.calibrationModalOpen then Service.Step(r, Fail(ModalNotOpen))
    else if !CalibrationIsComplete(r) && !confirm then Service.Step(r, Pass)
    else Service.Step(r.(n := r.n.(calibrationModalOpen := false)), Pass)
  }

  /** Closing raises exactly when the window is not open, and closes a complete calibration without asking. */
  lemma CloseCalibrationCases(r: Rig, confirm: bool)
    ensures CloseCalibration(r, confirm).outcome.Fail? <==> !r.n.calibrationModalOpen
    ensures r.n.calibrationModalOpen ==>
      (!CloseCalibration(r, confirm).rig.n.calibrationModalOpen <==> CalibrationIsComplete(r) || confirm)
    ensures CloseCalibration(r, confirm).rig.p == r.p
  {
  }

  /** A set-syringe button: `n` as the current syringe, then close the window. */
  function SetSyringeAndClose(r: Rig, n: SyringeNumber, confirm: bool): Service.Step {
    CloseCalibration(r.(p := r.p.(currentSyringe := Some(n))), confirm)
  }

  /**
   * With every plunger position known, a set-syringe button the rules allow
   * completes the calibration and closes the window without asking.
   */
  lemma SetSyringeCompletesCalibration(r: Rig, n: SyringeNumber, confirm: bool)
    requires SetSyringeButtonEnabled(r) && r.n.calibrationModalOpen
    requires forall m: SyringeNumber :: r.p.plungerPositionsMm[m].Some?
    ensures var s := SetSyringeAndClose(r, n, confirm);
      && s.outcome == Pass
      && !s.rig.n.calibrationModalOpen
      && s.rig.p.currentSyringe == Some(n)
      && CalibrationIsComplete(s.rig)
  {
  }

  // ---------------------------------------------------------------- the processing toggle

  /** `str(n)`, the key of a plunger position in the save file. */
  function SyringeKey(n: SyringeNumber): string {
    [(('0' as int) + n) as char]
  }

  /** The first syringe, in order, without a recorded plunger position. */
  function MissingPlunger(plungers: map<SyringeNumber, Option<real>>): (r: Option<SyringeNumber>)
    ensures r.None? <==> forall m: SyringeNumber :: m in plungers
    ensures r.Some? ==> r.value !in plungers && forall m: SyringeNumber :: m < r.value ==> m in plungers
  {
    if 1 !in plungers then Some(1)
    else if 2 !in plungers then Some(2)
    else if 3 !in plungers then Some(3)
    else if 4 !in plungers then Some(4)
    else None
  }

  /**
   * `toggle_processing_with_warning`: disabling zeroes the pins; enabling first
   * reads every plunger position for the warning (raising `KeyError` on a
   * missing one), then enables only when the user confirms.
   */
  function ToggleProcessing(r: Rig, confirm: bool): Service.Step {
    if r.n.processingEnabled then
      Service.Step(WithPins(r.(n := r.n.(processingEnabled := false)), ZeroedPins(r.p.pins)), Pass)
    else if MissingPlunger(r.p.plungerPositionsMm).Some? then
      Service.Step(r, Fail(KeyError(SyringeKey(MissingPlunger(r.p.plungerPositionsMm).value))))
    else if confirm then Service.Step(r.(n := r.n.(processingEnabled := true)), Pass)
    else Service.Step(r, Pass)
  }

  /**
   * Disabling always succeeds and leaves every pin reading 0; enabling raises
   * exactly when a plunger position is missing and otherwise follows the
   * user's answer.
   */
  lemma ToggleCases(r: Rig, confirm: bool, name: string)
    ensures var s := ToggleProcessing(r, confirm);
      && (r.n.processingEnabled ==>
            && s.outcome == Pass && !s.rig.n.processingEnabled
            && (ReadPin(s.rig.p.pins, name).Ok? ==> ReadPin(s.rig.p.pins, name) == Ok(Some(0))))
      && (!r.n.processingEnabled ==>
            && (s.outcome.Fail? <==> exists m: SyringeNumber :: m !in r.p.plungerPositionsMm)
            && (s.outcome.Fail? ==> s.outcome.error == KeyError(SyringeKey(MissingPlunger(r.p.plungerPositionsMm).value)))
            && (s.outcome.Pass? ==> s.rig.n.processingEnabled == confirm && s.rig.p == r.p))
  {
    if r.n.processingEnabled && ReadPin(ZeroedPins(r.p.pins), name).Ok? {
      ZeroedPinsReadZero(r.p.pins, name);
    }
  }

  /** Enabling and then disabling again only zeroes the pins. */
  lemma ToggleOnThenOff(r: Rig, confirm: bool)
    requires !r.n.processingEnabled && forall m: SyringeNumber :: m in r.p.plungerPositionsMm
    ensures ToggleProcessing(ToggleProcessing(r, true).rig, confirm).rig == WithPins(r, ZeroedPins(r.p.pins))
  {
  }

  // ---------------------------------------------------------------- the imperative code

  /** `home_the_actuator`. */
  method HomeTheActuator(state: GlobalState) returns (outcome: Outcome)
    modifies state
    ensures Service.Step(state.Model(), outcome) == Home(old(state.Model()))
  {
    if state.nonpersistent.actuatorHasCalibrationLock {
      return Pass;
    }
    state.nonpersistent := state.nonpersistent.(actuatorHasCalibrationLock := true);
    state.persistent := state.persistent.(actuatorPositionMm := None);
    outcome := WritePin(state, RETRACT_PIN, 1);
    if outcome.Fail? {
      return;
    }
    // the timed full retraction: only its duration's computation can raise
    var seconds := HomeSleep(state.nonpersistent.actuator);
    if seconds.Err? {
      return Fail(seconds.error);
    }
    outcome := WritePin(state, RETRACT_PIN, 0);
    if outcome.Fail? {
      return;
    }
    state.persistent := state.persistent.(actuatorPositionMm := Some(0.0));
    state.nonpersistent := state.nonpersistent.(actuatorHasCalibrationLock := false);
  }

  /** One iteration of the handcrank loop on the state. */
  method TurnCrank(state: GlobalState, required: real, traveled: real, last: int, reading: CrankReading)
    returns (credited: real, outcome: Outcome, running: bool)
    modifies state
    ensures Crank(state.Model(), credited, outcome, running) == CrankTurn(old(state.Model()), required, traveled, last, reading)
  {
    var expected := ExpectedTravel(required, state.nonpersistent.actuator, reading.deltaReading - last);
    if state.persistent.actuatorPositionMm.None? {
      return traveled, Fail(TypeError), false;
    }
    var position := state.persistent.actuatorPositionMm.value;
    if position < 0.0 {
      state.persistent := state.persistent.(actuatorPositionMm := Some(0.0));
      return traveled, Pass, false;
    }
    if WouldMoveFurther(traveled, expected, required) {
      return traveled, Pass, false;
    }
    if position + expected > Envelope(state.nonpersistent.actuator) {
      return traveled, Pass, false;
    }
    outcome := WritePin(state, DrivePin(required), 1);
    if outcome.Fail? {
      return traveled, outcome, false;
    }
    state.persistent := state.persistent.(actuatorPositionMm := Some(position + expected));
    return traveled + expected, Pass, true;
  }

  /** The handcrank loop on the state, from the credited travel and clock reading given. */
  method RunCrankLoop(state: GlobalState, required: real, traveled: real, last: int, readings: seq<CrankReading>)
    returns (credited: real, outcome: Outcome, running: bool)
    modifies state
    ensures Crank(state.Model(), credited, outcome, running) == CrankLoop(old(state.Model()), required, traveled, last, readings)
  {
    credited, outcome, running := traveled, Pass, true;
    var since := last;
    var i := 0;
    while i < |readings|
      invariant 0 <= i <= |readings| && outcome == Pass && running
      invariant CrankLoop(old(state.Model()), required, traveled, last, readings)
        == CrankLoop(state.Model(), required, credited, since, readings[i..])
      decreases |readings| - i
    {
      assert readings[i..][1..] == readings[i + 1..];
      credited, outcome, running := TurnCrank(state, required, credited, since, readings[i]);
      if !running {
        return;
      }
      since := readings[i].startReading;
      i := i + 1;
    }
  }

  /** The end of `handcrank_the_actuator`: both pins to 0, the lock released. */
  method ReleaseActuator(state: GlobalState) returns (outcome: Outcome)
    modifies state
    ensures Service.Step(state.Model(), outcome) == Release(old(state.Model()))
  {
    outcome := WritePin(state, EXTEND_PIN, 0);
    if outcome.Fail? {
      return;
    }
    outcome := WritePin(state, RETRACT_PIN, 0);
    if outcome.Fail? {
      return;
    }
    state.nonpersistent := state.nonpersistent.(actuatorHasCalibrationLock := false);
  }

  /** `handcrank_the_actuator`; `running` when the readings ran out before the loop stopped. */
  method HandcrankTheActuator(state: GlobalState, required: real, start: int, readings: seq<CrankReading>)
    returns (outcome: Outcome, running: bool)
    modifies state
    ensures var c := Handcrank(old(state.Model()), required, start, readings);
      state.Model() == c.rig && outcome == c.outcome && running == c.running
  {
    if state.nonpersistent.actuatorHasCalibrationLock {
      return Pass, false;
    }
    state.nonpersistent := state.nonpersistent.(actuatorHasCalibrationLock := true);
    var traveled;
    traveled, outcome, running := RunCrankLoop(state, required, 0.0, start, readings);
    if outcome.Fail? || running {
      return;
    }
    outcome := ReleaseActuator(state);
  }

  /** A record button. */
  method RecordPlungerPosition(state: GlobalState, n: SyringeNumber)
    modifies state
    ensures state.Model() == Recorded(old(state.Model()), n)
  {
    var plungers := SetValue(state.persistent.plungerPositionsMm, n, state.persistent.actuatorPositionMm);
    state.persistent := state.persistent.(plungerPositionsMm := plungers);
    state.persistent := state.persistent.(currentSyringe := Some(n));
  }

  /** `close_calibration_gui`, with the user's answer should it ask. */
  method CloseCalibrationGui(state: GlobalState, confirm: bool) returns (outcome: Outcome)
    modifies state
    ensures Service.Step(state.Model(), outcome) == CloseCalibration(old(state.Model()), confirm)
  {
    if !state.nonpersistent.calibrationModalOpen {
      return Fail(ModalNotOpen);
    }
    if !CalibrationIsComplete(state.Model()) && !confirm {
      return Pass;
    }
    state.nonpersistent := state.nonpersistent.(calibrationModalOpen := false);
    return Pass;
  }

  /** A set-syringe button. */
  method SetCurrentSyringeAndClose(state: GlobalState, n: SyringeNumber, confirm: bool) returns (outcome: Outcome)
    modifies state
    ensures Service.Step(state.Model(), outcome) == SetSyringeAndClose(old(state.Model()), n, confirm)
  {
    state.persistent := state.persistent.(currentSyringe := Some(n));
    outcome := CloseCalibrationGui(state, confirm);
  }

  /** `toggle_processing_with_warning`, with the user's answer should it ask. */
  method ToggleProcessingWithWarning(state: GlobalState, confirm: bool) returns (outcome: Outcome)
    modifies state
    ensures Service.Step(state.Model(), outcome) == ToggleProcessing(old(state.Model()), confirm)
  {
    if state.nonpersistent.processingEnabled {
      state.nonpersistent := state.nonpersistent.(processingEnabled := false);
      ZeroOutPins(state);
      return Pass;
    }
    var n := 1;
    while n <= 4
      invariant 1 <= n <= 5
      invariant forall m: SyringeNumber :: m < n ==> m in state.persistent.plungerPositionsMm
      invariant state.Model() == old(state.Model())
    {
      // the warning reads `plunger_positions_mm[str(n)]`
      if n !in state.persistent.plungerPositionsMm {
        return Fail(KeyError(SyringeKey(n)));
      }
      n := n + 1;
    }
    if confirm {
      state.nonpersistent := state.nonpersistent.(processingEnabled := true);
    }
    return Pass;
  }
}
