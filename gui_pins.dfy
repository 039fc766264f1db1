/**
 * scripts/gui/pins.py: the module-level `pins` dictionary, whose outputs
 * start without a `value` key, and the functions over it. Its `read_pin`
 * tests the stored value for truth, so a stored 0 raises as a missing value;
 * its `setup_pins` checks no pin number and stores 0 in every output.
 */
module GuiPins {
  import opened Wrappers
  import opened Util
  import opened Pins
  import opened LegacyPins
  import opened BoardPins

  /** The `pins` dictionary. */
  class PinBoard {
    var pins: PinMappings

    ghost predicate Valid()
      reads this
    {
      && WellFormedBoard(pins)
      && OutputPin(pins, "rotator_step") && OutputPin(pins, "rotator_direction")
    }

    /** The literal: no output holds a value. */
    constructor()
      ensures pins == BoardTable(None)
      ensures Valid()
    {
      pins := BoardTable(None);
      BoardTableWellFormed(None);
      BoardTableRotatorPins(None);
    }

    /** `read_pin`: `Ok(None)` is the implicit `None` return for an io type that is neither. */
    function ReadPin(name: string): Result<Option<Bit>>
      reads this
    {
      ReadTruthy(pins, name)
    }

    /** `write_pin`: raises for an unknown label or a non-output pin, otherwise stores the value. */
    method WritePin(name: string, value: Bit) returns (outcome: Outcome)
      modifies this
      ensures PinsAfterWrite(old(pins), name, value).Ok? ==>
        outcome == Pass && pins == PinsAfterWrite(old(pins), name, value).value
      ensures PinsAfterWrite(old(pins), name, value).Err? ==>
        outcome == Fail(PinsAfterWrite(old(pins), name, value).error) && pins == old(pins)
      ensures old(Valid()) ==> Valid()
    {
      var written := PinsAfterWrite(pins, name, value);
      if written.Err? {
        return Fail(written.error);
      }
      if Valid() {
        WriteKeepsWellFormed(pins, name, value);
        WriteKeepsOutputPins(pins, name, value, "rotator_step");
        WriteKeepsOutputPins(pins, name, value, "rotator_direction");
      }
      pins := written.value;
      return Pass;
    }

    /**
     * `setup_pins`: raises at the first pin with no or an unknown io type, or
     * with no number; stores 0 in every output it gets past.
     */
    method SetupPins() returns (outcome: Outcome)
      modifies this
      ensures PinRun(pins, outcome) == SetupRun(old(pins), PlainGui)
      ensures old(Valid()) ==> outcome == Pass && pins == ZeroedPins(old(pins)) && Valid()
    {
      if Valid() {
        SetupOnBoard(pins, PlainGui);
        CleanupOnBoard(pins);
        ZeroedKeepsOutputs(pins, "rotator_step");
        ZeroedKeepsOutputs(pins, "rotator_direction");
      }
      pins, outcome := SetupLoop(pins, PlainGui);
    }

    /** `cleanup`, up to the `exit()`: write 0 to every label in turn. */
    method Cleanup() returns (outcome: Outcome)
      modifies this
      ensures PinRun(pins, outcome) == WriteZeros(old(pins), Names(old(pins)))
      ensures old(Valid()) ==> outcome == Pass && pins == ZeroedPins(old(pins)) && Valid()
    {
      if Valid() {
        CleanupOnBoard(pins);
        ZeroedKeepsOutputs(pins, "rotator_step");
        ZeroedKeepsOutputs(pins, "rotator_direction");
      }
      pins, outcome := WriteZerosLoop(pins);
    }
  }

  /** Before `setup_pins`, reading any output of the literal raises: it has no `value` key. */
  lemma ReadBeforeSetupRaises(name: string)
    requires OutputPin(BoardTable(None), name)
    ensures ReadTruthy(BoardTable(None), name) == Err(KeyError("value"))
  {
    BoardTableWellFormed(None);
  }

  /**
   * After `setup_pins` every output holds 0, which `read_pin` takes for a
   * missing value: reading an output raises until a 1 is written to it, and
   * so the flip of a half-step can never read its step pin.
   */
  lemma ReadAfterSetupRaises(name: string)
    requires OutputPin(BoardTable(None), name)
    ensures ReadTruthy(ZeroedPins(BoardTable(None)), name) == Err(MissingPinValue(name))
    ensures ReadTruthy(PinsAfterWrite(ZeroedPins(BoardTable(None)), name, 1).value, name) == Ok(Some(1))
  {
    var t := BoardTable(None);
    BoardTableWellFormed(None);
    SetupOnBoard(t, PlainGui);
    PlainSetupThenReadRaises(t, name);
    ZeroedKeepsOutputs(t, name);
    WriteOutcomes(ZeroedPins(t), name, 1);
    ReadTruthyAfterWrite(ZeroedPins(t), name, 1);
  }
}
