/**
 * scripts/bioprintly_gui/pins.py: the module-level `PINS` dictionary and the
 * functions over it. `setup_pins` only configures the (stub) hardware, so the
 * table keeps its values; `read_pin` is that of scripts/bioprintly-gui.
 */
module UnderscoreGuiPins {
  import opened Wrappers
  import opened Util
  import opened Pins
  import opened LegacyPins
  import opened BoardPins

  /** The `PINS` dictionary. */
  class PinBoard {
    var pins: PinMappings

    /** The board is well formed, both rotator pins are outputs, and every output holds a value. */
    ghost predicate Valid()
      reads this
    {
      && WellFormedBoard(pins)
      && OutputPin(pins, "rotator_step") && OutputPin(pins, "rotator_direction")
      && forall j :: 0 <= j < |pins| ==> pins[j].pin.value.Some?
    }

    /** The literal: every output at 0. */
    constructor()
      ensures pins == BoardTable(Some(0))
      ensures Valid()
    {
      pins := BoardTable(Some(0));
      BoardTableWellFormed(Some(0));
      BoardTableRotatorPins(Some(0));
    }

    /** `read_pin`. */
    function ReadPin(name: string): Result<Bit>
      reads this
    {
      ReadStored(pins, name)
    }

    /** `write_pin`: raises for an unknown label or a non-output pin, otherwise stores the value. */
    method WritePin(name: string, value: Bit) returns (outcome: Outcome)
      modifies this
      ensures PinsAfterWrite(old(pins), name, value).Ok? ==>
        outcome == Pass && pins == PinsAfterWrite(old(pins), name, value).value
      ensures PinsAfterWrite(old(pins), name, value).Err? ==>
        outcome == Fail(PinsAfterWrite(old(pins), name, value).error) && pins == old(pins)
      ensures old(Valid()) ==> Valid()
    {
      var written := PinsAfterWrite(pins, name, value);
      if written.Err? {
        return Fail(written.error);
      }
      if Valid() {
        WriteKeepsWellFormed(pins, name, value);
        WriteKeepsOutputPins(pins, name, value, "rotator_step");
        WriteKeepsOutputPins(pins, name, value, "rotator_direction");
        WriteShape(pins, name, value);
      }
      pins := written.value;
      return Pass;
    }

    /**
     * `setup_pins`: raises at the first pin with an unmapped number, an
     * unknown io type or (for an output) no value; the table is not changed.
     */
    method SetupPins() returns (outcome: Outcome)
      ensures outcome == SetupRun(pins, UnderscoreGui).outcome
      ensures Valid() ==> outcome == Pass
    {
      var _, o := SetupLoop(pins, UnderscoreGui);
      outcome := o;
      if Valid() {
        SetupOnBoard(pins, UnderscoreGui);
      }
    }

    /** `cleanup`, up to the `exit()`: write 0 to every label in turn. */
    method Cleanup() returns (outcome: Outcome)
      modifies this
      ensures PinRun(pins, outcome) == WriteZeros(old(pins), Names(old(pins)))
      ensures old(Valid()) ==> outcome == Pass && pins == ZeroedPins(old(pins)) && Valid()
    {
      if Valid() {
        CleanupOnBoard(pins);
        ZeroedKeepsOutputs(pins, "rotator_step");
        ZeroedKeepsOutputs(pins, "rotator_direction");
      }
      pins, outcome := WriteZerosLoop(pins);
    }
  }
}
