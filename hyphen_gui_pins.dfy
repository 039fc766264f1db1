/**
 * scripts/bioprintly-gui/pins.py: the pin functions over the state's pin
 * table. The stub GPIO calls (including the first loop of `setup_pins`, which
 * only drives every valid physical pin low) have no observable effect.
 */
module HyphenGuiPins {
  import opened Wrappers
  import opened Util
  import opened Pins
  import opened LegacyPins
  import opened HyphenGuiState

  /** `setup_pins`: check and configure each pin in order; outputs get the value 0. */
  method SetupPins(state: GlobalState) returns (outcome: Outcome)
    modifies state
    ensures state.Model() == WithPins(old(state.Model()), SetupRun(old(state.g.pins), HyphenGui).pins)
    ensures outcome == SetupRun(old(state.g.pins), HyphenGui).outcome
  {
    var pins;
    pins, outcome := SetupLoop(state.g.pins, HyphenGui);
    state.g := state.g.(pins := pins);
  }

  /** `read_pin`. */
  function ReadPin(state: GlobalState, name: string): Result<Bit>
    reads state
  {
    ReadStored(state.g.pins, name)
  }

  /** `write_pin`: raises for an unknown label or a non-output pin, otherwise stores the value. */
  method WritePin(state: GlobalState, name: string, value: Bit) returns (outcome: Outcome)
    modifies state
    ensures PinsAfterWrite(old(state.g.pins), name, value).Ok? ==>
      outcome == Pass && state.Model() == WithPins(old(state.Model()), PinsAfterWrite(old(state.g.pins), name, value).value)
    ensures PinsAfterWrite(old(state.g.pins), name, value).Err? ==>
      outcome == Fail(PinsAfterWrite(old(state.g.pins), name, value).error) && state.Model() == old(state.Model())
  {
    var written := PinsAfterWrite(state.g.pins, name, value);
    if written.Err? {
      return Fail(written.error);
    }
    state.g := state.g.(pins := written.value);
    return Pass;
  }

  /** `zero_out_pins_and_exit`, up to the `exit()`: write 0 to every label in turn. */
  method ZeroOutPinsAndExit(state: GlobalState) returns (outcome: Outcome)
    modifies state
    ensures state.Model() == WithPins(old(state.Model()), WriteZeros(old(state.g.pins), Names(old(state.g.pins))).pins)
    ensures outcome == WriteZeros(old(state.g.pins), Names(old(state.g.pins))).outcome
  {
    var pins;
    pins, outcome := WriteZerosLoop(state.g.pins);
    state.g := state.g.(pins := pins);
  }

  /**
   * The default table (pins 3 and 5, both outputs at 0) passes `setup_pins`,
   * which leaves it as it is, and `zero_out_pins_and_exit` succeeds on it.
   */
  lemma DefaultPinsSetUp(savefilePath: string)
    ensures var t := DefaultGlobals(savefilePath).pins;
      && SetupRun(t, HyphenGui) == PinRun(t, Pass)
      && WriteZeros(t, Names(t)) == PinRun(t, Pass)
      && ReadStored(t, "rotator_step") == Ok(0)
      && ReadStored(t, "rotator_direction") == Ok(0)
  {
    var t := DefaultGlobals(savefilePath).pins;
    assert 3 in PIN_NUMBERS && 5 in PIN_NUMBERS;
    SetupRunCases(t, HyphenGui);
    assert SetupRun(t, HyphenGui).pins == t;
    CleanupCases(t);
    assert ZeroedPins(t) == t;
  }
}
