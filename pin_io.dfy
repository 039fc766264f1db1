/**
 * The functions of scripts/bioprintly/pins.py that update the state's pin
 * dictionary in place. The writes to the physical pins are stubs there and
 * are not modelled; only the shadow values in the table change.
 */
module PinIO {
  import opened Wrappers
  import opened Util
  import opened Pins
  import opened State

  /**
   * `zero_out_pins`: (the stub's writes of 0 to every physical pin, then)
   * every mapping's shadow value set to 0.
   */
  method ZeroOutPins(state: GlobalState)
    modifies state
    ensures state.Model() == WithPins(old(state.Model()), ZeroedPins(old(state.persistent.pins)))
  {
    ghost var t0 := state.persistent.pins;
    var i := 0;
    while i < |state.persistent.pins|
      invariant 0 <= i <= |state.persistent.pins| == |t0|
      invariant state.Model() == WithPins(old(state.Model()), state.persistent.pins)
      invariant forall j :: 0 <= j < i ==> state.persistent.pins[j] == ZeroedPins(t0)[j]
      invariant forall j :: i <= j < |t0| ==> state.persistent.pins[j] == t0[j]
    {
      var t := state.persistent.pins;
      state.persistent := state.persistent.(pins := t[i := Entry(t[i].name, t[i].pin.(value := Some(0)))]);
      i := i + 1;
    }
  }

  /**
   * `setup_pins`: zero everything, then check each configured pin in order;
   * output pins are (again) set to 0.
   */
  method SetupPins(state: GlobalState) returns (outcome: Outcome)
    modifies state
    ensures state.Model() == WithPins(old(state.Model()), ZeroedPins(old(state.persistent.pins)))
    ensures outcome == SetupOutcome(old(state.persistent.pins))
  {
    ZeroOutPins(state);
    ghost var zeroed := state.Model();
    var t := state.persistent.pins;
    SetupFailureIgnoresValues(old(state.persistent.pins), t, 0);
    for i := 0 to |t|
      invariant state.Model() == zeroed
      invariant SetupFailure(t, 0) == SetupFailure(t, i)
    {
      var pin := t[i].pin;
      if pin.number.None? || pin.ioType.None? || pin.value.None? {
        continue;
      }
      if pin.number.value !in PIN_NUMBERS {
        return Fail(UnknownPinNumber(pin.number.value));
      }
      match pin.ioType.value
      case Input =>
      case Output =>
        // the value is already 0, so writing it again leaves the table as it is
        assert t[i := Entry(t[i].name, pin.(value := Some(0)))] == t;
        state.persistent := state.persistent.(pins := t[i := Entry(t[i].name, pin.(value := Some(0)))]);
      case Unrecognised(_) =>
        return Fail(UnknownPinType(t[i].name));
    }
    return Pass;
  }

  /** `write_pin`. */
  method WritePin(state: GlobalState, name: string, value: Bit) returns (outcome: Outcome)
    modifies state
    ensures PinsAfterWrite(old(state.persistent.pins), name, value).Ok? ==>
      state.Model() == WithPins(old(state.Model()), PinsAfterWrite(old(state.persistent.pins), name, value).value)
      && outcome == Pass
    ensures PinsAfterWrite(old(state.persistent.pins), name, value).Err? ==>
      state.Model() == old(state.Model())
      && outcome == Fail(PinsAfterWrite(old(state.persistent.pins), name, value).error)
  {
    var t := state.persistent.pins;
    match IndexOf(t, name)
    case None =>
      return Fail(UnknownPin(name));
    case Some(i) =>
      var pin := t[i].pin;
      if pin.ioType != Some(Output) {
        return Fail(NotOutputPin(name));
      }
      state.persistent := state.persistent.(pins := t[i := Entry(name, pin.(value := Some(value)))]);
      return Pass;
  }
}
