/**
 * The pin shadow table of scripts/bioprintly/pins.py: named logical pins,
 * each with an optional physical number, an optional io type and an optional
 * shadow value. The GPIO library is the off-device stub: configuring and
 * writing physical pins has no observable effect and inputs read 0.
 */
module Pins {
  import opened Wrappers
  import opened Util

  /** `PinNumber`: the header pins that may be mapped. */
  const PIN_NUMBERS: set<int> :=
    {8, 10, 12, 16, 18, 22, 24, 26, 32, 36, 38, 40, 3, 5, 7, 11, 13, 15, 19, 21, 23, 29, 31, 33, 35, 37}

  /** What the stub `GPIO.input` returns for every pin. */
  const STUB_INPUT_LEVEL: Bit := 0

  /** `InputOutput`; a value loaded from the save file may be anything else. */
  datatype IoType = Input | Output | Unrecognised(text: string)

  /** `Pin`: every field may be `None`. */
  datatype Pin = Pin(number: Option<int>, ioType: Option<IoType>, value: Option<Bit>)

  /** One key of the (insertion-ordered) pin dictionary. */
  datatype Entry = Entry(name: string, pin: Pin)

  /** `PinMappings`, in dictionary order. */
  type PinMappings = seq<Entry>

  /** `flip_bit`: `+(not value)`. */
  function FlipBit(b: Bit): (r: Bit)
    ensures r != b
  {
    1 - b
  }

  lemma FlipBitInvolution(b: Bit)
    ensures FlipBit(FlipBit(b)) == b
  {
  }

  /** The level `flip_bit` negates when given a shadow value: `None` is falsy like 0. */
  function Level(v: Option<Bit>): (r: Bit)
    ensures v.Some? ==> r == v.value
    ensures v.None? ==> r == 0
  {
    if v == Some(1) then 1 else 0
  }

  /** Dictionary keys are unique. */
  ghost predicate UniqueNames(t: PinMappings) {
    forall i, j :: 0 <= i < j < |t| ==> t[i].name != t[j].name
  }

  /** Position of the first entry named `name` at or after `from`. */
  function IndexFrom(t: PinMappings, name: string, from: nat): (r: Option<nat>)
    requires from <= |t|
    ensures r.Some? ==> from <= r.value < |t| && t[r.value].name == name
    ensures r.Some? ==> forall j :: from <= j < r.value ==> t[j].name != name
    ensures r.None? ==> forall j :: from <= j < |t| ==> t[j].name != name
    decreases |t| - from
  {
    if from == |t| then None
    else if t[from].name == name then Some(from)
    else IndexFrom(t, name, from + 1)
  }

  /** Where `state['pins'][name]` lives, if `name in state['pins']`. */
  function IndexOf(t: PinMappings, name: string): Option<nat>
  {
    IndexFrom(t, name, 0)
  }

  /** `state['pins'][name]`, if present. */
  function Lookup(t: PinMappings, name: string): (r: Option<Pin>)
  {
    match IndexOf(t, name)
    case None => None
    case Some(i) => Some(t[i].pin)
  }

  /**
   * `read_pin`: the shadow value of an output pin, the (stub) hardware level of
   * an input pin; raises for an unknown name or an io type that is neither.
   */
  function ReadPin(t: PinMappings, name: string): (r: Result<Option<Bit>>)
  {
    match Lookup(t, name)
    case None => Err(UnknownPin(name))
    case Some(p) =>
      if p.ioType == Some(Input) then Ok(Some(STUB_INPUT_LEVEL))
      else if p.ioType == Some(Output) then Ok(p.value)
      else Err(UnknownPinType(name))
  }

  /**
   * `write_pin`: the table with the named output pin's shadow value set;
   * raises for an unknown name or a pin that is not an output.
   */
  function PinsAfterWrite(t: PinMappings, name: string, value: Bit): (r: Result<PinMappings>)
  {
    match IndexOf(t, name)
    case None => Err(UnknownPin(name))
    case Some(i) =>
      if t[i].pin.ioType != Some(Output) then Err(NotOutputPin(name))
      else Ok(t[i := Entry(name, t[i].pin.(value := Some(value)))])
  }

  /** A name is found exactly when some entry carries it, and then the first such entry is the one. */
  lemma LookupFindsName(t: PinMappings, name: string)
    ensures Lookup(t, name).None? <==> forall j :: 0 <= j < |t| ==> t[j].name != name
    ensures Lookup(t, name).Some? ==> IndexOf(t, name).Some? && t[IndexOf(t, name).value] == Entry(name, Lookup(t, name).value)
  {
  }

  /** `read_pin` raises for an unknown name or an unknown io type, and otherwise reads the level. */
  lemma ReadPinCases(t: PinMappings, name: string)
    ensures Lookup(t, name).None? ==> ReadPin(t, name) == Err(UnknownPin(name))
    ensures Lookup(t, name).Some? ==>
      var p := Lookup(t, name).value;
      (p.ioType == Some(Output) ==> ReadPin(t, name) == Ok(p.value)) &&
      (p.ioType == Some(Input) ==> ReadPin(t, name) == Ok(Some(STUB_INPUT_LEVEL))) &&
      (p.ioType != Some(Output) && p.ioType != Some(Input) ==> ReadPin(t, name) == Err(UnknownPinType(name)))
  {
  }

  /** `write_pin` succeeds exactly on an existing output pin, and otherwise raises the matching error. */
  lemma WriteOutcomes(t: PinMappings, name: string, value: Bit)
    ensures PinsAfterWrite(t, name, value).Ok? <==> Lookup(t, name).Some? && Lookup(t, name).value.ioType == Some(Output)
    ensures Lookup(t, name).None? ==> PinsAfterWrite(t, name, value) == Err(UnknownPin(name))
    ensures Lookup(t, name).Some? && Lookup(t, name).value.ioType != Some(Output) ==> PinsAfterWrite(t, name, value) == Err(NotOutputPin(name))
  {
  }

  /** The named pin exists and is an output. */
  predicate OutputPin(t: PinMappings, name: string) {
    Lookup(t, name).Some? && Lookup(t, name).value.ioType == Some(Output)
  }

  /**
   * A successful write sets the value of the first pin with that name and
   * leaves every other entry, and that pin's number and io type, as they were.
   */
  lemma WriteShape(t: PinMappings, name: string, value: Bit)
    requires PinsAfterWrite(t, name, value).Ok?
    ensures var r := PinsAfterWrite(t, name, value).value;
      && |r| == |t|
      && forall j :: 0 <= j < |t| ==>
        && r[j].name == t[j].name
        && r[j].pin.number == t[j].pin.number
        && r[j].pin.ioType == t[j].pin.ioType
        && (j == IndexOf(t, name).value ==> r[j].pin.value == Some(value))
        && (j != IndexOf(t, name).value ==> r[j] == t[j])
  {
  }

  /** Reading a pin right after writing it gives the written level. */
  lemma ReadAfterWrite(t: PinMappings, name: string, value: Bit)
    requires PinsAfterWrite(t, name, value).Ok?
    ensures ReadPin(PinsAfterWrite(t, name, value).value, name) == Ok(Some(value))
  {
    var t' := PinsAfterWrite(t, name, value).value;
    var i := IndexOf(t, name).value;
    WriteShape(t, name, value);
    assert IndexOf(t', name) == Some(i) by {
      assert forall j :: 0 <= j < i ==> t'[j].name != name;
      IndexFromSkips(t', name, 0, i);
    }
  }

  /** Writing one pin changes nothing that another name reads or looks up. */
  lemma WriteLeavesOtherPins(t: PinMappings, name: string, value: Bit, other: string)
    requires PinsAfterWrite(t, name, value).Ok?
    requires other != name
    ensures Lookup(PinsAfterWrite(t, name, value).value, other) == Lookup(t, other)
    ensures ReadPin(PinsAfterWrite(t, name, value).value, other) == ReadPin(t, other)
  {
    var t' := PinsAfterWrite(t, name, value).value;
    WriteShape(t, name, value);
    SameNamesSameIndex(t, t', other, 0);
  }

  /** A write keeps every pin's name, number and io type: the layout of the table. */
  lemma WriteKeepsLayout(t: PinMappings, name: string, value: Bit, other: string)
    requires PinsAfterWrite(t, name, value).Ok?
    ensures IndexOf(PinsAfterWrite(t, name, value).value, other) == IndexOf(t, other)
    ensures Lookup(t, other).Some? ==>
      Lookup(PinsAfterWrite(t, name, value).value, other).value.ioType == Lookup(t, other).value.ioType
  {
    WriteShape(t, name, value);
    SameNamesSameIndex(t, PinsAfterWrite(t, name, value).value, other, 0);
  }

  /** A write keeps every output pin an output, and every other pin not one. */
  lemma WriteKeepsOutputPins(t: PinMappings, name: string, value: Bit, other: string)
    requires PinsAfterWrite(t, name, value).Ok?
    ensures OutputPin(PinsAfterWrite(t, name, value).value, other) == OutputPin(t, other)
  {
    WriteKeepsLayout(t, name, value, other);
    WriteShape(t, name, value);
  }

  /** Writing a pin twice is writing it once with the second level. */
  lemma WriteTwice(t: PinMappings, name: string, first: Bit, second: Bit)
    requires PinsAfterWrite(t, name, first).Ok?
    ensures PinsAfterWrite(PinsAfterWrite(t, name, first).value, name, second) == PinsAfterWrite(t, name, second)
  {
    WriteKeepsLayout(t, name, first, name);
    var i := IndexOf(t, name).value;
    var t1 := PinsAfterWrite(t, name, first).value;
    assert t1 == t[i := Entry(name, t[i].pin.(value := Some(first)))];
    assert t1[i].pin.(value := Some(second)) == t[i].pin.(value := Some(second));
    assert t1[i := Entry(name, t1[i].pin.(value := Some(second)))] == t[i := Entry(name, t[i].pin.(value := Some(second)))];
  }

  lemma IndexFromSkips(t: PinMappings, name: string, from: nat, to: nat)
    requires from <= to < |t| && t[to].name == name
    requires forall j :: from <= j < to ==> t[j].name != name
    ensures IndexFrom(t, name, from) == Some(to)
    decreases |t| - from
  {
    if from < to {
      IndexFromSkips(t, name, from + 1, to);
    }
  }

  lemma SameNamesSameIndex(t: PinMappings, u: PinMappings, name: string, from: nat)
    requires |t| == |u| && from <= |t|
    requires forall j :: 0 <= j < |t| ==> t[j].name == u[j].name
    ensures IndexFrom(t, name, from) == IndexFrom(u, name, from)
    decreases |t| - from
  {
    if from < |t| {
      SameNamesSameIndex(t, u, name, from + 1);
    }
  }

  /** `zero_out_pins` on the table: every shadow value becomes 0, nothing else changes. */
  function ZeroedPins(t: PinMappings): (r: PinMappings)
    ensures |r| == |t|
    ensures forall j :: 0 <= j < |t| ==> r[j] == Entry(t[j].name, t[j].pin.(value := Some(0)))
  {
    seq(|t|, j requires 0 <= j < |t| => Entry(t[j].name, t[j].pin.(value := Some(0))))
  }

  /** After zeroing (and so after `setup_pins`), every successful read is 0, outputs and inputs alike. */
  lemma ZeroedPinsReadZero(t: PinMappings, name: string)
    requires ReadPin(ZeroedPins(t), name).Ok?
    ensures ReadPin(ZeroedPins(t), name) == Ok(Some(0))
  {
    var z := ZeroedPins(t);
    match IndexOf(z, name)
    case None =>
    case Some(i) =>
      assert z[i].pin.value == Some(0);
  }

  /** A pin that `setup_pins` configures (it skips any pin with a `None` field left after zeroing). */
  predicate Configured(p: Pin) {
    p.number.Some? && p.ioType.Some?
  }

  /** A configured pin whose number and io type `setup_pins` accepts. */
  predicate AcceptedBySetup(p: Pin) {
    Configured(p) ==> p.number.value in PIN_NUMBERS && p.ioType.value in {Input, Output}
  }

  /** The exception of the first pin, at or after `from`, that `setup_pins` rejects. */
  function SetupFailure(t: PinMappings, from: nat): (r: Option<Exception>)
    requires from <= |t|
    ensures r.None? <==> forall j :: from <= j < |t| ==> AcceptedBySetup(t[j].pin)
    decreases |t| - from
  {
    if from == |t| then None
    else
      var p := t[from].pin;
      if !Configured(p) then SetupFailure(t, from + 1)
      else if p.number.value !in PIN_NUMBERS then Some(UnknownPinNumber(p.number.value))
      else if p.ioType.value.Unrecognised? then Some(UnknownPinType(t[from].name))
      else SetupFailure(t, from + 1)
  }

  /** What `setup_pins` raises, if anything. */
  function SetupOutcome(t: PinMappings): (r: Outcome)
    ensures r == Pass <==> forall j :: 0 <= j < |t| ==> AcceptedBySetup(t[j].pin)
  {
    match SetupFailure(t, 0)
    case None => Pass
    case Some(e) => Fail(e)
  }

  lemma SetupFailureIgnoresValues(t: PinMappings, u: PinMappings, from: nat)
    requires |t| == |u| && from <= |t|
    requires forall j :: 0 <= j < |t| ==> u[j].name == t[j].name && u[j].pin.number == t[j].pin.number && u[j].pin.ioType == t[j].pin.ioType
    ensures SetupFailure(t, from) == SetupFailure(u, from)
    decreases |t| - from
  {
    if from < |t| {
      SetupFailureIgnoresValues(t, u, from + 1);
    }
  }

  /**
   * `setup_pins` "can be rerun idempotently": a second run leaves the table it
   * produced unchanged and raises exactly what the first run raised.
   */
  lemma SetupPinsIdempotent(t: PinMappings)
    ensures ZeroedPins(ZeroedPins(t)) == ZeroedPins(t)
    ensures SetupOutcome(ZeroedPins(t)) == SetupOutcome(t)
  {
    SetupFailureIgnoresValues(t, ZeroedPins(t), 0);
  }
}
