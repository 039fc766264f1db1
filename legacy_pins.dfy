/**
 * The pin tables of the three older front ends: scripts/bioprintly-gui/pins.py,
 * scripts/bioprintly_gui/pins.py and scripts/gui/pins.py. They keep the same
 * ordered dictionary of named pins as Pins, and their `write_pin` is the one
 * of Pins (`PinsAfterWrite`); they differ in how `read_pin` treats an output
 * and in what `setup_pins` checks. Their `Pin` declares every key, so a `None`
 * field stands for a key missing from the dictionary, and using it raises
 * `KeyError`. The GPIO library is the off-device stub, whose inputs read 0.
 */
module LegacyPins {
  import opened Wrappers
  import opened Util
  import opened Pins

  /** Which front end's `setup_pins`. */
  datatype Frontend =
    | HyphenGui       // scripts/bioprintly-gui
    | UnderscoreGui   // scripts/bioprintly_gui
    | PlainGui        // scripts/gui

  /** A pin table after a loop over it, and what the loop raised. */
  datatype PinRun = PinRun(pins: PinMappings, outcome: Outcome)

  /**
   * `read_pin` of scripts/bioprintly-gui/pins.py and scripts/bioprintly_gui/pins.py
   * (the same code): an output gives its stored value and raises when it has
   * none, an input gives the stub level, any other io type reaches a bare `raise`.
   */
  function ReadStored(t: PinMappings, name: string): Result<Bit>
  {
    match Lookup(t, name)
    case None => Err(UnknownPin(name))
    case Some(p) =>
      if p.ioType.None? then Err(KeyError("type"))
      else if p.ioType.value == Input then
        if p.number.None? then Err(KeyError("number")) else Ok(STUB_INPUT_LEVEL)
      else if p.ioType.value == Output then
        if p.value.None? then Err(MissingPinValue(name)) else Ok(p.value.value)
      else Err(ReraiseWithoutException)
  }

  /**
   * `read_pin` of scripts/gui/pins.py: an output whose stored value is falsy
   * raises, so only a stored 1 can be read back; any other io type falls off
   * the end of the function, which returns `None`.
   */
  function ReadTruthy(t: PinMappings, name: string): Result<Option<Bit>>
  {
    match Lookup(t, name)
    case None => Err(UnknownPin(name))
    case Some(p) =>
      if p.ioType.None? then Err(KeyError("type"))
      else if p.ioType.value == Input then
        if p.number.None? then Err(KeyError("number")) else Ok(Some(STUB_INPUT_LEVEL))
      else if p.ioType.value == Output then
        if p.value.None? then Err(KeyError("value"))
        else if p.value.value == 0 then Err(MissingPinValue(name))
        else Ok(Some(1))
      else Ok(None)
  }

  /** Both readers raise for a name the table does not have. */
  lemma ReadUnknownRaises(t: PinMappings, name: string)
    requires forall j :: 0 <= j < |t| ==> t[j].name != name
    ensures ReadStored(t, name) == Err(UnknownPin(name))
    ensures ReadTruthy(t, name) == Err(UnknownPin(name))
  {
    LookupFindsName(t, name);
  }

  /** After a successful write, the stored reader gives back the written level. */
  lemma ReadStoredAfterWrite(t: PinMappings, name: string, value: Bit)
    requires PinsAfterWrite(t, name, value).Ok?
    ensures ReadStored(PinsAfterWrite(t, name, value).value, name) == Ok(value)
  {
    ReadAfterWrite(t, name, value);
    WriteOutcomes(t, name, value);
    WriteKeepsOutputPins(t, name, value, name);
  }

  /** After a successful write, the truthy reader gives back a 1 and raises on a 0. */
  lemma ReadTruthyAfterWrite(t: PinMappings, name: string, value: Bit)
    requires PinsAfterWrite(t, name, value).Ok?
    ensures ReadTruthy(PinsAfterWrite(t, name, value).value, name) ==
      if value == 1 then Ok(Some(1)) else Err(MissingPinValue(name))
  {
    ReadAfterWrite(t, name, value);
    WriteOutcomes(t, name, value);
    WriteKeepsOutputPins(t, name, value, name);
  }

  // ---------------------------------------------------------------- setup_pins

  /** What a front end's `setup_pins` raises on one entry, if anything. */
  function PinFault(e: Entry, f: Frontend): Option<Exception>
  {
    var p := e.pin;
    match f
    case HyphenGui =>
      if p.number.None? then Some(KeyError("number"))
      else if p.number.value !in PIN_NUMBERS then Some(UnknownPinNumber(p.number.value))
      else if p.ioType.None? then Some(KeyError("type"))
      else if p.ioType.value.Unrecognised? then Some(UnknownPinType(e.name))
      else None
    case UnderscoreGui =>
      if p.number.None? then Some(KeyError("number"))
      else if p.number.value !in PIN_NUMBERS then Some(UnknownPinNumber(p.number.value))
      else if p.ioType.None? then Some(KeyError("type"))
      else if p.ioType.value.Unrecognised? then Some(UnknownPinType(e.name))
      else if p.ioType.value == Output && p.value.None? then Some(KeyError("value"))
      else None
    case PlainGui =>
      if p.ioType.None? then Some(KeyError("type"))
      else if p.ioType.value.Unrecognised? then Some(UnknownPinType(e.name))
      else if p.number.None? then Some(KeyError("number"))
      else None
  }

  /** Whether `setup_pins` stores 0 in each output pin it configures. */
  predicate Stamps(f: Frontend) {
    f != UnderscoreGui
  }

  /** An entry with its stored value set to 0. */
  function Zeroed(e: Entry): Entry {
    Entry(e.name, e.pin.(value := Some(0)))
  }

  /** `setup_pins`' loop from entry `from` on: stop at the first fault, stamp outputs on the way. */
  function SetupRunFrom(t: PinMappings, f: Frontend, from: nat): PinRun
    requires from <= |t|
    decreases |t| - from
  {
    if from == |t| then PinRun(t, Pass)
    else match PinFault(t[from], f)
      case Some(e) => PinRun(t, Fail(e))
      case None =>
        var t' := if Stamps(f) && t[from].pin.ioType == Some(Output) then t[from := Zeroed(t[from])] else t;
        SetupRunFrom(t', f, from + 1)
  }

  /** `setup_pins` of front end `f` on table `t`. */
  function SetupRun(t: PinMappings, f: Frontend): PinRun {
    SetupRunFrom(t, f, 0)
  }

  /** The first entry at or after `from` that `setup_pins` rejects. */
  function FirstFault(t: PinMappings, f: Frontend, from: nat): (r: Option<nat>)
    requires from <= |t|
    ensures r.Some? ==> from <= r.value < |t| && PinFault(t[r.value], f).Some?
    ensures r.Some? ==> forall j :: from <= j < r.value ==> PinFault(t[j], f).None?
    ensures r.None? ==> forall j :: from <= j < |t| ==> PinFault(t[j], f).None?
    decreases |t| - from
  {
    if from == |t| then None
    else if PinFault(t[from], f).Some? then Some(from)
    else FirstFault(t, f, from + 1)
  }

  lemma {:induction false} FirstFaultAgrees(t: PinMappings, u: PinMappings, f: Frontend, from: nat)
    requires from <= |t| == |u|
    requires forall j :: from <= j < |t| ==> PinFault(u[j], f) == PinFault(t[j], f)
    ensures FirstFault(u, f, from) == FirstFault(t, f, from)
    decreases |t| - from
  {
    if from < |t| {
      FirstFaultAgrees(t, u, f, from + 1);
    }
  }

  /** Where `setup_pins`' loop stops: the first rejected entry, or the end. */
  function Reach(t: PinMappings, f: Frontend, from: nat): (r: nat)
    requires from <= |t|
    ensures from <= r <= |t|
  {
    if FirstFault(t, f, from).Some? then FirstFault(t, f, from).value else |t|
  }

  /** An entry as `setup_pins` leaves it when its loop gets past it. */
  function SetUp(e: Entry, f: Frontend): Entry {
    if Stamps(f) && e.pin.ioType == Some(Output) then Zeroed(e) else e
  }

  /** The table with the entries at `lo` up to `hi` set up. */
  function SetUpBetween(t: PinMappings, f: Frontend, lo: nat, hi: nat): (r: PinMappings)
    requires lo <= hi <= |t|
    ensures |r| == |t| && forall j :: 0 <= j < |t| ==> r[j] == if lo <= j < hi then SetUp(t[j], f) else t[j]
  {
    seq(|t|, j requires 0 <= j < |t| => if lo <= j < hi then SetUp(t[j], f) else t[j])
  }

  /** What `setup_pins`' loop from `from` on should give: the closed form of `SetupRunFrom`. */
  function SetupShape(t: PinMappings, f: Frontend, from: nat): PinRun
    requires from <= |t|
  {
    PinRun(SetUpBetween(t, f, from, Reach(t, f, from)),
      if FirstFault(t, f, from).Some? then Fail(PinFault(t[Reach(t, f, from)], f).value) else Pass)
  }

  /** Setting up the entry at `from`, when it has no fault, moves the closed form on by one. */
  lemma SetupShapeStep(t: PinMappings, f: Frontend, from: nat)
    requires from < |t| && PinFault(t[from], f).None?
    ensures SetupShape(t[from := SetUp(t[from], f)], f, from + 1) == SetupShape(t, f, from)
  {
    var t' := t[from := SetUp(t[from], f)];
    FirstFaultAgrees(t, t', f, from + 1);
    assert Reach(t', f, from + 1) == Reach(t, f, from);
    var hi := Reach(t, f, from);
    assert SetUpBetween(t', f, from + 1, hi) == SetUpBetween(t, f, from, hi);
  }

  /**
   * `setup_pins` from `from` on raises the first fault's exception, if any;
   * the entries it got past are set up, and the others are as they were.
   */
  lemma {:induction false} SetupRunFromShape(t: PinMappings, f: Frontend, from: nat)
    requires from <= |t|
    ensures SetupRunFrom(t, f, from) == SetupShape(t, f, from)
    decreases |t| - from
  {
    if from == |t| {
      assert SetUpBetween(t, f, from, from) == t;
    } else if PinFault(t[from], f).None? {
      var t' := if Stamps(f) && t[from].pin.ioType == Some(Output) then t[from := Zeroed(t[from])] else t;
      assert t' == t[from := SetUp(t[from], f)];
      SetupRunFromShape(t', f, from + 1);
      SetupShapeStep(t, f, from);
    } else {
      assert SetUpBetween(t, f, from, from) == t;
    }
  }

  /**
   * `setup_pins` succeeds exactly when no entry has a fault; it then leaves
   * every entry set up, and otherwise raises the first fault's exception.
   */
  lemma SetupRunCases(t: PinMappings, f: Frontend)
    ensures SetupRun(t, f).outcome == Pass <==> forall j :: 0 <= j < |t| ==> PinFault(t[j], f).None?
    ensures SetupRun(t, f).outcome.Fail? ==>
      exists k :: 0 <= k < |t| && PinFault(t[k], f).Some? && SetupRun(t, f).outcome == Fail(PinFault(t[k], f).value)
        && forall j :: 0 <= j < k ==> PinFault(t[j], f).None?
    ensures |SetupRun(t, f).pins| == |t|
    ensures SetupRun(t, f).outcome == Pass ==>
      forall j :: 0 <= j < |t| ==> SetupRun(t, f).pins[j] == SetUp(t[j], f)
  {
    SetupRunFromShape(t, f, 0);
  }

  /** Every entry keeps its name, number and io type through `setup_pins`. */
  lemma SetupKeepsLayout(t: PinMappings, f: Frontend)
    ensures var u := SetupRun(t, f).pins;
      |u| == |t| && forall j :: 0 <= j < |t| ==>
        u[j].name == t[j].name && u[j].pin.number == t[j].pin.number && u[j].pin.ioType == t[j].pin.ioType
  {
    SetupRunFromShape(t, f, 0);
  }

  /** scripts/bioprintly_gui/pins.py's `setup_pins` only configures the hardware: the table is unchanged. */
  lemma UnderscoreSetupKeepsTable(t: PinMappings)
    ensures SetupRun(t, UnderscoreGui).pins == t
  {
    SetupRunFromShape(t, UnderscoreGui, 0);
  }

  /** Lookups on a table whose entries keep their names find the same position. */
  lemma SameLayoutLookup(t: PinMappings, u: PinMappings, name: string)
    requires |u| == |t| && forall j :: 0 <= j < |t| ==> u[j].name == t[j].name
    ensures IndexOf(u, name) == IndexOf(t, name)
  {
    SameNamesSameIndex(t, u, name, 0);
  }

  /** After a successful bioprintly-gui `setup_pins`, every output pin reads 0. */
  lemma HyphenSetupThenRead(t: PinMappings, name: string)
    requires SetupRun(t, HyphenGui).outcome == Pass
    requires OutputPin(t, name)
    ensures ReadStored(SetupRun(t, HyphenGui).pins, name) == Ok(0)
  {
    SetupRunCases(t, HyphenGui);
    SetupKeepsLayout(t, HyphenGui);
    SameLayoutLookup(t, SetupRun(t, HyphenGui).pins, name);
  }

  /**
   * After scripts/gui/pins.py's `setup_pins` every output holds the falsy 0,
   * so reading any output raises until a 1 is written to it.
   */
  lemma PlainSetupThenReadRaises(t: PinMappings, name: string)
    requires SetupRun(t, PlainGui).outcome == Pass
    requires OutputPin(t, name)
    ensures ReadTruthy(SetupRun(t, PlainGui).pins, name) == Err(MissingPinValue(name))
  {
    SetupRunCases(t, PlainGui);
    SetupKeepsLayout(t, PlainGui);
    SameLayoutLookup(t, SetupRun(t, PlainGui).pins, name);
  }

  /** scripts/gui/pins.py checks no pin number: an unmapped physical number passes its setup. */
  lemma PlainSetupIgnoresNumbers(name: string)
    ensures var t := [Entry(name, Pin(Some(99), Some(Output), None))];
      SetupRun(t, PlainGui).outcome == Pass && SetupRun(t, HyphenGui).outcome == Fail(UnknownPinNumber(99))
  {
    var t := [Entry(name, Pin(Some(99), Some(Output), None))];
    assert 99 !in PIN_NUMBERS;
    assert PinFault(t[0], PlainGui).None?;
    assert PinFault(t[0], HyphenGui) == Some(UnknownPinNumber(99));
    assert SetupRunFrom(t[0 := Zeroed(t[0])], PlainGui, 1) == PinRun(t[0 := Zeroed(t[0])], Pass);
  }

  /** The `setup_pins` loop as a method over a copy of the table. */
  method SetupLoop(t: PinMappings, f: Frontend) returns (pins: PinMappings, outcome: Outcome)
    ensures PinRun(pins, outcome) == SetupRun(t, f)
  {
    pins := t;
    var i := 0;
    while i < |pins|
      invariant 0 <= i <= |pins| == |t|
      invariant SetupRunFrom(pins, f, i) == SetupRun(t, f)
      decreases |pins| - i
    {
      var fault := PinFault(pins[i], f);
      if fault.Some? {
        return pins, Fail(fault.value);
      }
      if Stamps(f) && pins[i].pin.ioType == Some(Output) {
        pins := pins[i := Zeroed(pins[i])];
      }
      i := i + 1;
    }
    return pins, Pass;
  }

  // ---------------------------------------------------------------- writing 0 to every pin

  /** The labels of the table, in dictionary order. */
  function Names(t: PinMappings): (r: seq<string>)
    ensures |r| == |t| && forall j :: 0 <= j < |t| ==> r[j] == t[j].name
  {
    seq(|t|, j requires 0 <= j < |t| => t[j].name)
  }

  /** `write_pin(label, 0)` for each of `names` in turn, stopping at the first that raises. */
  function WriteZeros(t: PinMappings, names: seq<string>): PinRun
    decreases |names|
  {
    if |names| == 0 then PinRun(t, Pass)
    else match PinsAfterWrite(t, names[0], 0)
      case Err(e) => PinRun(t, Fail(e))
      case Ok(t') => WriteZeros(t', names[1..])
  }

  /** The table with its first `k` entries zeroed. */
  function ZeroedUpTo(t: PinMappings, k: nat): (r: PinMappings)
    ensures |r| == |t| && forall j :: 0 <= j < |t| ==> r[j] == if j < k then Zeroed(t[j]) else t[j]
  {
    seq(|t|, j requires 0 <= j < |t| => if j < k then Zeroed(t[j]) else t[j])
  }

  /** The first entry at or after `from` that is not an output pin. */
  function FirstNonOutput(t: PinMappings, from: nat): (r: Option<nat>)
    requires from <= |t|
    ensures r.Some? ==> from <= r.value < |t| && t[r.value].pin.ioType != Some(Output)
    ensures r.Some? ==> forall j :: from <= j < r.value ==> t[j].pin.ioType == Some(Output)
    ensures r.None? ==> forall j :: from <= j < |t| ==> t[j].pin.ioType == Some(Output)
    decreases |t| - from
  {
    if from == |t| then None
    else if t[from].pin.ioType != Some(Output) then Some(from)
    else FirstNonOutput(t, from + 1)
  }

  lemma {:induction false} WriteZerosFrom(t: PinMappings, from: nat)
    requires UniqueNames(t) && from <= |t|
    ensures WriteZeros(ZeroedUpTo(t, from), Names(t)[from..]) ==
      match FirstNonOutput(t, from)
      case None => PinRun(ZeroedPins(t), Pass)
      case Some(k) => PinRun(ZeroedUpTo(t, k), Fail(NotOutputPin(t[k].name)))
    decreases |t| - from
  {
    var u := ZeroedUpTo(t, from);
    if from == |t| {
      assert u == ZeroedPins(t);
    } else {
      var name := t[from].name;
      assert Names(t)[from..][0] == name;
      assert Names(t)[from..][1..] == Names(t)[from + 1..];
      assert IndexOf(u, name) == Some(from) by {
        IndexFromSkips(u, name, 0, from);
      }
      if t[from].pin.ioType == Some(Output) {
        assert u[from := Zeroed(u[from])] == ZeroedUpTo(t, from + 1);
        WriteZerosFrom(t, from + 1);
      }
    }
  }

  /**
   * `cleanup` / `zero_out_pins_and_exit`: writing 0 to every label succeeds
   * exactly when every pin is an output, and then zeroes the whole table; an
   * input (or any non-output) pin raises, after the pins before it were zeroed.
   */
  lemma CleanupCases(t: PinMappings)
    requires UniqueNames(t)
    ensures var r := WriteZeros(t, Names(t));
      && (r.outcome == Pass <==> forall j :: 0 <= j < |t| ==> t[j].pin.ioType == Some(Output))
      && (r.outcome == Pass ==> r.pins == ZeroedPins(t))
      && (r.outcome.Fail? ==>
            exists k :: 0 <= k < |t| && t[k].pin.ioType != Some(Output)
              && r == PinRun(ZeroedUpTo(t, k), Fail(NotOutputPin(t[k].name))))
  {
    assert ZeroedUpTo(t, 0) == t;
    assert Names(t)[0..] == Names(t);
    WriteZerosFrom(t, 0);
  }

  /** The cleanup loop as a method over a copy of the table. */
  method WriteZerosLoop(t: PinMappings) returns (pins: PinMappings, outcome: Outcome)
    ensures PinRun(pins, outcome) == WriteZeros(t, Names(t))
  {
    var names := Names(t);
    pins := t;
    var i := 0;
    while i < |names|
      invariant 0 <= i <= |names|
      invariant WriteZeros(pins, names[i..]) == WriteZeros(t, names)
      decreases |names| - i
    {
      assert names[i..][1..] == names[i + 1..];
      var written := PinsAfterWrite(pins, names[i], 0);
      if written.Err? {
        return pins, Fail(written.error);
      }
      pins := written.value;
      i := i + 1;
    }
    return pins, Pass;
  }

  // ---------------------------------------------------------------- a half-step

  /**
   * One half-step of the older `process_commands`: write 0 to the direction
   * pin, read the step pin, write it back flipped; stops at the first raise,
   * keeping what was already written.
   */
  function HalfStep(t: PinMappings, directionPin: string, stepPin: string): PinRun
  {
    match PinsAfterWrite(t, directionPin, 0)
    case Err(e) => PinRun(t, Fail(e))
    case Ok(t1) =>
      match ReadStored(t1, stepPin)
      case Err(e) => PinRun(t1, Fail(e))
      case Ok(level) =>
        match PinsAfterWrite(t1, stepPin, FlipBit(level))
        case Err(e) => PinRun(t1, Fail(e))
        case Ok(t2) => PinRun(t2, Pass)
  }

  /**
   * On two distinct output pins, the step pin holding a value, a half-step
   * succeeds, leaves the direction pin at 0, flips the step pin and changes
   * no other pin.
   */
  lemma HalfStepOnOutputs(t: PinMappings, directionPin: string, stepPin: string, other: string)
    requires OutputPin(t, directionPin) && OutputPin(t, stepPin) && directionPin != stepPin
    requires Lookup(t, stepPin).value.value.Some?
    ensures var r := HalfStep(t, directionPin, stepPin);
      && r.outcome == Pass
      && ReadStored(r.pins, directionPin) == Ok(0)
      && ReadStored(r.pins, stepPin) == Ok(FlipBit(Lookup(t, stepPin).value.value.value))
      && (other != directionPin && other != stepPin ==> Lookup(r.pins, other) == Lookup(t, other))
  {
    WriteOutcomes(t, directionPin, 0);
    var t1 := PinsAfterWrite(t, directionPin, 0).value;
    WriteLeavesOtherPins(t, directionPin, 0, stepPin);
    var level := Lookup(t, stepPin).value.value.value;
    assert ReadStored(t1, stepPin) == Ok(level);
    WriteOutcomes(t1, stepPin, FlipBit(level));
    var t2 := PinsAfterWrite(t1, stepPin, FlipBit(level)).value;
    ReadStoredAfterWrite(t1, stepPin, FlipBit(level));
    ReadStoredAfterWrite(t, directionPin, 0);
    WriteLeavesOtherPins(t1, stepPin, FlipBit(level), directionPin);
    if other != directionPin && other != stepPin {
      WriteLeavesOtherPins(t, directionPin, 0, other);
      WriteLeavesOtherPins(t1, stepPin, FlipBit(level), other);
    }
  }

  /** A half-step whose direction pin is not in the table raises at once and changes nothing. */
  lemma HalfStepWithoutDirectionPin(t: PinMappings, directionPin: string, stepPin: string)
    requires forall j :: 0 <= j < |t| ==> t[j].name != directionPin
    ensures HalfStep(t, directionPin, stepPin) == PinRun(t, Fail(UnknownPin(directionPin)))
  {
    LookupFindsName(t, directionPin);
    WriteOutcomes(t, directionPin, 0);
  }
}
