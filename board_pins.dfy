/**
 * The fixed pin dictionary of scripts/bioprintly_gui/pins.py and
 * scripts/gui/pins.py: the two rotator pins on header pins 3 and 5 and an
 * `unused<n>` output on every other valid header pin, in increasing order.
 * The two files differ only in the stored values: 0 in the first, no
 * `value` key in the second.
 */
module BoardPins {
  import opened Wrappers
  import opened Util
  import opened Pins
  import opened LegacyPins

  const BOARD_LABELS: seq<string> := [
    "rotator_step", "rotator_direction", "unused7", "unused8", "unused10", "unused11",
    "unused12", "unused13", "unused15", "unused16", "unused18", "unused19", "unused21",
    "unused22", "unused23", "unused24", "unused26", "unused29", "unused31", "unused32",
    "unused33", "unused35", "unused36", "unused37", "unused38", "unused40"]

  const BOARD_NUMBERS: seq<int> := [
    3, 5, 7, 8, 10, 11, 12, 13, 15, 16, 18, 19, 21, 22, 23, 24, 26, 29, 31, 32,
    33, 35, 36, 37, 38, 40]

  /**
   * What the front ends' code relies on in the board: the labels are unique
   * and each names an output on a valid header pin. Writes keep it so.
   */
  ghost predicate WellFormedBoard(t: PinMappings) {
    && UniqueNames(t)
    && forall j :: 0 <= j < |t| ==>
      t[j].pin.number.Some? && t[j].pin.number.value in PIN_NUMBERS && t[j].pin.ioType == Some(Output)
  }

  lemma LabelsDistinct()
    ensures forall i, j :: 0 <= i < j < |BOARD_LABELS| ==> BOARD_LABELS[i] != BOARD_LABELS[j]
  {
  }

  /** The literal's numbers are exactly the valid header pins: it maps every one of them. */
  lemma NumbersAreHeader()
    ensures |BOARD_NUMBERS| == |BOARD_LABELS|
    ensures forall j :: 0 <= j < |BOARD_NUMBERS| ==> BOARD_NUMBERS[j] in PIN_NUMBERS
    ensures forall n :: n in PIN_NUMBERS ==> n in BOARD_NUMBERS
  {
  }

  /** The numbers increase along the table, so no two labels share one. */
  lemma NumbersIncrease()
    ensures forall i, j :: 0 <= i < j < |BOARD_NUMBERS| ==> BOARD_NUMBERS[i] < BOARD_NUMBERS[j]
  {
    assert forall i :: 0 <= i < |BOARD_NUMBERS| - 1 ==> BOARD_NUMBERS[i] < BOARD_NUMBERS[i + 1];
    IncreasingByStep(BOARD_NUMBERS);
  }

  lemma {:induction false} IncreasingByStep(s: seq<int>)
    requires forall i :: 0 <= i < |s| - 1 ==> s[i] < s[i + 1]
    ensures forall i, j :: 0 <= i < j < |s| ==> s[i] < s[j]
    decreases |s|
  {
    if |s| > 1 {
      var r := s[1..];
      assert forall i :: 0 <= i < |r| - 1 ==> r[i] < r[i + 1] by {
        forall i | 0 <= i < |r| - 1
          ensures r[i] < r[i + 1]
        {
          assert r[i] == s[i + 1] && r[i + 1] == s[i + 2];
        }
      }
      IncreasingByStep(r);
      forall i, j | 0 <= i < j < |s|
        ensures s[i] < s[j]
      {
        if i == 0 {
          if j > 1 {
            assert r[0] < r[j - 1];
          }
        } else {
          assert r[i - 1] < r[j - 1];
        }
      }
    }
  }

  /** The table built from a list of labels and one of numbers: each label an output on its number. */
  function TableOf(labels: seq<string>, numbers: seq<int>, value: Option<Bit>): (r: PinMappings)
    requires |labels| == |numbers|
    ensures |r| == |labels|
    ensures forall j :: 0 <= j < |r| ==> r[j] == Entry(labels[j], Pin(Some(numbers[j]), Some(Output), value))
  {
    seq(|labels|, j requires 0 <= j < |labels| => Entry(labels[j], Pin(Some(numbers[j]), Some(Output), value)))
  }

  lemma TableOfWellFormed(labels: seq<string>, numbers: seq<int>, value: Option<Bit>)
    requires |labels| == |numbers|
    requires forall i, j :: 0 <= i < j < |labels| ==> labels[i] != labels[j]
    requires forall j :: 0 <= j < |numbers| ==> numbers[j] in PIN_NUMBERS
    ensures WellFormedBoard(TableOf(labels, numbers, value))
  {
  }

  /** The dictionary literal, every output holding `value` (`None`: no `value` key). */
  function BoardTable(value: Option<Bit>): PinMappings {
    TableOf(BOARD_LABELS, BOARD_NUMBERS, value)
  }

  /** The literal is well formed, and every output in it holds `value`. */
  lemma BoardTableWellFormed(value: Option<Bit>)
    ensures WellFormedBoard(BoardTable(value))
    ensures |BoardTable(value)| == 26
    ensures forall j :: 0 <= j < |BoardTable(value)| ==> BoardTable(value)[j].pin.value == value
  {
    LabelsDistinct();
    NumbersAreHeader();
    TableOfWellFormed(BOARD_LABELS, BOARD_NUMBERS, value);
  }

  /** Both rotator pins are outputs of the literal, at its first two places. */
  lemma BoardTableRotatorPins(value: Option<Bit>)
    ensures OutputPin(BoardTable(value), "rotator_step") && OutputPin(BoardTable(value), "rotator_direction")
    ensures Lookup(BoardTable(value), "rotator_step").value.value == value
  {
    var t := BoardTable(value);
    assert t[0] == Entry("rotator_step", Pin(Some(3), Some(Output), value));
    assert t[1] == Entry("rotator_direction", Pin(Some(5), Some(Output), value));
    assert IndexOf(t, "rotator_step") == Some(0);
    assert IndexOf(t, "rotator_direction") == Some(1) by {
      IndexFromSkips(t, "rotator_direction", 0, 1);
    }
  }

  /** No two labels of the literal share a header pin. */
  lemma BoardTableNumbersDistinct(value: Option<Bit>)
    ensures var t := BoardTable(value);
      forall i, j :: 0 <= i < j < |t| ==> t[i].pin.number != t[j].pin.number
  {
    NumbersIncrease();
    var t := BoardTable(value);
    forall i, j | 0 <= i < j < |t|
      ensures t[i].pin.number != t[j].pin.number
    {
      assert BOARD_NUMBERS[i] < BOARD_NUMBERS[j];
    }
  }

  /** A table built from a list of numbers carries a label on each number in it. */
  lemma TableOfCovers(labels: seq<string>, numbers: seq<int>, value: Option<Bit>, ns: set<int>)
    requires |labels| == |numbers|
    requires forall n :: n in ns ==> n in numbers
    ensures var t := TableOf(labels, numbers, value);
      forall n :: n in ns ==> exists j :: 0 <= j < |t| && t[j].pin.number == Some(n)
  {
    var t := TableOf(labels, numbers, value);
    forall n | n in ns
      ensures exists j :: 0 <= j < |t| && t[j].pin.number == Some(n)
    {
      var j :| 0 <= j < |numbers| && numbers[j] == n;
      assert t[j].pin.number == Some(n);
    }
  }

  /** Every valid header pin carries a label of `t`. */
  ghost predicate CoversHeader(t: PinMappings) {
    forall n :: n in PIN_NUMBERS ==> exists j :: 0 <= j < |t| && t[j].pin.number == Some(n)
  }

  /** The literal maps every valid header pin. */
  lemma BoardTableCoversHeader(value: Option<Bit>)
    ensures CoversHeader(BoardTable(value))
  {
    NumbersAreHeader();
    TableOfCovers(BOARD_LABELS, BOARD_NUMBERS, value, PIN_NUMBERS);
    assert CoversHeader(TableOf(BOARD_LABELS, BOARD_NUMBERS, value));
  }

  /** A write keeps the board well formed. */
  lemma WriteKeepsWellFormed(t: PinMappings, name: string, value: Bit)
    requires WellFormedBoard(t) && PinsAfterWrite(t, name, value).Ok?
    ensures WellFormedBoard(PinsAfterWrite(t, name, value).value)
  {
    WriteShape(t, name, value);
  }

  /**
   * A well-formed board passes every front end's `setup_pins` (scripts/bioprintly_gui's
   * also wants a stored value in each pin); the stamping front ends leave every pin at 0.
   */
  lemma SetupOnBoard(t: PinMappings, f: Frontend)
    requires WellFormedBoard(t)
    requires f == UnderscoreGui ==> forall j :: 0 <= j < |t| ==> t[j].pin.value.Some?
    ensures SetupRun(t, f).outcome == Pass
    ensures SetupRun(t, f).pins == if Stamps(f) then ZeroedPins(t) else t
  {
    SetupRunCases(t, f);
    var u := SetupRun(t, f).pins;
    if Stamps(f) {
      assert forall j :: 0 <= j < |t| ==> u[j] == ZeroedPins(t)[j];
    } else {
      assert forall j :: 0 <= j < |t| ==> u[j] == t[j];
    }
  }

  /** `cleanup` on a well-formed board succeeds and leaves every pin at 0. */
  lemma CleanupOnBoard(t: PinMappings)
    requires WellFormedBoard(t)
    ensures WriteZeros(t, Names(t)) == PinRun(ZeroedPins(t), Pass)
    ensures WellFormedBoard(ZeroedPins(t))
  {
    CleanupCases(t);
  }

  /** Zeroing the values keeps every output pin an output. */
  lemma ZeroedKeepsOutputs(t: PinMappings, name: string)
    ensures OutputPin(ZeroedPins(t), name) == OutputPin(t, name)
  {
    SameLayoutLookup(t, ZeroedPins(t), name);
  }
}
