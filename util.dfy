/**
 * Small helpers of scripts/bioprintly/util.py, and the helpers the other
 * files import from it without util.py defining them (their meaning is the
 * one their names state).
 */
module Util {

  /** A binary pin level. */
  type Bit = b: int | 0 <= b <= 1

  function Abs(x: real): real { if x < 0.0 then -x else x }

  /** Python's `abs` on an integer. */
  function AbsInt(x: int): nat { if x < 0 then -x else x }

  /** `intersperse`: `item` between consecutive members of `list`. */
  function Intersperse<T>(list: seq<T>, item: T): (r: seq<T>)
    ensures |list| == 0 ==> r == []
    ensures |list| > 0 ==> |r| == 2 * |list| - 1
    ensures forall k :: 0 <= k < |r| ==> r[k] == if k % 2 == 0 then list[k / 2] else item
  {
    // [item] * (2n - 1), then the even positions overwritten by `list`
    if |list| == 0 then []
    else seq(2 * |list| - 1, k requires 0 <= k < 2 * |list| - 1 => if k % 2 == 0 then list[k / 2] else item)
  }

  /** An independent, recursive definition of interspersing: first, separator, rest. */
  function InterspersedRec<T>(list: seq<T>, item: T): seq<T>
    decreases |list|
  {
    if |list| <= 1 then list else [list[0], item] + InterspersedRec(list[1..], item)
  }

  /** The length of the recursive definition. */
  lemma {:induction false} InterspersedRecLength<T>(list: seq<T>, item: T)
    ensures |InterspersedRec(list, item)| == if |list| == 0 then 0 else 2 * |list| - 1
    decreases |list|
  {
    if |list| > 1 {
      InterspersedRecLength(list[1..], item);
    }
  }

  /** The recursive definition puts the members at the even positions and `item` at the odd ones. */
  lemma {:induction false} InterspersedRecAt<T>(list: seq<T>, item: T, k: nat)
    requires k < |InterspersedRec(list, item)|
    ensures k / 2 < |list|
    ensures InterspersedRec(list, item)[k] == if k % 2 == 0 then list[k / 2] else item
    decreases |list|
  {
    InterspersedRecLength(list, item);
    if |list| > 1 && k >= 2 {
      var t := InterspersedRec(list[1..], item);
      assert InterspersedRec(list, item)[k] == t[k - 2];
      InterspersedRecAt(list[1..], item, k - 2);
      assert (k - 2) % 2 == k % 2 && (k - 2) / 2 == k / 2 - 1;
    }
  }

  /** The slice-assignment construction agrees with the recursive definition. */
  lemma IntersperseIsInterspersedRec<T>(list: seq<T>, item: T)
    ensures Intersperse(list, item) == InterspersedRec(list, item)
  {
    InterspersedRecLength(list, item);
    var a, b := Intersperse(list, item), InterspersedRec(list, item);
    forall k | 0 <= k < |b| ensures a[k] == b[k] {
      InterspersedRecAt(list, item, k);
    }
  }

  /** A one-member list is returned unchanged. */
  lemma IntersperseSingleton<T>(x: T, item: T)
    ensures Intersperse([x], item) == [x]
  {
  }

  /** `set_value`: `dict[key] = value`, as a map update. */
  function SetValue<K, V>(dict: map<K, V>, key: K, value: V): (r: map<K, V>)
    ensures r.Keys == dict.Keys + {key}
    ensures r[key] == value
    ensures forall k :: k in dict && k != key ==> r[k] == dict[k]
  {
    dict[key := value]
  }

  /** `signum` (imported by gui_calibration.py, not defined in util.py): the sign of `x`. */
  function Signum(x: real): (r: int)
    ensures r == 1 <==> x > 0.0
    ensures r == -1 <==> x < 0.0
    ensures r == 0 <==> x == 0.0
  {
    if x > 0.0 then 1 else if x < 0.0 then -1 else 0
  }

  /**
   * `this_action_would_put_it_further_away_from_target_than_it_is_now`
   * (imported by gui_calibration.py, not defined in util.py): true when
   * moving `traveled` by `step` would leave it strictly farther from `required`.
   */
  predicate WouldMoveFurther(traveled: real, step: real, required: real)
  {
    Abs(traveled + step - required) > Abs(traveled - required)
  }

  /**
   * `direction` (imported by service.py, not defined in util.py): the level of
   * the direction pin for a signed step count; only the sign matters.
   */
  function Direction(rawSteps: int): Bit
  {
    if rawSteps < 0 then 1 else 0
  }

  /**
   * Step counts of opposite sign drive the direction pin to opposite levels.
   * This is a property of `Direction` as its name defines it; the helper
   * itself is not part of this model.
   */
  lemma DirectionOfOppositeSigns(a: int, b: int)
    requires a > 0 && b < 0
    ensures Direction(a) != Direction(b)
  {
  }

  /** The control loop's sleep, `max(0, interval - elapsed)`. */
  function SleepDuration(interval: int, elapsed: int): (r: int)
    ensures r >= 0
    ensures r == 0 || r == interval - elapsed
    ensures 0 <= elapsed && 0 <= interval ==> r <= interval
    ensures elapsed <= interval ==> r == interval - elapsed
  {
    if interval - elapsed > 0 then interval - elapsed else 0
  }
}
