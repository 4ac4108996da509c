/**
  The timeout schedule of the dice roller: `findTimeout` (src/index.tsx
  lines 36-44) and the wait-duration rule applied at every render
  (lines 82-84).
 */
module Timeouts {
  import opened Wrappers

  /** The base debounce wait, in milliseconds. */
  const DebounceTimeout: int := 1000

  /** One own property of a timeouts object: an integer key and its value. */
  datatype Entry = Entry(key: nat, value: int)

  /**
    A timeouts object, given as its entries in enumeration order. The
    array-index keys of a JavaScript object (integers below 2^32 - 1) are
    enumerated in ascending order (OrdinaryOwnPropertyKeys, section
    10.1.11.1 of ECMA-262), so a map with such keys is `KeySorted`.
   */
  type TimeoutsMap = seq<Entry>

  predicate KeySorted(m: TimeoutsMap) {
    forall i, j :: 0 <= i < j < |m| ==> m[i].key < m[j].key
  }

  /** Every value is at most the one after it. */
  predicate ValuesAscending(m: TimeoutsMap) {
    forall i, j :: 0 <= i < j < |m| ==> m[i].value <= m[j].value
  }

  predicate ValuesNonNegative(m: TimeoutsMap) {
    forall i :: 0 <= i < |m| ==> m[i].value >= 0
  }

  /**
    The position of the first entry whose value is not below `clickCount`,
    or `|m|` when every value is below it.
   */
  function FirstAtLeast(m: TimeoutsMap, clickCount: int): (j: nat)
    ensures j <= |m|
    ensures forall i :: 0 <= i < j ==> m[i].value < clickCount
    ensures j < |m| ==> m[j].value >= clickCount
  {
    if m == [] || m[0].value >= clickCount then 0
    else 1 + FirstAtLeast(m[1..], clickCount)
  }

  /**
    What `findTimeout` answers: the value of the entry just before the
    first entry whose value reaches `clickCount`, and 0 when there is no
    entry before it. The answer is 0 or one of the map's values, and a
    value taken from the map is always below `clickCount`.
   */
  function TimeoutFor(m: TimeoutsMap, clickCount: int): (t: int)
    ensures t == 0 || exists i :: 0 <= i < |m| && m[i].value == t && t < clickCount
  {
    var j := FirstAtLeast(m, clickCount);
    if j == 0 then 0 else m[j - 1].value
  }

  /**
    `findTimeout`: walk the entries in order, remember each value that is
    below `clickCount`, and return what was remembered at the first value
    that is not (or after the last entry).
   */
  method FindTimeout(timeouts: TimeoutsMap, clickCount: int) returns (timeout: int)
    ensures timeout == TimeoutFor(timeouts, clickCount)
  {
    timeout := 0;
    var i := 0;
    while i < |timeouts|
      invariant 0 <= i <= |timeouts|
      invariant forall k :: 0 <= k < i ==> timeouts[k].value < clickCount
      invariant timeout == if i == 0 then 0 else timeouts[i - 1].value
    {
      if timeouts[i].value < clickCount {
        timeout := timeouts[i].value;
      } else {
        return;
      }
      i := i + 1;
    }
  }

  /**
    The answer for a map in which the first `j` values are below
    `clickCount` and entry `j` (if any) is not: 0 when `j` is 0, otherwise
    the value of entry `j - 1`.
   */
  lemma TimeoutForStopsAt(m: TimeoutsMap, clickCount: int, j: nat)
    requires j <= |m|
    requires forall i :: 0 <= i < j ==> m[i].value < clickCount
    requires j < |m| ==> m[j].value >= clickCount
    ensures TimeoutFor(m, clickCount) == if j == 0 then 0 else m[j - 1].value
  {
  }

  /** An empty map, or one whose first value already reaches `clickCount`, gives 0. */
  lemma TimeoutForBeforeFirst(m: TimeoutsMap, clickCount: int)
    requires m == [] || m[0].value >= clickCount
    ensures TimeoutFor(m, clickCount) == 0
  {
  }

  /**
    When every value is below `clickCount` the answer is the value of the
    last entry, which in a `KeySorted` map is the one with the largest key.
   */
  lemma TimeoutForAllBelow(m: TimeoutsMap, clickCount: int)
    requires |m| > 0
    requires forall i :: 0 <= i < |m| ==> m[i].value < clickCount
    ensures TimeoutFor(m, clickCount) == m[|m| - 1].value
  {
  }

  /**
    For a schedule whose values are non-negative and ascending, more
    pending clicks never give a shorter timeout.
   */
  lemma TimeoutForMonotone(m: TimeoutsMap, c1: int, c2: int)
    requires ValuesAscending(m) && ValuesNonNegative(m)
    requires c1 <= c2
    ensures TimeoutFor(m, c1) <= TimeoutFor(m, c2)
  {
  }

  /** The schedule `{1: 1, 3: 3}`, worked through for every click count. */
  lemma ExampleSchedule()
    ensures var m := [Entry(1, 1), Entry(3, 3)];
      TimeoutFor(m, 0) == 0 && TimeoutFor(m, 1) == 0 &&
      TimeoutFor(m, 2) == 1 && TimeoutFor(m, 3) == 1 &&
      forall c :: c >= 4 ==> TimeoutFor(m, c) == 3
  {
  }

  /**
    The wait, in milliseconds, that a click schedules: the base wait when
    no timeouts map is configured, otherwise `findTimeout`'s answer in
    seconds. It is always a whole number of seconds, and never negative
    when the map's values are not.
   */
  function WaitDuration(timeouts: Option<TimeoutsMap>, clickCount: int): (ms: int)
    ensures timeouts.None? ==> ms == DebounceTimeout
    ensures ms % DebounceTimeout == 0
    ensures timeouts.Some? && ValuesNonNegative(timeouts.value) ==> ms >= 0
    ensures timeouts.Some? ==> ms == 0 || exists i ::
              0 <= i < |timeouts.value| && timeouts.value[i].value < clickCount &&
              ms == timeouts.value[i].value * DebounceTimeout
  {
    match timeouts
    case None => DebounceTimeout
    case Some(m) => TimeoutFor(m, clickCount) * DebounceTimeout
  }
}
