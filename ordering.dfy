/**
 * Orderings on 64-bit timestamps: `Long.compare`, on which `compareTo` of a
 * repeat task is built, and the position of a smallest key, which is what the
 * head (`peek`) of a `java.util.PriorityQueue` ordered by that key holds.
 */
module Ordering {

  /** `Long.compare(x, y)`: negative, zero or positive as x is below, equal to or above y. */
  function Compare(x: int, y: int): (r: int)
    ensures r < 0 <==> x < y
    ensures r == 0 <==> x == y
    ensures r > 0 <==> x > y
  {
    if x < y then -1 else if x == y then 0 else 1
  }

  /** The comparison is antisymmetric and transitive, as `Comparable` requires. */
  lemma CompareIsOrder(x: int, y: int, z: int)
    ensures Compare(x, y) < 0 <==> Compare(y, x) > 0
    ensures Compare(x, y) == 0 <==> Compare(y, x) == 0
    ensures Compare(x, y) <= 0 && Compare(y, z) <= 0 ==> Compare(x, z) <= 0
  {
  }

  /**
   * The index of a smallest key: the first one, so that the choice is
   * deterministic. Which of several equal keys a heap hands out is not
   * specified, so callers promise only that they take some smallest key.
   */
  function ArgMin(keys: seq<int>): (i: nat)
    requires |keys| > 0
    ensures i < |keys|
    ensures forall j :: 0 <= j < |keys| ==> keys[i] <= keys[j]
  {
    if |keys| == 1 then 0
    else
      var k := ArgMin(keys[1..]);
      if keys[0] <= keys[1 + k] then 0 else 1 + k
  }
}
