/** The integer helpers of the engine's math utilities. */
module MathUtils {

  import Bits

  function Min(a: int, b: int): int { if a < b then a else b }

  function Max(a: int, b: int): int { if a > b then a else b }

  /**
   * `ClampInt`: bounds that arrive reversed are swapped first, so the
   * result always lies between the smaller and the larger bound.
   */
  function ClampInt(inValue: int, min: int, max: int): (r: int)
    ensures Min(min, max) <= r <= Max(min, max)
    ensures Min(min, max) <= inValue <= Max(min, max) ==> r == inValue
    ensures inValue < Min(min, max) ==> r == Min(min, max)
    ensures inValue > Max(min, max) ==> r == Max(min, max)
  {
    var newMin := if min < max then min else max;
    var newMax := if max > min then max else min;
    if inValue < newMin then newMin
    else if inValue > newMax then newMax
    else inValue
  }

  /** Clamping twice is clamping once, and the order of the bounds does not matter. */
  lemma ClampIntIdempotent(v: int, lo: int, hi: int)
    ensures ClampInt(ClampInt(v, lo, hi), lo, hi) == ClampInt(v, lo, hi)
    ensures ClampInt(v, lo, hi) == ClampInt(v, hi, lo)
  {
  }

  /**
   * The `int` overload of `WrapNumberWithinCircularRange`, used for cycling
   * the HUD selection, the movement mode and the camera mode.  It only
   * terminates when maxValue > minValue: otherwise one of its loops steps
   * by a non-positive range forever.  The result is the representative of
   * inValue modulo the range that lies in [minValue, maxValue).
   */
  method WrapNumberWithinCircularRange(inValue: int, minValue: int, maxValue: int) returns (wrappedValue: int)
    requires minValue < maxValue
    ensures minValue <= wrappedValue < maxValue
    ensures wrappedValue == minValue + (inValue - minValue) % (maxValue - minValue)
    ensures minValue <= inValue < maxValue ==> wrappedValue == inValue
  {
    wrappedValue := inValue;
    var rangeSize := maxValue - minValue;
    ghost var turns := 0;

    while wrappedValue < minValue
      invariant wrappedValue == inValue + turns * rangeSize
      invariant inValue < minValue ==> wrappedValue < maxValue
      invariant inValue >= minValue ==> wrappedValue == inValue
      decreases minValue - wrappedValue
    {
      wrappedValue := wrappedValue + rangeSize;
      turns := turns + 1;
    }

    while wrappedValue >= maxValue
      invariant wrappedValue == inValue + turns * rangeSize
      invariant wrappedValue >= minValue
      decreases wrappedValue - minValue
    {
      wrappedValue := wrappedValue - rangeSize;
      turns := turns - 1;
    }

    ResidueOfShift(inValue - minValue, rangeSize, turns);
  }

  /** Adding a multiple of d and landing in [0, d) yields the remainder by d. */
  lemma ResidueOfShift(a: int, d: int, k: int)
    requires d > 0 && 0 <= a + k * d < d
    ensures a + k * d == a % d
  {
    assert a == d * -k + (a + k * d);
    Bits.DivModUnique(a, d, -k, a + k * d);
  }
}
