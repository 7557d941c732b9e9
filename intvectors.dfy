/**
 * The engine's integer vectors.  `IntVector2` is the type of chunk
 * coordinates, and its `operator<` is the ordering of the map that holds
 * the active chunks; `IntVector3` is the type of local and global block
 * coordinates.  Arithmetic is on unbounded integers (see README).
 */
module IntVectors {

  datatype IntVector2 = IntVector2(x: int, y: int)

  datatype IntVector3 = IntVector3(x: int, y: int, z: int)

  /** `IntVector2::operator<`: decided on x first, ties broken on y. */
  function Less(a: IntVector2, b: IntVector2): (r: bool)
    ensures r <==> a.x < b.x || (a.x == b.x && a.y < b.y)
  {
    if a.x < b.x then true
    else if a.x > b.x then false
    else a.y < b.y
  }

  /** `IntVector2::operator==`: both components agree. */
  function Equal2(a: IntVector2, b: IntVector2): (r: bool)
    ensures r <==> a == b
  {
    a.x == b.x && a.y == b.y
  }

  /** `IntVector2::operator!=`, defined as the negation of `==`. */
  function NotEqual2(a: IntVector2, b: IntVector2): (r: bool)
    ensures r <==> a != b
  {
    !Equal2(a, b)
  }

  /** `IntVector2::operator-`. */
  function Sub2(a: IntVector2, b: IntVector2): IntVector2
  {
    IntVector2(a.x - b.x, a.y - b.y)
  }

  /** `IntVector3::operator+`. */
  function Add3(a: IntVector3, b: IntVector3): IntVector3
  {
    IntVector3(a.x + b.x, a.y + b.y, a.z + b.z)
  }

  /** `IntVector3::operator-`. */
  function Sub3(a: IntVector3, b: IntVector3): IntVector3
  {
    IntVector3(a.x - b.x, a.y - b.y, a.z - b.z)
  }

  /** `IntVector3::operator==`: all three components agree. */
  function Equal3(a: IntVector3, b: IntVector3): (r: bool)
    ensures r <==> a == b
  {
    a.x == b.x && a.y == b.y && a.z == b.z
  }

  /**
   * The default constructor value-initialises x and y but leaves z as
   * whatever was in memory; that leftover value is the parameter.
   */
  function DefaultIntVector3(leftoverZ: int): (v: IntVector3)
    ensures v.x == 0 && v.y == 0
    ensures v.z == leftoverZ
  {
    IntVector3(0, 0, leftoverZ)
  }

  /** Two default-constructed vectors need not be equal. */
  lemma DefaultIntVector3Unspecified()
    ensures !Equal3(DefaultIntVector3(0), DefaultIntVector3(1))
  {
  }

  /** `<` is irreflexive, transitive and trichotomous: a strict total order. */
  lemma LessIsStrictTotalOrder(a: IntVector2, b: IntVector2, c: IntVector2)
    ensures !Less(a, a)
    ensures Less(a, b) && Less(b, c) ==> Less(a, c)
    ensures Less(a, b) || Less(b, a) || Equal2(a, b)
    ensures !(Less(a, b) && Less(b, a))
    ensures Equal2(a, b) ==> !Less(a, b) && !Less(b, a)
  {
  }

  /** Subtracting the same vector from both sides does not change the order. */
  lemma LessTranslationInvariant(a: IntVector2, b: IntVector2, c: IntVector2)
    ensures Less(Sub2(a, c), Sub2(b, c)) <==> Less(a, b)
  {
  }

  /** The difference is zero exactly when the vectors are equal. */
  lemma Sub2ZeroIffEqual(a: IntVector2, b: IntVector2)
    ensures Sub2(a, b) == IntVector2(0, 0) <==> Equal2(a, b)
  {
  }

  /** `-` undoes `+`, and `+` is commutative. */
  lemma AddSub3Inverse(a: IntVector3, b: IntVector3)
    ensures Sub3(Add3(a, b), b) == a
    ensures Add3(Sub3(a, b), b) == a
    ensures Add3(a, b) == Add3(b, a)
  {
  }
}
