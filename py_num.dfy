/** The few Python numeric operators the scripts rely on, stated over exact reals. */
module PyNum {

  /** Python's `int(x)` on a float: truncation toward zero. */
  function Int(x: real): (r: int)
    ensures 0.0 <= x ==> r as real <= x < r as real + 1.0
    ensures x < 0.0 ==> r as real - 1.0 < x <= r as real
  {
    if 0.0 <= x then x.Floor else -((-x).Floor)
  }

  /** Python's `x % m` for a positive divisor: `x` minus the largest multiple of `m` not above it. */
  function FloatMod(x: real, m: real): (r: real)
    requires 0.0 < m
    ensures 0.0 <= r < m
    ensures x - r == m * (x / m).Floor as real
  {
    FloorScaled(x, m);
    x - m * (x / m).Floor as real
  }

  /** `m * floor(x / m)` is the largest multiple of `m` not above `x`. */
  lemma FloorScaled(x: real, m: real)
    requires 0.0 < m
    ensures m * (x / m).Floor as real <= x < m * (x / m).Floor as real + m
  {
    var q := x / m;
    var k := q.Floor as real;
    MulLe(m, k, q);
    MulLt(m, q, k + 1.0);
    Chain(x, m * q, m * (k + 1.0), m * k + m);
  }

  lemma MulLe(m: real, a: real, b: real)
    requires 0.0 < m && a <= b
    ensures m * a <= m * b
  {
  }

  lemma MulLt(m: real, a: real, b: real)
    requires 0.0 < m && a < b
    ensures m * a < m * b
  {
  }

  lemma Chain(a: real, b: real, c: real, d: real)
    requires a == b && b < c && c == d
    ensures a < d
  {
  }

  function Min(a: int, b: int): (r: int)
    ensures r <= a && r <= b && (r == a || r == b)
  {
    if a < b then a else b
  }

  function Max(a: int, b: int): (r: int)
    ensures a <= r && b <= r && (r == a || r == b)
  {
    if a < b then b else a
  }

  /**
   * `Max` again, on reals: Dafny has no generic ordering to share one
   * definition between `int` (the load shapes' users) and `real` (the
   * clamped prediction), so the two are kept side by side.
   */
  function MaxReal(a: real, b: real): (r: real)
    ensures a <= r && b <= r && (r == a || r == b)
  {
    if a < b then b else a
  }

  lemma FloorPlusOne(y: real)
    ensures (y + 1.0).Floor == y.Floor + 1
  {
    assert y.Floor as real + 1.0 <= y + 1.0 < (y.Floor + 1) as real + 1.0;
  }

  /** `FloatMod` takes the same value one period later. */
  lemma FloatModShift(x: real, m: real)
    requires 0.0 < m
    ensures FloatMod(x + m, m) == FloatMod(x, m)
  {
    assert (x + m) / m == x / m + 1.0 by {
      assert (x + m) / m == x / m + m / m;
    }
    FloorPlusOne(x / m);
    var k := (x / m).Floor as real;
    assert m * (k + 1.0) == m * k + m;
  }

  /** The floor is monotone. */
  lemma FloorMonotone(x: real, y: real)
    requires x <= y
    ensures x.Floor <= y.Floor
  {
  }
}
