/** Java's 32-bit `int` on top of Dafny's unbounded integers. */
module JavaInts {
  /** `Integer.MIN_VALUE` and `Integer.MAX_VALUE`. */
  const INTEGER_MIN_VALUE: int := -0x8000_0000
  const INTEGER_MAX_VALUE: int := 0x7fff_ffff

  /** A Java `int` value. */
  newtype Int32 = x: int | -0x8000_0000 <= x <= 0x7fff_ffff

  predicate IsInt32(x: int) {
    INTEGER_MIN_VALUE <= x <= INTEGER_MAX_VALUE
  }

  /** `x` as a Java `int`: two's-complement wrap-around to 32 bits. */
  function ToInt32(x: int): (r: int)
    ensures IsInt32(r)
    ensures (r - x) % 0x1_0000_0000 == 0
    ensures IsInt32(x) ==> r == x
  {
    (x + 0x8000_0000) % 0x1_0000_0000 - 0x8000_0000
  }

  /** The only Java `int` congruent to `x` modulo 2^32 is `ToInt32(x)`. */
  lemma ToInt32Unique(x: int, r: int)
    requires IsInt32(r) && (r - x) % 0x1_0000_0000 == 0
    ensures ToInt32(x) == r
  {
    var k := (r - x) / 0x1_0000_0000;
    assert x + 0x8000_0000 == (r + 0x8000_0000) - 0x1_0000_0000 * k;
    ModOfShift(r + 0x8000_0000, k);
  }

  lemma ModOfShift(a: int, k: int)
    requires 0 <= a < 0x1_0000_0000
    ensures (a - 0x1_0000_0000 * k) % 0x1_0000_0000 == a
  {
    var b := a - 0x1_0000_0000 * k;
    var q := b / 0x1_0000_0000;
    assert b == 0x1_0000_0000 * q + b % 0x1_0000_0000;
    assert a - b % 0x1_0000_0000 == 0x1_0000_0000 * (q + k);
  }

  /**
   * Adding to a running `int` sum: wrapping after every addition gives what
   * wrapping the exact sum once gives.
   */
  lemma {:induction false} ToInt32OfSum(x: int, d: int)
    ensures ToInt32(ToInt32(x) + d) == ToInt32(x + d)
  {
    var r := ToInt32(x + d);
    var a := (r - (x + d)) / 0x1_0000_0000;
    var b := (ToInt32(x) - x) / 0x1_0000_0000;
    assert r - (x + d) == 0x1_0000_0000 * a;
    assert ToInt32(x) - x == 0x1_0000_0000 * b;
    assert r - (ToInt32(x) + d) == 0x1_0000_0000 * (a - b);
    assert (0x1_0000_0000 * (a - b)) % 0x1_0000_0000 == 0;
    ToInt32Unique(ToInt32(x) + d, r);
  }

  /** Java's `int` addition `a + b`: the exact sum, wrapped once if it leaves the range. */
  function AddInt32(a: Int32, b: Int32): (r: Int32)
    ensures IsInt32(a as int + b as int) ==> r as int == a as int + b as int
    ensures r as int == a as int + b as int
         || r as int == a as int + b as int - 0x1_0000_0000
         || r as int == a as int + b as int + 0x1_0000_0000
  {
    var sum := a as int + b as int;
    if sum > INTEGER_MAX_VALUE then (sum - 0x1_0000_0000) as Int32
    else if sum < INTEGER_MIN_VALUE then (sum + 0x1_0000_0000) as Int32
    else sum as Int32
  }

  /** `int` addition is the exact sum wrapped to 32 bits. */
  lemma AddInt32IsWrappedSum(a: Int32, b: Int32)
    ensures AddInt32(a, b) as int == ToInt32(a as int + b as int)
  {
    var sum := a as int + b as int;
    var r := AddInt32(a, b) as int;
    assert r - sum == 0 || r - sum == -0x1_0000_0000 || r - sum == 0x1_0000_0000;
    ToInt32Unique(sum, r);
  }
}
