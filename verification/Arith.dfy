/** Facts of non-linear arithmetic that several modules need. */
module Arith {

  /** A non-zero multiple of `b` is at least `b` away from zero. */
  lemma MultipleIsFar(b: int, d: int)
    requires b > 0
    ensures d == 0 || b * d >= b || b * d <= -b
  {
    if d >= 1 {
      assert b * d == b + b * (d - 1);
    } else if d <= -1 {
      assert b * d == -b + b * (d + 1);
    }
  }

  lemma ModUnique(a: int, b: int, q: int, r: int)
    requires b > 0 && 0 <= r < b && a == b * q + r
    ensures a % b == r
  {
    var d := a / b - q;
    assert a == b * (a / b) + a % b;
    assert b * d == b * (a / b) - b * q;
    MultipleIsFar(b, d);
  }
}
