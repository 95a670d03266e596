/** Numeric helpers: the game keeps pixel coordinates as exact reals and truncates
    camera offsets the way Python's `int()` does. */
module Numeric {

  /** A real that is a whole number of pixels. */
  predicate Integral(x: real) {
    x.Floor as real == x
  }

  function Abs(x: real): (r: real)
    ensures 0.0 <= r && (r == x || r == -x)
  {
    if x < 0.0 then -x else x
  }

  /** Python's `int(x)` on a float: rounds toward zero, so a negative offset
      moves up to the next whole number and a positive one down. */
  function TruncToZero(x: real): (r: int)
    ensures 0.0 <= x ==> 0 <= r && r as real <= x < r as real + 1.0
    ensures x < 0.0 ==> r <= 0 && r as real - 1.0 < x <= r as real
    ensures Integral(x) ==> r as real == x
  {
    if 0.0 <= x then x.Floor
    else
      var whole := x.Floor;
      assert Integral(x) ==> -x == (-whole) as real;
      -((-x).Floor)
  }
}
