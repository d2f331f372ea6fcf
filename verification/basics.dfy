/** Small shared vocabulary: an optional value and the `max(lo, min(hi, x))`
    clamp that the engine and the analyzer both use for their settings. */
module Basics {

  /** An optional value; `None` stands for a Swift `nil` (or, for the
      analyzer's last beat time, for `Date.distantPast`). */
  datatype Option<+T> = None | Some(value: T)

  /** `max(lo, min(hi, x))` on integers. */
  function ClampInt(x: int, lo: int, hi: int): (r: int)
    requires lo <= hi
    ensures lo <= r <= hi
    ensures lo <= x <= hi ==> r == x
    ensures x < lo ==> r == lo
    ensures hi < x ==> r == hi
  {
    var m := if hi < x then hi else x;
    if m < lo then lo else m
  }

  /** `max(lo, min(hi, x))` on reals (Swift `Double`). */
  function ClampReal(x: real, lo: real, hi: real): (r: real)
    requires lo <= hi
    ensures lo <= r <= hi
    ensures lo <= x <= hi ==> r == x
    ensures x < lo ==> r == lo
    ensures hi < x ==> r == hi
  {
    var m := if hi < x then hi else x;
    if m < lo then lo else m
  }

  /** Sign rules for products of reals, which the solver does not find
      unaided. */
  lemma ProductSigns(a: real, b: real)
    requires b > 0.0
    ensures a > 0.0 ==> a * b > 0.0
    ensures a >= 0.0 ==> a * b >= 0.0
    ensures a * b > 0.0 ==> a > 0.0
    ensures a * b >= 0.0 ==> a >= 0.0
  {
  }

  lemma SquareNonNegative(a: real)
    ensures a * a >= 0.0
  {
    if a < 0.0 {
      assert a * a == (-a) * (-a);
      ProductSigns(-a, -a);
    } else if a > 0.0 {
      ProductSigns(a, a);
    }
  }

  /* The solver rewrites a square compared with a literal (`d * d > 0.0`)
     into a form that no longer matches `d * d` elsewhere, so the square
     facts below compare against a parameter and are proved through
     products of two distinct variables. */

  lemma ProductAbove(a: real, b: real, k: real)
    requires a > 0.0 && b > 0.0 && k <= 0.0
    ensures a * b > k
  {
  }

  /** A non-zero square exceeds every non-positive bound. */
  lemma SquareAbove(d: real, k: real)
    requires d != 0.0 && k <= 0.0
    ensures d * d > k
  {
    if d > 0.0 {
      ProductAbove(d, d, k);
    } else {
      ProductAbove(-d, -d, k);
      assert (-d) * (-d) == d * d;
    }
  }

  lemma ProductBelow(a: real, b: real, c: real)
    requires 0.0 <= a < b && c > 0.0
    ensures a * c < b * c
  {
  }

  /** Squaring is strictly increasing on the non-negative reals. */
  lemma SquareMonotonic(a: real, b: real)
    requires 0.0 <= a < b
    ensures a * a < b * b
  {
    if a == 0.0 {
      SquareAbove(b, a * a);
    } else {
      ProductBelow(a, b, a);
      ProductBelow(a, b, b);
      assert a * b == b * a;
    }
  }
}
