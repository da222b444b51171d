/** Rounding to decimals as Python's `round` does it on exact values: to the nearest, and to
    the even one of two. */
module Rounding {
  /** The nearest integer, and the even one of two. */
  function Nearest(x: real): (n: int)
    ensures n as real - 0.5 <= x <= n as real + 0.5
  {
    var below := x.Floor;
    var rest := x - below as real;
    if rest < 0.5 || (rest == 0.5 && below % 2 == 0) then below else below + 1
  }

  /** `n` is the whole number nearest to `x`, and the even one of two. */
  ghost predicate Closest(n: int, x: real) {
    && n as real - 0.5 <= x <= n as real + 0.5
    && (x == n as real - 0.5 || x == n as real + 0.5 ==> n % 2 == 0)
  }

  lemma ClosestIsOne(m: int, n: int, x: real)
    requires Closest(m, x) && Closest(n, x)
    ensures m == n
  {
    assert -1 <= m - n <= 1;
    assert m == n + 1 ==> x == n as real + 0.5;
    assert n == m + 1 ==> x == m as real + 0.5;
  }

  /** Python's `round` on a whole number of units. */
  lemma NearestIsClosest(n: int, x: real)
    ensures Closest(n, x) <==> n == Nearest(x)
  {
    assert Closest(Nearest(x), x);
    if Closest(n, x) { ClosestIsOne(n, Nearest(x), x); }
  }

  lemma NearestMonotone(x: real, y: real)
    requires x <= y
    ensures Nearest(x) <= Nearest(y)
  {
    if x.Floor < y.Floor {
      assert Nearest(x) <= x.Floor + 1 <= y.Floor <= Nearest(y);
    }
  }

  lemma NearestWhole(n: int)
    ensures Nearest(n as real) == n
  {
  }

  // ----- Ten decimals

  function Round10(x: real): real {
    Nearest(x * 10000000000.0) as real / 10000000000.0
  }

  /** `amount` is `x` to the nearest tenth decimal, and the even one of two. */
  ghost predicate ToTenth(amount: real, x: real) {
    var n := (amount * 10000000000.0).Floor;
    amount * 10000000000.0 == n as real && Closest(n, x * 10000000000.0)
  }

  lemma Round10IsToTenth(amount: real, x: real)
    ensures ToTenth(amount, x) <==> amount == Round10(x)
  {
    var n := Nearest(x * 10000000000.0);
    NearestIsClosest(n, x * 10000000000.0);
    NearestIsClosest((amount * 10000000000.0).Floor, x * 10000000000.0);
    hide Closest, Nearest;
    assert Round10(x) == n as real / 10000000000.0;
    assert (Round10(x) * 10000000000.0).Floor == n;
  }

  // ----- Six decimals

  /** The sixth decimal. */
  const MICRO := 0.000001

  function Micro(x: real): real {
    x * 1000000.0
  }

  function Yuan(n: int): real {
    n as real / 1000000.0
  }

  function Round6(x: real): real {
    Yuan(Nearest(Micro(x)))
  }

  /** No more than six decimals. */
  predicate Whole(x: real) {
    x == Round6(x)
  }

  /** `amount` is `x` to the nearest sixth decimal, and the even one of two. */
  ghost predicate ToSixth(amount: real, x: real) {
    var n := (amount * 1000000.0).Floor;
    amount * 1000000.0 == n as real && Closest(n, x * 1000000.0)
  }

  lemma Round6IsToSixth(amount: real, x: real)
    ensures ToSixth(amount, x) <==> amount == Round6(x)
  {
    var n := Nearest(x * 1000000.0);
    NearestIsClosest(n, x * 1000000.0);
    NearestIsClosest((amount * 1000000.0).Floor, x * 1000000.0);
    hide Closest, Nearest;
    assert Round6(x) == n as real / 1000000.0;
    assert (Round6(x) * 1000000.0).Floor == n;
  }

  lemma Round6Near(x: real)
    ensures x - MICRO / 2.0 <= Round6(x) <= x + MICRO / 2.0
  {
  }

  lemma YuanIsWhole(n: int)
    ensures Micro(Yuan(n)) == n as real && Round6(Yuan(n)) == Yuan(n)
  {
    NearestWhole(n);
  }

  lemma Round6IsWhole(x: real)
    ensures Whole(Round6(x))
  {
    YuanIsWhole(Nearest(Micro(x)));
  }

  /** Sums and differences of whole amounts are exact. */
  lemma WholeSum(x: real, y: real)
    requires Whole(x) && Whole(y)
    ensures Whole(x + y) && Whole(x - y) && Whole(-x)
  {
    var m, n := Nearest(Micro(x)), Nearest(Micro(y));
    YuanIsWhole(m + n);
    YuanIsWhole(m - n);
    YuanIsWhole(-m);
    assert x + y == Yuan(m + n) && x - y == Yuan(m - n) && -x == Yuan(-m);
  }
}
