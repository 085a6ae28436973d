/** Facts about multiplication and Euclidean division that the solver does not find unaided. */
module Arith {

  /** A positive multiple of `s` is at least `s`. */
  lemma {:induction false} MultipleAtLeast(d: nat, s: nat)
    requires 1 <= d
    ensures d * s >= s
  {
    if d > 1 {
      MultipleAtLeast(d - 1, s);
      assert d * s == (d - 1) * s + s;
    }
  }

  /** Quotient and remainder are the only ones: `a == q * s + r` with `0 <= r < s` fixes both. */
  lemma DivModUnique(a: int, s: int, q: int, r: int)
    requires 0 < s && a == q * s + r && 0 <= r < s
    ensures a / s == q && a % s == r
  {
    var q0, r0 := a / s, a % s;
    assert a == q0 * s + r0 && 0 <= r0 < s;
    if q0 < q {
      var d := q - q0;
      assert q * s == q0 * s + d * s;
      MultipleAtLeast(d, s);
    } else if q < q0 {
      var d := q0 - q;
      assert q0 * s == q * s + d * s;
      MultipleAtLeast(d, s);
    }
  }

  /** Taking one element of width `w` off `n` elements leaves `n - 1` of them. */
  lemma PeelOne(w: nat, n: nat)
    requires 1 <= n
    ensures w * n == w * (n - 1) + w && 0 <= w * (n - 1)
  {
  }

  /** A multiple of `d * e` is a multiple of `d`, with `e` times as many units. */
  lemma MultipleOfFactor(a: nat, d: nat, e: nat)
    requires 0 < d && 0 < e && a % (d * e) == 0
    ensures a % d == 0 && a / d == e * (a / (d * e))
  {
    var q := a / (d * e);
    assert a == q * (d * e);
    assert a == (e * q) * d;
    DivModUnique(a, d, e * q, 0);
  }
}
