/** C integer division and remainder. C truncates the quotient toward zero,
    while Dafny's `/` and `%` are Euclidean; only positive divisors occur in
    the round timer, so only those are modelled. The lemmas after them are
    the facts about Euclidean division the other modules lean on. */
module CArith {

  /** `a / b` as C computes it for `b > 0`. */
  function CDiv(a: int, b: int): (q: int)
    requires b > 0
    ensures a >= 0 ==> 0 <= a - b * q < b
    ensures a < 0 ==> -b < a - b * q <= 0
    ensures a >= 0 ==> q == a / b
  {
    if a >= 0 then a / b else -((-a) / b)
  }

  /** `a % b` as C computes it for `b > 0`: the sign follows the dividend. */
  function CMod(a: int, b: int): (r: int)
    requires b > 0
    ensures a == b * CDiv(a, b) + r
    ensures a >= 0 ==> 0 <= r < b && r == a % b
    ensures a < 0 ==> -b < r <= 0
  {
    a - b * CDiv(a, b)
  }

  /** Quotient and remainder are the only pair with `a == b * q + r` and
      `0 <= r < b`. */
  lemma ModUnique(a: int, b: int, q: int, r: int)
    requires b > 0 && 0 <= r < b && a == b * q + r
    ensures a % b == r && a / b == q
  {
    var q', r' := a / b, a % b;
    assert a == b * q' + r';
    var d := q - q';
    assert b * d == r' - r by {
      assert b * q - b * q' == b * d;
    }
    if d >= 1 {
      MulAtLeast(b, d);
    } else if d <= -1 {
      MulAtLeast(b, -d);
    }
  }

  lemma MulAtLeast(b: int, d: int)
    requires b > 0 && d >= 1
    ensures b * d >= b
  {
  }

  /** Dividing by `b` and then by `c` is dividing by `b * c`. */
  lemma DivDiv(x: int, b: int, c: int)
    requires x >= 0 && b > 0 && c > 0
    ensures (x / b) / c == x / (b * c)
  {
    var q, r := x / b, x % b;
    var q2, r2 := q / c, q % c;
    assert x == b * q + r;
    assert q == c * q2 + r2;
    Regroup(b, c, q, q2, r2);
    assert x == (b * c) * q2 + (b * r2 + r);
    assert b * r2 + r < b * c by {
      MulBelow(b, r2, c);
    }
    ModUnique(x, b * c, q2, b * r2 + r);
  }

  lemma Regroup(b: int, c: int, q: int, q2: int, r2: int)
    requires q == c * q2 + r2
    ensures b * q == (b * c) * q2 + b * r2
  {
  }

  lemma MulBelow(b: int, r2: int, c: int)
    requires b > 0 && 0 <= r2 < c
    ensures b * r2 + b <= b * c
  {
    assert b * c - b * r2 == b * (c - r2);
    MulAtLeast(b, c - r2);
  }
}
