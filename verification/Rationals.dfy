/** Banker's rounding of rationals (`EvaluateBig`, `Round`). A rational is a numerator over a
    positive denominator, not necessarily in lowest terms. */
module Rationals {
  import opened MachineInts

  /** `big.Int.Quo` and `Rem`: division truncated toward zero, for a positive divisor. */
  function Quo(n: int, m: int): int
    requires m > 0
  {
    if n >= 0 then n / m else -(-n / m)
  }

  function Rem(n: int, m: int): int
    requires m > 0
  {
    n - m * Quo(n, m)
  }

  /** `r` is the integer nearest to `n / m`, the even one of the two in case of a tie. */
  ghost predicate NearestEven(n: int, m: int, r: int)
    requires m > 0
  {
    2 * Abs(r * m - n) <= m && (2 * Abs(r * m - n) == m ==> r % 2 == 0)
  }

  lemma MulAtLeast(m: int, k: int)
    requires m > 0
    ensures k >= 1 ==> m * k >= m
    ensures k <= -1 ==> m * k <= -m
  {
    if k >= 1 {
      assert m * k == m * (k - 1) + m;
    } else if k <= -1 {
      assert m * k == m * (k + 1) - m;
    }
  }

  lemma EuclidUnique(m: int, q: int, r: int, q': int, r': int)
    requires m > 0 && m * q + r == m * q' + r' && 0 <= r < m && 0 <= r' < m
    ensures q == q' && r == r'
  {
    assert m * (q - q') == m * q - m * q';
    MulAtLeast(m, q - q');
  }

  lemma DivUnique(x: int, m: int, q: int, r: int)
    requires m > 0 && x == m * q + r && 0 <= r < m
    ensures x / m == q && x % m == r
  {
    EuclidUnique(m, q, r, x / m, x % m);
  }

  /** The first digit after the point, for a non-negative numerator. */
  lemma FirstDigit(n: int, m: int)
    requires n >= 0 && m > 0
    ensures 10 * n / m - 10 * (n / m) == 10 * (n % m) / m
    ensures 10 * n % m == 10 * (n % m) % m
  {
    var d, rem := n / m, n % m;
    var e, f := 10 * rem / m, 10 * rem % m;
    assert n == m * d + rem && 10 * rem == m * e + f;
    assert 10 * n == m * (10 * d + e) + f;
    DivUnique(10 * n, m, 10 * d + e, f);
  }

  lemma DigitBounds(rem: int, m: int, e: int, f: int)
    requires 0 <= rem < m && 10 * rem == m * e + f && 0 <= f < m
    ensures 0 <= e <= 9
    ensures e >= 5 <==> 2 * rem >= m
    ensures e == 5 && f == 0 <==> 2 * rem == m
  {
    MulAtLeast(m, e);
    MulAtLeast(m, e - 9);
    MulAtLeast(m, e - 5);
    assert m * (e - 9) == m * e - 9 * m && m * (e - 5) == m * e - 5 * m;
  }

  /** The rounding decision for a non-negative numerator `m * d + rem`. */
  lemma RoundUpRight(m: int, d: int, rem: int)
    requires m > 0 && d >= 0 && 0 <= rem < m
    ensures 2 * rem == m ==> NearestEven(m * d + rem, m, d + d % 2)
    ensures 2 * rem > m ==> NearestEven(m * d + rem, m, d + 1)
    ensures 2 * rem < m ==> NearestEven(m * d + rem, m, d)
  {
    assert (d + 1) * m == m * d + m;
    if d % 2 == 0 {
      assert d + d % 2 == d;
    } else {
      assert d + d % 2 == d + 1;
    }
  }

  /** Rounding is odd: negating the rational negates its rounding. */
  lemma NearestEvenOdd(n: int, m: int, r: int)
    requires m > 0
    ensures NearestEven(n, m, r) <==> NearestEven(-n, m, -r)
  {
    assert (-r) * m == -(r * m);
  }

  /** `EvaluateBig`: rounds by looking at the first digit of the remainder. */
  method EvaluateBig(num: int, denom: int) returns (d: int)
    requires denom > 0
    ensures NearestEven(num, denom, d)
  {
    d := Quo(num, denom);
    var rem := Rem(num, denom);
    if rem == 0 {
      return;
    }
    var tenNum := num * 10;
    var remainderDigit := Quo(tenNum, denom) - d * 10;
    var isFinalDigit := Rem(tenNum, denom) == 0;
    DigitDecides(num, denom);
    if isFinalDigit && (remainderDigit == 5 || remainderDigit == -5) {
      d := d + Rem(d, 2);
    } else if remainderDigit >= 5 {
      d := d + 1;
    } else if remainderDigit <= -5 {
      d := d - 1;
    }
  }

  /** The value that the digit test selects. */
  function Chosen(num: int, denom: int): int
    requires denom > 0
  {
    var d := Quo(num, denom);
    var digit := Quo(num * 10, denom) - d * 10;
    if Rem(num * 10, denom) == 0 && (digit == 5 || digit == -5) then d + Rem(d, 2)
    else if digit >= 5 then d + 1
    else if digit <= -5 then d - 1
    else d
  }

  lemma DigitDecides(num: int, denom: int)
    requires denom > 0
    ensures NearestEven(num, denom, Chosen(num, denom))
  {
    ChosenPositive(Abs(num), denom);
    if num < 0 {
      ChosenOdd(num, denom);
      NearestEvenOdd(-num, denom, Chosen(-num, denom));
    }
  }

  /** The quantities computed by `EvaluateBig`, for a non-negative numerator. */
  lemma Ingredients(n: int, m: int)
    requires n >= 0 && m > 0
    ensures Quo(n, m) == n / m >= 0
    ensures Quo(n * 10, m) - Quo(n, m) * 10 == 10 * (n % m) / m
    ensures Rem(n * 10, m) == 10 * (n % m) % m
  {
    FirstDigit(n, m);
    assert n * 10 == 10 * n;
  }

  lemma ChosenPositive(n: int, m: int)
    requires n >= 0 && m > 0
    ensures NearestEven(n, m, Chosen(n, m))
  {
    Ingredients(n, m);
    var d, rem := n / m, n % m;
    Decide(n, m, d, rem, 10 * rem / m, 10 * rem % m);
  }

  /** The digit test, with the digit `e` and the rest `f` given. */
  lemma Decide(n: int, m: int, d: int, rem: int, e: int, f: int)
    requires m > 0 && d >= 0 && n == m * d + rem && 0 <= rem < m && 10 * rem == m * e + f && 0 <= f < m
    ensures NearestEven(n, m,
              if f == 0 && (e == 5 || e == -5) then d + Rem(d,
                    2) else if e >= 5 then d + 1 else if e <= -5 then d - 1 else d)
  {
    DigitBounds(rem, m, e, f);
    RoundUpRight(m, d, rem);
    assert Rem(d, 2) == d % 2;
  }

  lemma ChosenOdd(num: int, denom: int)
    requires denom > 0
    ensures Chosen(-num, denom) == -Chosen(num, denom)
  {
    QuoOdd(num, denom);
    QuoOdd(num * 10, denom);
    QuoOdd(Quo(num, denom), 2);
    assert (-num) * 10 == -(num * 10);
  }

  lemma QuoOdd(n: int, m: int)
    requires m > 0
    ensures Quo(-n, m) == -Quo(n, m) && Rem(-n, m) == -Rem(n, m)
  {
    assert m * -Quo(n, m) == -(m * Quo(n, m));
  }

  // ---------------------------------------------------------------------------------------------
  // What rounding to nearest means

  /** The rounding of a rational is unique, also across different representations of it. */
  lemma NearestEvenUnique(n: int, m: int, r: int, n': int, m': int, r': int)
    requires m > 0 && m' > 0 && NearestEven(n, m, r) && NearestEven(n', m', r')
    requires n * m' == n' * m
    ensures r == r'
  {
    NearestEvenMonotone(n, m, r, n', m', r');
    NearestEvenMonotone(n', m', r', n, m, r);
  }

  /** Rounding is monotone: if `n/m <= n'/m'`, the roundings are in the same order. The bounds below
      leave only `r == r' + 1` with two ties, which would both have rounded to even integers. */
  lemma NearestEvenMonotone(n: int, m: int, r: int, n': int, m': int, r': int)
    requires m > 0 && m' > 0 && NearestEven(n, m, r) && NearestEven(n', m', r')
    requires n * m' <= n' * m
    ensures r <= r'
  {
    var a, d := (2 * r - 1) * m, (2 * r' + 1) * m';
    OddMultiple(r, m);
    OddMultiple(r', m');
    assert (2 * n) * m' == 2 * (n * m') && (2 * n') * m == 2 * (n' * m);
    CrossBound(a, 2 * n, 2 * n', d, m, m');
    CancelBoth(2 * r - 1, 2 * r' + 1, m, m');
  }

  lemma OddMultiple(r: int, m: int)
    ensures (2 * r - 1) * m == 2 * (r * m) - m
    ensures (2 * r + 1) * m == 2 * (r * m) + m
  {
  }

  lemma CancelBoth(p: int, q: int, m: int, m': int)
    requires m > 0 && m' > 0 && (p * m) * m' <= (q * m') * m
    ensures p <= q
    ensures p == q ==> (p * m) * m' == (q * m') * m
  {
    MulAtLeast(m, m');
    MulAssoc(p, m, m');
    MulAssoc(q, m', m);
    assert m' * m == m * m';
    MulOrder(p, q, m * m');
  }

  lemma CrossBound(a: int, b: int, c: int, d: int, m: int, m': int)
    requires m > 0 && m' > 0 && a <= b && b * m' <= c * m && c <= d
    ensures a * m' <= d * m
    ensures a * m' == d * m ==> a == b && c == d
  {
    MulMono(a, b, m');
    MulMono(c, d, m);
    MulOrder(b, a, m');
    MulOrder(d, c, m);
  }

  lemma MulAssoc(a: int, b: int, c: int)
    ensures a * b * c == a * (b * c)
  {
  }

  lemma MulMono(a: int, b: int, c: int)
    requires a <= b && c >= 0
    ensures a * c <= b * c
  {
    assert b * c - a * c == (b - a) * c;
  }

  /** A positive factor can be cancelled from an inequality. */
  lemma MulOrder(a: int, b: int, c: int)
    requires c > 0
    ensures a * c <= b * c ==> a <= b
    ensures a * c == b * c ==> a == b
  {
    assert c * (a - b) == a * c - b * c;
    MulAtLeast(c, a - b);
  }

  lemma IntegersRoundToThemselves(k: int, m: int, r: int)
    requires m > 0 && NearestEven(k * m, m, r)
    ensures r == k
  {
    assert r * m - k * m == m * (r - k);
    MulAtLeast(m, r - k);
  }

  // ---------------------------------------------------------------------------------------------
  // Rounding to a precision

  /** `Round`: the result is `v / p`, where `v` is the rounding of the scaled rational cut to 64 bits.
      It is within `1 / (2|p|)` of the rational exactly when the cut lost nothing. */
  method Round(num: int, denom: int, p: int) returns (v: int)
    requires denom > 0 && p != 0
    ensures exists r :: NearestEven(num * p, denom, r) && v == Int64(r)
    ensures forall r :: NearestEven(num * p, denom, r) ==> (2 * Abs(v * denom - num * p) <= denom <==> IsInt64(r))
  {
    var r := EvaluateBig(num * p, denom);
    v := Int64(r);
    CutIsFar(num * p, denom, r);
    forall q | NearestEven(num * p, denom, q) ensures q == r {
      NearestEvenUnique(num * p, denom, q, num * p, denom, r);
    }
  }

  lemma CutIsFar(n: int, m: int, r: int)
    requires m > 0 && NearestEven(n, m, r)
    ensures 2 * Abs(Int64(r) * m - n) <= m <==> IsInt64(r)
  {
    var v := Int64(r);
    if 2 * Abs(v * m - n) <= m {
      assert m * (v - r) == v * m - r * m;
      MulAtLeast(m, v - r - 1);
      MulAtLeast(m, v - r + 1);
      assert m * (v - r - 1) == m * (v - r) - m && m * (v - r + 1) == m * (v - r) + m;
      assert -1 <= v - r <= 1;
    }
  }
}
