/** The bounded integers `Int` (256 bits with sign) and `Uint` (256 bits), whose operations check
    bit lengths and panic on overflow. A panic is `None`. */
module BigInts {
  import opened ByteOrder
  import opened MachineInts

  function Pow2(n: nat): nat {
    if n == 0 then 1 else 2 * Pow2(n - 1)
  }

  /** `big.Int.BitLen`: the length of the absolute value in bits. */
  function BitLen(x: nat): nat {
    if x == 0 then 0 else 1 + BitLen(x / 2)
  }

  lemma {:induction false} Pow2Add(m: nat, n: nat)
    ensures Pow2(m + n) == Pow2(m) * Pow2(n)
  {
    if m > 0 {
      Pow2Add(m - 1, n);
      assert Pow2(m + n) == 2 * (Pow2(m - 1) * Pow2(n)) == (2 * Pow2(m - 1)) * Pow2(n);
    }
  }

  lemma {:induction false} Pow2Mono(m: nat, n: nat)
    requires m <= n
    ensures 1 <= Pow2(m) <= Pow2(n)
    decreases n
  {
    if m < n {
      Pow2Mono(m, n - 1);
    } else if n > 0 {
      Pow2Mono(m - 1, n - 1);
    }
  }

  /** A number fits in `n` bits exactly when it is below `2^n`. */
  lemma {:induction false} BitLenBound(x: nat, n: nat)
    ensures BitLen(x) <= n <==> x < Pow2(n)
  {
    if x > 0 && n > 0 {
      BitLenBound(x / 2, n - 1);
    } else if n > 0 {
      Pow2Mono(0, n);
    }
  }

  /** The product of two positive numbers has at least the sum of their lengths, less one, in bits. */
  lemma ProductLong(x: nat, y: nat)
    requires x > 0 && y > 0
    ensures BitLen(x * y) >= BitLen(x) + BitLen(y) - 1
  {
    var m, n := BitLen(x) - 1, BitLen(y) - 1;
    BitLenBound(x, m);
    BitLenBound(y, n);
    Pow2Add(m, n);
    Pow2Mono(0, n);
    ProductMono(Pow2(m), x, Pow2(n), y);
    BitLenBound(x * y, m + n);
  }

  lemma ProductMono(a: nat, x: nat, b: nat, y: nat)
    requires a <= x && b <= y
    ensures a * b <= x * y
  {
    assert a * b <= x * b by { assert x * b - a * b == (x - a) * b; }
    assert x * b <= x * y by { assert x * y - x * b == x * (y - b); }
  }

  // ---------------------------------------------------------------------------------------------
  // Int and Uint

  datatype Kind = Signed | Unsigned

  /** Bits available for the absolute value. */
  function Bits(kind: Kind): nat {
    if kind == Signed then 255 else 256
  }

  /** The range of the type: -(2^255-1) to 2^255-1, or 0 to 2^256-1. */
  ghost predicate InRange(kind: Kind, x: int) {
    Abs(x) < Pow2(Bits(kind)) && (kind == Unsigned ==> x >= 0)
  }

  /** The test made on every computed value. */
  predicate Fits(kind: Kind, x: int) {
    BitLen(Abs(x)) <= Bits(kind) && (kind == Unsigned ==> x >= 0)
  }

  lemma FitsIffInRange(kind: Kind, x: int)
    ensures Fits(kind, x) <==> InRange(kind, x)
  {
    BitLenBound(Abs(x), Bits(kind));
  }

  lemma Square(n: nat, v: nat, m: nat, w: nat)
    requires Pow2(n) == v && m == n + n && w == v * v
    ensures Pow2(m) == w
  {
    Pow2Add(n, n);
  }

  lemma Pow2Of255(n: nat)
    requires n == 255
    ensures Pow2(n) == 0x8000_0000_0000_0000_0000_0000_0000_0000_0000_0000_0000_0000_0000_0000_0000_0000
  {
    Square(8, 0x100, 16, 0x1_0000);
    Square(16, 0x1_0000, 32, 0x1_0000_0000);
    Square(32, 0x1_0000_0000, 64, WORD);
    Square(64, WORD, 128, 0x1_0000_0000_0000_0000_0000_0000_0000_0000);
    Square(128, 0x1_0000_0000_0000_0000_0000_0000_0000_0000, n + 1,
           0x1_0000_0000_0000_0000_0000_0000_0000_0000_0000_0000_0000_0000_0000_0000_0000_0000);
  }

  /** `Int` holds the numbers strictly between -2^255 and 2^255, `Uint` those from 0 to 2^256 - 1. */
  lemma RangesWrittenOut(x: int)
    ensures var n := 0x8000_0000_0000_0000_0000_0000_0000_0000_0000_0000_0000_0000_0000_0000_0000_0000;
            && (Fits(Signed, x) <==> -n < x < n)
            && (Fits(Unsigned, x) <==> 0 <= x < 2 * n)
  {
    Pow2Of255(Bits(Signed));
    FitsIffInRange(Signed, x);
    FitsIffInRange(Unsigned, x);
  }

  function Checked(kind: Kind, x: int): Option<int> {
    if Fits(kind, x) then Some(x) else None
  }

  function Add(kind: Kind, x: int, y: int): Option<int> {
    Checked(kind, x + y)
  }

  function Sub(kind: Kind, x: int, y: int): Option<int> {
    Checked(kind, x - y)
  }

  /** Tests the operands' lengths before multiplying and the product's afterwards. */
  function Mul(kind: Kind, x: int, y: int): Option<int> {
    if BitLen(Abs(x)) + BitLen(Abs(y)) - 1 > Bits(kind) then None
    else Checked(kind, x * y)
  }

  /** Euclidean division; there is no range test. */
  function Div(x: int, y: int): Option<int> {
    if y == 0 then None else Some(x / y)
  }

  function Neg(x: int): int {
    -x
  }

  /** `Mul` panics exactly when the true product is out of range: the test on the operands never
      rejects a representable product. */
  lemma MulExact(kind: Kind, x: int, y: int)
    requires InRange(kind, x) && InRange(kind, y)
    ensures Mul(kind, x, y) == if InRange(kind, x * y) then Some(x * y) else None
  {
    FitsIffInRange(kind, x);
    FitsIffInRange(kind, y);
    FitsIffInRange(kind, x * y);
    if x != 0 && y != 0 {
      AbsProduct(x, y);
      ProductLong(Abs(x), Abs(y));
    }
  }

  lemma AbsProduct(x: int, y: int)
    ensures Abs(x * y) == Abs(x) * Abs(y)
  {
    if x < 0 && y < 0 {
      assert (-x) * (-y) == x * y;
      ProductMono(0, -x, 0, -y);
    } else if x < 0 {
      assert (-x) * y == -(x * y);
      ProductMono(0, -x, 0, y);
    } else if y < 0 {
      assert x * (-y) == -(x * y);
      ProductMono(0, x, 0, -y);
    } else {
      ProductMono(0, x, 0, y);
    }
  }

  /** A quotient of length `q` by a divisor of length `y` is no longer than the dividend. */
  lemma EuclidBound(x: int, y: nat, q: nat, product: int, r: int)
    requires y >= 1 && Abs(product) == y * q && x == product + r && 0 <= r < y
    ensures q <= Abs(x)
  {
    if q > 0 {
      assert y * q == y * (q - 1) + y;
      ProductMono(1, y, q - 1, q - 1);
    }
  }

  lemma QuotientSmaller(x: int, y: int)
    requires y != 0
    ensures Abs(x / y) <= Abs(x)
  {
    AbsProduct(y, x / y);
    EuclidBound(x, Abs(y), Abs(x / y), y * (x / y), x % y);
  }

  lemma QuotientSign(x: int, y: int)
    requires x >= 0 && y > 0
    ensures x / y >= 0
  {
  }

  /** `Div` needs no range test. */
  lemma QuotientInRange(kind: Kind, x: int, y: int)
    requires InRange(kind, x) && InRange(kind, y) && y != 0
    ensures InRange(kind, x / y)
  {
    QuotientSmaller(x, y);
    if kind == Unsigned {
      QuotientSign(x, y);
    }
  }

  // ---------------------------------------------------------------------------------------------
  // Chains of operations

  datatype Op = Plus | Minus | Times | Quotient
  datatype Expr = Const(x: int) | Negated(a: Expr) | Binary(op: Op, a: Expr, b: Expr)

  function ApplyOp(kind: Kind, op: Op, x: int, y: int): Option<int> {
    match op
    case Plus => Add(kind, x, y)
    case Minus => Sub(kind, x, y)
    case Times => Mul(kind, x, y)
    case Quotient => Div(x, y)
  }

  /** Evaluation with the checked operations. `Uint` has no negation. */
  function Eval(kind: Kind, e: Expr): Option<int> {
    match e
    case Const(x) => Checked(kind, x)
    case Negated(a) =>
      var x := Eval(kind, a);
      if x.None? || kind == Unsigned then None else Some(Neg(x.value))
    case Binary(op, a, b) =>
      var x, y := Eval(kind, a), Eval(kind, b);
      if x.None? || y.None? then None else ApplyOp(kind, op, x.value, y.value)
  }

  /** The true result of one operation, if it exists and is in range. */
  ghost function ExactOp(kind: Kind, op: Op, x: int, y: int): Option<int> {
    if op == Quotient && y == 0 then None
    else
      var z := match op
        case Plus => x + y
        case Minus => x - y
        case Times => x * y
        case Quotient => x / y;
      if InRange(kind, z) then Some(z) else None
  }

  /** Evaluation over the integers, with no value once a step leaves the range or divides by zero. */
  ghost function Exact(kind: Kind, e: Expr): Option<int> {
    match e
    case Const(x) => if InRange(kind, x) then Some(x) else None
    case Negated(a) =>
      var x := Exact(kind, a);
      if x.None? || kind == Unsigned then None else Some(-x.value)
    case Binary(op, a, b) =>
      var x, y := Exact(kind, a), Exact(kind, b);
      if x.None? || y.None? then None else ExactOp(kind, op, x.value, y.value)
  }

  /** Any chain of operations panics exactly when some step leaves the range or divides by zero, and
      otherwise gives the true result, which is in range. */
  lemma {:induction false} EvalIsExact(kind: Kind, e: Expr)
    ensures Eval(kind, e) == Exact(kind, e)
    ensures Eval(kind, e).Some? ==> InRange(kind, Eval(kind, e).value)
  {
    match e
    case Const(x) => FitsIffInRange(kind, x);
    case Negated(a) => EvalIsExact(kind, a);
    case Binary(op, a, b) =>
      EvalIsExact(kind, a);
      EvalIsExact(kind, b);
      var x, y := Eval(kind, a), Eval(kind, b);
      if x.Some? && y.Some? {
        StepIsExact(kind, op, x.value, y.value);
      }
  }

  lemma QuotientExact(kind: Kind, x: int, y: int)
    requires InRange(kind, x) && InRange(kind, y)
    ensures Div(x, y) == ExactOp(kind, Quotient, x, y)
  {
    if y != 0 {
      QuotientInRange(kind, x, y);
    }
  }

  lemma StepIsExact(kind: Kind, op: Op, x: int, y: int)
    requires InRange(kind, x) && InRange(kind, y)
    ensures ApplyOp(kind, op, x, y) == ExactOp(kind, op, x, y)
  {
    match op
    case Plus => CheckedExact(kind, x + y);
    case Minus => CheckedExact(kind, x - y);
    case Times => MulExact(kind, x, y);
    case Quotient => QuotientExact(kind, x, y);
  }

  lemma CheckedExact(kind: Kind, x: int)
    ensures Checked(kind, x) == if InRange(kind, x) then Some(x) else None
  {
    FitsIffInRange(kind, x);
  }
}
