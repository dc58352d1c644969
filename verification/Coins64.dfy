/** Coins with `int64` amounts, whose arithmetic wraps around. */
module Coins64 {
  import opened ByteOrder
  import opened MachineInts
  import opened Coins

  /** All amounts are `int64` values. */
  ghost predicate Typed(c: Coins) {
    forall i :: 0 <= i < |c| ==> IsInt64(c[i].amount)
  }

  function Plus64(a: Coins, b: Coins): Coins
    decreases |a| + |b|
  {
    if a == [] then b
    else if b == [] then a
    else
      var x, y := a[0], b[0];
      if x.denom == y.denom then
        (if Int64(x.amount + y.amount) == 0 then [] else [Coin(x.denom, Int64(x.amount + y.amount))]) + Plus64(a[1..],
                                                                                                               b[1..])
      else if Less(x.denom, y.denom) then [x] + Plus64(a[1..], b)
      else [y] + Plus64(a, b[1..])
  }

  function Negative64(c: Coins): Coins {
    if c == [] then [] else [Coin(c[0].denom, Int64(-c[0].amount))] + Negative64(c[1..])
  }

  function Minus64(a: Coins, b: Coins): Coins {
    Plus64(a, Negative64(b))
  }

  predicate IsGTE64(a: Coins, b: Coins) {
    var diff := Minus64(a, b);
    |diff| == 0 || IsNotNegative(diff)
  }

  // ---------------------------------------------------------------------------------------------
  // Wrap-around

  lemma Int64Range(x: int)
    ensures IsInt64(Int64(x)) && (IsInt64(x) ==> Int64(x) == x)
  {
  }

  /** How many words `Int64` adds. */
  function Wraps(x: int): int {
    if x % WORD < 0x8000_0000_0000_0000 then -(x / WORD) else -(x / WORD) - 1
  }

  lemma Int64Wraps(x: int)
    ensures Int64(x) == x + WORD * Wraps(x)
  {
  }

  lemma Int64Shift(x: int, k: int)
    ensures Int64(x + WORD * k) == Int64(x)
  {
  }

  /** Wrapping early or late makes no difference. */
  lemma Int64Sum(x: int, y: int)
    ensures Int64(Int64(x) + y) == Int64(x + y)
    ensures Int64(x + Int64(y)) == Int64(x + y)
  {
    Int64Wraps(x);
    Int64Wraps(y);
    Int64Shift(x + y, Wraps(x));
    Int64Shift(x + y, Wraps(y));
  }

  // ---------------------------------------------------------------------------------------------
  // The merge

  lemma {:induction false} Plus64Above(a: Coins, b: Coins, x: Bytes)
    requires Above(a, x) && Above(b, x)
    ensures Above(Plus64(a, b), x)
    decreases |a| + |b|
  {
    if a != [] && b != [] {
      Plus64Above(a[1..], b[1..], x);
      Plus64Above(a[1..], b, x);
      Plus64Above(a, b[1..], x);
    }
  }

  lemma {:induction false} Plus64Sorted(a: Coins, b: Coins)
    requires Sorted(a) && Sorted(b)
    ensures Sorted(Plus64(a, b))
    decreases |a| + |b|
  {
    if a != [] && b != [] {
      var x, y := a[0], b[0];
      SortedTail(a);
      SortedTail(b);
      if x.denom == y.denom {
        Plus64Sorted(a[1..], b[1..]);
        Plus64Above(a[1..], b[1..], x.denom);
        SortedCons(Coin(x.denom, Int64(x.amount + y.amount)), Plus64(a[1..], b[1..]));
      } else if Less(x.denom, y.denom) {
        Plus64Sorted(a[1..], b);
        AboveHead(b, x.denom);
        Plus64Above(a[1..], b, x.denom);
        SortedCons(x, Plus64(a[1..], b));
      } else {
        LessTotal(x.denom, y.denom);
        Plus64Sorted(a, b[1..]);
        AboveHead(a, y.denom);
        Plus64Above(a, b[1..], y.denom);
        SortedCons(y, Plus64(a, b[1..]));
      }
    }
  }

  /** The merge of sorted lists adds amounts up to a multiple of the word size. */
  lemma {:induction false} Plus64Words(a: Coins, b: Coins, d: Bytes) returns (k: int)
    requires Sorted(a) && Sorted(b)
    ensures Amount(Plus64(a, b), d) == Amount(a, d) + Amount(b, d) + WORD * k
    decreases |a| + |b|
  {
    k := 0;
    if a != [] && b != [] {
      SortedTail(a);
      SortedTail(b);
      var x, y := a[0], b[0];
      if x.denom == y.denom {
        k := MeetWords(a, b, d);
      } else if Less(x.denom, y.denom) {
        k := Plus64Words(a[1..], b, d);
        ConsAmount(x, Plus64(a[1..], b), d);
        if d == x.denom {
          AboveHead(b, d);
          AboveIsZero(b, d);
          k := 0;
        }
      } else {
        LessTotal(x.denom, y.denom);
        k := Plus64Words(a, b[1..], d);
        ConsAmount(y, Plus64(a, b[1..]), d);
        if d == y.denom {
          AboveHead(a, d);
          AboveIsZero(a, d);
          k := 0;
        }
      }
    }
  }

  lemma MeetWords(a: Coins, b: Coins, d: Bytes) returns (k: int)
    requires Sorted(a) && Sorted(b) && a != [] && b != [] && a[0].denom == b[0].denom
    ensures Amount(Plus64(a, b), d) == Amount(a, d) + Amount(b, d) + WORD * k
    decreases |a| + |b|, 0
  {
    SortedTail(a);
    SortedTail(b);
    MeetAmounts(a, b, d);
    if d == a[0].denom {
      var z := a[0].amount + b[0].amount;
      Int64Wraps(z);
      k := Wraps(z);
    } else {
      k := Plus64Words(a[1..], b[1..], d);
    }
  }

  lemma MeetAmounts(a: Coins, b: Coins, d: Bytes)
    requires Sorted(a) && Sorted(b) && a != [] && b != [] && a[0].denom == b[0].denom
    ensures Amount(Plus64(a, b), d) ==
            if d == a[0].denom then Int64(a[0].amount + b[0].amount) else Amount(Plus64(a[1..], b[1..]), d)
  {
    SortedTail(a);
    SortedTail(b);
    Plus64Above(a[1..], b[1..], a[0].denom);
    MaybeCons(Coin(a[0].denom, Int64(a[0].amount + b[0].amount)), Plus64(a[1..], b[1..]), d);
  }

  lemma MaybeCons(x: Coin, rest: Coins, d: Bytes)
    requires Above(rest, x.denom)
    ensures Amount((if x.amount == 0 then [] else [x]) + rest, d) == if d == x.denom then x.amount else Amount(rest, d)
  {
    AboveIsZero(rest, x.denom);
    ConsAmount(x, rest, d);
    assert [] + rest == rest;
  }

  lemma {:induction false} Plus64Typed(a: Coins, b: Coins)
    requires Typed(a) && Typed(b)
    ensures Typed(Plus64(a, b))
    decreases |a| + |b|
  {
    if a != [] && b != [] {
      Int64Range(a[0].amount + b[0].amount);
      Plus64Typed(a[1..], b[1..]);
      Plus64Typed(a[1..], b);
      Plus64Typed(a, b[1..]);
    }
  }

  lemma {:induction false} TypedAmount(c: Coins, d: Bytes)
    requires Typed(c)
    ensures IsInt64(Amount(c, d))
  {
    if c != [] {
      TypedAmount(c[1..], d);
    }
  }

  /** On sorted lists addition adds amounts, wrapping around. */
  lemma Plus64Amount(a: Coins, b: Coins, d: Bytes)
    requires Sorted(a) && Sorted(b) && Typed(a) && Typed(b)
    ensures Amount(Plus64(a, b), d) == Int64(Amount(a, d) + Amount(b, d))
  {
    var k := Plus64Words(a, b, d);
    Plus64Typed(a, b);
    TypedAmount(Plus64(a, b), d);
    Int64Range(Amount(Plus64(a, b), d));
    Int64Shift(Amount(a, d) + Amount(b, d), k);
  }

  lemma {:induction false} Negative64At(c: Coins)
    ensures |Negative64(c)| == |c|
    ensures forall i :: 0 <= i < |c| ==> Negative64(c)[i] == Coin(c[i].denom, Int64(-c[i].amount))
  {
    if c != [] {
      Negative64At(c[1..]);
    }
  }

  lemma Negative64Sorted(c: Coins)
    ensures Sorted(c) ==> Sorted(Negative64(c))
    ensures Typed(Negative64(c))
  {
    Negative64At(c);
  }

  lemma {:induction false} Negative64Amount(c: Coins, d: Bytes)
    ensures Amount(Negative64(c), d) == Int64(-Amount(c, d))
  {
    if c != [] {
      Negative64Amount(c[1..], d);
      ConsAmount(Coin(c[0].denom, Int64(-c[0].amount)), Negative64(c[1..]), d);
    }
  }

  lemma Plus64Good(a: Coins, b: Coins)
    requires Sorted(a) && Sorted(b) && Typed(a) && Typed(b)
    ensures Sorted(Plus64(a, b)) && Typed(Plus64(a, b))
  {
    Plus64Sorted(a, b);
    Plus64Typed(a, b);
  }

  lemma Minus64Good(a: Coins, b: Coins)
    requires Sorted(a) && Sorted(b) && Typed(a) && Typed(b)
    ensures Sorted(Minus64(a, b)) && Typed(Minus64(a, b))
  {
    Negative64Sorted(b);
    Plus64Good(a, Negative64(b));
  }

  lemma Minus64Amount(a: Coins, b: Coins, d: Bytes)
    requires Sorted(a) && Sorted(b) && Typed(a) && Typed(b)
    ensures Amount(Minus64(a, b), d) == Int64(Amount(a, d) - Amount(b, d))
  {
    Negative64Sorted(b);
    Negative64Amount(b, d);
    Plus64Amount(a, Negative64(b), d);
    Int64Sum(Amount(a, d), -Amount(b, d));
  }

  // ---------------------------------------------------------------------------------------------
  // Comparison

  /** The wrapped difference of one denomination. */
  function Gap(a: Coins, b: Coins, d: Bytes): int {
    Int64(Amount(a, d) - Amount(b, d))
  }

  /** No denomination's wrapped difference is negative. */
  ghost predicate NoGapNegative(a: Coins, b: Coins) {
    forall d :: Gap(a, b, d) >= 0
  }

  /** Every denomination's amount is at least the other's. */
  ghost predicate AtLeast(a: Coins, b: Coins) {
    forall d :: Amount(a, d) >= Amount(b, d)
  }

  lemma GapOfDifference(a: Coins, b: Coins, d: Bytes)
    requires Sorted(a) && Sorted(b) && Typed(a) && Typed(b)
    ensures Gap(a, b, d) == Amount(Minus64(a, b), d)
  {
    Minus64Amount(a, b, d);
  }

  /** The comparison holds exactly when no denomination's wrapped difference is negative. */
  lemma GTE64Iff(a: Coins, b: Coins)
    requires Sorted(a) && Sorted(b) && Typed(a) && Typed(b)
    ensures IsGTE64(a, b) <==> NoGapNegative(a, b)
  {
    var diff := Minus64(a, b);
    Minus64Good(a, b);
    if IsGTE64(a, b) {
      forall d ensures Gap(a, b, d) >= 0 {
        GapOfDifference(a, b, d);
        NotNegativeAmount(diff, d);
      }
    } else {
      var i :| 0 <= i < |diff| && diff[i].amount < 0;
      AmountAt(diff, i);
      GapOfDifference(a, b, diff[i].denom);
    }
  }

  /** Without overflow that is comparison of all amounts. */
  lemma GTE64Exact(a: Coins, b: Coins)
    requires Sorted(a) && Sorted(b) && Typed(a) && Typed(b)
    requires forall d :: IsInt64(Amount(a, d) - Amount(b, d))
    ensures IsGTE64(a, b) <==> AtLeast(a, b)
  {
    GTE64Iff(a, b);
    if NoGapNegative(a, b) {
      forall d ensures Amount(a, d) >= Amount(b, d) {
        assert Gap(a, b, d) >= 0;
        Int64Range(Amount(a, d) - Amount(b, d));
      }
    }
    if AtLeast(a, b) {
      forall d ensures Gap(a, b, d) >= 0 {
        assert Amount(a, d) >= Amount(b, d);
        Int64Range(Amount(a, d) - Amount(b, d));
      }
    }
  }

  /** With overflow it is not: the smallest amount passes as at least one coin. */
  lemma OverflowPassesAsGTE()
    ensures var a, b := [Coin([97], -0x8000_0000_0000_0000)], [Coin([97], 1)];
            Sorted(a) && Sorted(b) && Typed(a) && Typed(b) && IsGTE64(a, b) && Amount(a, [97]) < Amount(b, [97])
  {
    var a, b := [Coin([97], -0x8000_0000_0000_0000)], [Coin([97], 1)];
    assert Negative64(b) == [Coin([97], -1)] + Negative64(b[1..]);
    assert Minus64(a, b) == [Coin([97], 0x7fff_ffff_ffff_ffff)] + Plus64(a[1..], []);
  }

  // ---------------------------------------------------------------------------------------------
  // The loop

  method PlusCoins64(a: Coins, b: Coins) returns (sum: Coins)
    ensures sum == Plus64(a, b)
  {
    sum := [];
    var i: nat, j: nat := 0, 0;
    while i < |a| && j < |b|
      invariant i <= |a| && j <= |b| && sum + Plus64(a[i..], b[j..]) == Plus64(a, b)
      decreases |a| - i + |b| - j
    {
      i, j, sum := Merge64Once(a, b, i, j, sum);
    }
    sum := if i == |a| then sum + b[j..] else sum + a[i..];
  }

  method Merge64Once(a: Coins, b: Coins, i: nat, j: nat, sum: Coins) returns (i': nat, j': nat, sum': Coins)
    requires i < |a| && j < |b|
    ensures i <= i' <= |a| && j <= j' <= |b| && i + j < i' + j'
    ensures sum' + Plus64(a[i'..], b[j'..]) == sum + Plus64(a[i..], b[j..])
  {
    var x, y := a[i], b[j];
    i', j' := i, j;
    Merge64Step(sum, a, b, i, j);
    var cmp := Compare(x.denom, y.denom);
    if cmp == -1 {
      sum', i' := sum + [x], i + 1;
    } else if cmp == 0 {
      var amount := Int64(x.amount + y.amount);
      sum' := if amount == 0 then sum else sum + [Coin(x.denom, amount)];
      i', j' := i + 1, j + 1;
    } else {
      sum', j' := sum + [y], j + 1;
    }
  }

  lemma Merge64Step(sum: Coins, a: Coins, b: Coins, i: nat, j: nat)
    requires i < |a| && j < |b|
    ensures var x, y, p := a[i], b[j], sum + Plus64(a[i..], b[j..]);
            if x.denom == y.denom then
              p == (if Int64(x.amount + y.amount) == 0 then sum else sum + [Coin(x.denom, Int64(x.amount + y.amount))])
                   + Plus64(a[i + 1..], b[j + 1..])
            else if Less(x.denom, y.denom) then p == (sum + [x]) + Plus64(a[i + 1..], b[j..])
            else p == (sum + [y]) + Plus64(a[i..], b[j + 1..])
  {
    assert a[i..][1..] == a[i + 1..] && b[j..][1..] == b[j + 1..];
  }
}
