/** Lists of coins, one per denomination, as finite functions from denominations to amounts. */
module Coins {
  import opened ByteOrder
  import BigInts

  datatype Coin = Coin(denom: Bytes, amount: int)
  type Coins = seq<Coin>

  // ---------------------------------------------------------------------------------------------
  // Sorted lists as functions

  ghost predicate Sorted(c: Coins) {
    forall i, j :: 0 <= i < j < |c| ==> Less(c[i].denom, c[j].denom)
  }

  ghost predicate NoZero(c: Coins) {
    forall i :: 0 <= i < |c| ==> c[i].amount != 0
  }

  /** Strictly increasing denominations, no zero amounts. */
  ghost predicate Canonical(c: Coins) {
    Sorted(c) && NoZero(c)
  }

  /** The amount of a denomination, zero if it is not listed. */
  function Amount(c: Coins, d: Bytes): int {
    if c == [] then 0 else if c[0].denom == d then c[0].amount else Amount(c[1..], d)
  }

  ghost predicate HasDenom(c: Coins, d: Bytes) {
    exists i :: 0 <= i < |c| && c[i].denom == d
  }

  /** Every denomination of `c` comes after `x`. */
  ghost predicate Above(c: Coins, x: Bytes) {
    forall i :: 0 <= i < |c| ==> Less(x, c[i].denom)
  }

  lemma SortedCons(x: Coin, c: Coins)
    requires Sorted(c) && Above(c, x.denom)
    ensures Sorted([x] + c)
  {
  }

  lemma SortedTail(c: Coins)
    requires c != [] && Sorted(c)
    ensures Sorted(c[1..]) && Above(c[1..], c[0].denom)
  {
  }

  lemma AboveHead(c: Coins, x: Bytes)
    requires Sorted(c) && (c == [] || Less(x, c[0].denom))
    ensures Above(c, x)
  {
    forall i | 0 <= i < |c| ensures Less(x, c[i].denom) {
      if i > 0 {
        LessTransitive(x, c[0].denom, c[i].denom);
      }
    }
  }

  lemma {:induction false} AbsentIsZero(c: Coins, d: Bytes)
    requires !HasDenom(c, d)
    ensures Amount(c, d) == 0
  {
    if c != [] {
      assert c[0].denom != d;
      forall i | 0 <= i < |c[1..]| ensures c[1..][i].denom != d {
        assert c[i + 1].denom != d;
      }
      AbsentIsZero(c[1..], d);
    }
  }

  lemma AboveIsZero(c: Coins, d: Bytes)
    requires Above(c, d)
    ensures Amount(c, d) == 0
  {
    LessIrreflexive(d);
    AbsentIsZero(c, d);
  }

  lemma {:induction false} AmountAt(c: Coins, i: nat)
    requires Sorted(c) && i < |c|
    ensures Amount(c, c[i].denom) == c[i].amount
  {
    if i > 0 {
      LessAsymmetric(c[0].denom, c[i].denom);
      SortedTail(c);
      AmountAt(c[1..], i - 1);
    }
  }

  /** Canonical lists with the same amount of every denomination are the same list. */
  lemma {:induction false} SameAmountsSameList(a: Coins, b: Coins)
    requires Canonical(a) && Canonical(b)
    requires forall d :: Amount(a, d) == Amount(b, d)
    ensures a == b
  {
    assert a != [] ==> Amount(a, a[0].denom) == Amount(b, a[0].denom) != 0;
    assert b != [] ==> Amount(a, b[0].denom) == Amount(b, b[0].denom) != 0;
    if a != [] && b != [] {
      SameHead(a, b);
      SortedTail(a);
      SortedTail(b);
      forall d ensures Amount(a[1..], d) == Amount(b[1..], d) {
        assert Amount(a, d) == Amount(b, d);
        if d == a[0].denom {
          AboveIsZero(a[1..], d);
          AboveIsZero(b[1..], d);
        }
      }
      SameAmountsSameList(a[1..], b[1..]);
      assert a == [a[0]] + a[1..] && b == [b[0]] + b[1..];
    }
  }

  lemma SameHead(a: Coins, b: Coins)
    requires Canonical(a) && Canonical(b) && a != [] && b != []
    requires forall d :: Amount(a, d) == Amount(b, d)
    ensures a[0] == b[0]
  {
    var x, y := a[0].denom, b[0].denom;
    assert Amount(a, x) == Amount(b, x) && Amount(a, y) == Amount(b, y);
    LessTotal(x, y);
    if Less(x, y) {
      AboveHead(b, x);
      AboveIsZero(b, x);
    } else if Less(y, x) {
      AboveHead(a, y);
      AboveIsZero(a, y);
    }
  }

  // ---------------------------------------------------------------------------------------------
  // Addition

  /** The merge of two lists, adding where denominations meet and dropping sums of zero. */
  function Plus(a: Coins, b: Coins): Coins
    decreases |a| + |b|
  {
    if a == [] then b
    else if b == [] then a
    else
      var x, y := a[0], b[0];
      if x.denom == y.denom then
        (if x.amount + y.amount == 0 then [] else [Coin(x.denom, x.amount + y.amount)]) + Plus(a[1..], b[1..])
      else if Less(x.denom, y.denom) then [x] + Plus(a[1..], b)
      else [y] + Plus(a, b[1..])
  }

  lemma {:induction false} PlusAbove(a: Coins, b: Coins, x: Bytes)
    requires Above(a, x) && Above(b, x)
    ensures Above(Plus(a, b), x)
    decreases |a| + |b|
  {
    if a != [] && b != [] {
      PlusAbove(a[1..], b[1..], x);
      PlusAbove(a[1..], b, x);
      PlusAbove(a, b[1..], x);
    }
  }

  lemma {:induction false} PlusSorted(a: Coins, b: Coins)
    requires Sorted(a) && Sorted(b)
    ensures Sorted(Plus(a, b))
    decreases |a| + |b|
  {
    if a != [] && b != [] {
      var x, y := a[0], b[0];
      SortedTail(a);
      SortedTail(b);
      if x.denom == y.denom {
        PlusSorted(a[1..], b[1..]);
        PlusAbove(a[1..], b[1..], x.denom);
        SortedCons(Coin(x.denom, x.amount + y.amount), Plus(a[1..], b[1..]));
      } else if Less(x.denom, y.denom) {
        PlusSorted(a[1..], b);
        AboveHead(b, x.denom);
        PlusAbove(a[1..], b, x.denom);
        SortedCons(x, Plus(a[1..], b));
      } else {
        LessTotal(x.denom, y.denom);
        PlusSorted(a, b[1..]);
        AboveHead(a, y.denom);
        PlusAbove(a, b[1..], y.denom);
        SortedCons(y, Plus(a, b[1..]));
      }
    }
  }

  lemma ConsAmount(x: Coin, c: Coins, d: Bytes)
    ensures Amount([x] + c, d) == if x.denom == d then x.amount else Amount(c, d)
  {
    assert ([x] + c)[1..] == c;
  }

  /** On sorted lists, zero amounts allowed, addition is addition of amounts. */
  lemma {:induction false} PlusAmount(a: Coins, b: Coins, d: Bytes)
    requires Sorted(a) && Sorted(b)
    ensures Amount(Plus(a, b), d) == Amount(a, d) + Amount(b, d)
    decreases |a| + |b|
  {
    if a != [] && b != [] {
      var x, y := a[0], b[0];
      SortedTail(a);
      SortedTail(b);
      if x.denom == y.denom {
        PlusAmount(a[1..], b[1..], d);
        ConsAmount(Coin(x.denom, x.amount + y.amount), Plus(a[1..], b[1..]), d);
        if d == x.denom {
          AboveIsZero(a[1..], d);
          AboveIsZero(b[1..], d);
        }
        assert [] + Plus(a[1..], b[1..]) == Plus(a[1..], b[1..]);
      } else if Less(x.denom, y.denom) {
        PlusAmount(a[1..], b, d);
        ConsAmount(x, Plus(a[1..], b), d);
        if d == x.denom {
          AboveHead(b, d);
          AboveIsZero(b, d);
        }
      } else {
        LessTotal(x.denom, y.denom);
        PlusAmount(a, b[1..], d);
        ConsAmount(y, Plus(a, b[1..]), d);
        if d == y.denom {
          AboveHead(a, d);
          AboveIsZero(a, d);
        }
      }
    }
  }

  lemma {:induction false} PlusNoZero(a: Coins, b: Coins)
    requires NoZero(a) && NoZero(b)
    ensures NoZero(Plus(a, b))
    decreases |a| + |b|
  {
    if a != [] && b != [] {
      PlusNoZero(a[1..], b[1..]);
      PlusNoZero(a[1..], b);
      PlusNoZero(a, b[1..]);
    }
  }

  lemma PlusCanonical(a: Coins, b: Coins)
    requires Canonical(a) && Canonical(b)
    ensures Canonical(Plus(a, b))
  {
    PlusSorted(a, b);
    PlusNoZero(a, b);
  }

  lemma PlusCommutative(a: Coins, b: Coins)
    requires Canonical(a) && Canonical(b)
    ensures Plus(a, b) == Plus(b, a)
  {
    PlusCanonical(a, b);
    PlusCanonical(b, a);
    forall d ensures Amount(Plus(a, b), d) == Amount(Plus(b, a), d) {
      PlusAmount(a, b, d);
      PlusAmount(b, a, d);
    }
    SameAmountsSameList(Plus(a, b), Plus(b, a));
  }

  lemma PlusAssociative(a: Coins, b: Coins, c: Coins)
    requires Canonical(a) && Canonical(b) && Canonical(c)
    ensures Plus(Plus(a, b), c) == Plus(a, Plus(b, c))
  {
    var l, r := Plus(Plus(a, b), c), Plus(a, Plus(b, c));
    PlusCanonical(a, b);
    PlusCanonical(b, c);
    PlusCanonical(Plus(a, b), c);
    PlusCanonical(a, Plus(b, c));
    forall d ensures Amount(l, d) == Amount(r, d) {
      PlusAmount(a, b, d);
      PlusAmount(b, c, d);
      PlusAmount(Plus(a, b), c, d);
      PlusAmount(a, Plus(b, c), d);
    }
    SameAmountsSameList(l, r);
  }

  // ---------------------------------------------------------------------------------------------
  // Subtraction and comparison

  function Negative(c: Coins): Coins {
    if c == [] then [] else [Coin(c[0].denom, -c[0].amount)] + Negative(c[1..])
  }

  lemma {:induction false} NegativeAt(c: Coins)
    ensures |Negative(c)| == |c|
    ensures forall i :: 0 <= i < |c| ==> Negative(c)[i] == Coin(c[i].denom, -c[i].amount)
  {
    if c != [] {
      NegativeAt(c[1..]);
    }
  }

  lemma NegativeSorted(c: Coins)
    ensures Sorted(c) ==> Sorted(Negative(c))
    ensures Canonical(c) ==> Canonical(Negative(c))
  {
    NegativeAt(c);
  }

  lemma {:induction false} NegativeAmount(c: Coins, d: Bytes)
    ensures Amount(Negative(c), d) == -Amount(c, d)
  {
    if c != [] {
      NegativeAmount(c[1..], d);
      ConsAmount(Coin(c[0].denom, -c[0].amount), Negative(c[1..]), d);
    }
  }

  function Minus(a: Coins, b: Coins): Coins {
    Plus(a, Negative(b))
  }

  lemma MinusAmount(a: Coins, b: Coins, d: Bytes)
    requires Sorted(a) && Sorted(b)
    ensures Sorted(Minus(a, b)) && Amount(Minus(a, b), d) == Amount(a, d) - Amount(b, d)
  {
    NegativeSorted(b);
    NegativeAmount(b, d);
    PlusSorted(a, Negative(b));
    PlusAmount(a, Negative(b), d);
  }

  /** Adding and then subtracting the same coins changes nothing. */
  lemma PlusThenMinus(a: Coins, b: Coins)
    requires Canonical(a) && Canonical(b)
    ensures Minus(Plus(a, b), b) == a
  {
    var r := Minus(Plus(a, b), b);
    PlusCanonical(a, b);
    NegativeSorted(b);
    PlusCanonical(Plus(a, b), Negative(b));
    forall d ensures Amount(r, d) == Amount(a, d) {
      PlusAmount(a, b, d);
      MinusAmount(Plus(a, b), b, d);
    }
    SameAmountsSameList(r, a);
  }

  predicate IsNotNegative(c: Coins) {
    forall i :: 0 <= i < |c| ==> c[i].amount >= 0
  }

  predicate IsGTE(a: Coins, b: Coins) {
    var diff := Minus(a, b);
    |diff| == 0 || IsNotNegative(diff)
  }

  /** Comparison holds exactly when every denomination's amount is at least the other's. */
  lemma GTEIffAmounts(a: Coins, b: Coins)
    requires Sorted(a) && Sorted(b)
    ensures IsGTE(a, b) <==> forall d :: Amount(a, d) >= Amount(b, d)
  {
    var diff := Minus(a, b);
    forall d ensures Sorted(diff) && Amount(diff, d) == Amount(a, d) - Amount(b, d) {
      MinusAmount(a, b, d);
    }
    MinusAmount(a, b, []);
    if IsGTE(a, b) {
      forall d ensures Amount(diff, d) >= 0 {
        NotNegativeAmount(diff, d);
      }
      assert forall d :: Amount(diff, d) == Amount(a, d) - Amount(b, d);
    } else {
      var i :| 0 <= i < |diff| && diff[i].amount < 0;
      AmountAt(diff, i);
      assert Amount(a, diff[i].denom) < Amount(b, diff[i].denom);
    }
  }

  lemma {:induction false} NotNegativeAmount(c: Coins, d: Bytes)
    requires IsNotNegative(c)
    ensures Amount(c, d) >= 0
  {
    if c != [] {
      NotNegativeAmount(c[1..], d);
    }
  }

  // ---------------------------------------------------------------------------------------------
  // The promise that sums contain no zero coin

  /** Every zero coin of `a` meets a coin of the same denomination in `b`. */
  ghost predicate ZerosMeet(a: Coins, b: Coins) {
    forall i :: 0 <= i < |a| && a[i].amount == 0 ==> HasDenom(b, a[i].denom)
  }

  lemma HasDenomCons(c: Coins, d: Bytes)
    requires c != []
    ensures HasDenom(c, d) <==> c[0].denom == d || HasDenom(c[1..], d)
  {
    if i :| 0 <= i < |c| && c[i].denom == d {
      assert i == 0 || c[1..][i - 1].denom == d;
    }
    if i :| 0 <= i < |c[1..]| && c[1..][i].denom == d {
      assert c[i + 1].denom == d;
    }
  }

  lemma ZerosMeetCons(a: Coins, b: Coins)
    requires a != []
    ensures ZerosMeet(a, b) <==> (a[0].amount == 0 ==> HasDenom(b, a[0].denom)) && ZerosMeet(a[1..], b)
  {
    if ZerosMeet(a, b) {
      forall i | 0 <= i < |a[1..]| && a[1..][i].amount == 0 ensures HasDenom(b, a[1..][i].denom) {
        assert a[i + 1].amount == 0;
      }
    }
    if ZerosMeet(a[1..], b) {
      forall i | 0 < i < |a| && a[i].amount == 0 ensures HasDenom(b, a[i].denom) {
        assert a[1..][i - 1].amount == 0;
      }
    }
  }

  /** A coin below or at the head of `b` is irrelevant to `a`'s zeros above it. */
  lemma ZerosMeetTail(a: Coins, b: Coins)
    requires b != [] && Above(a, b[0].denom)
    ensures ZerosMeet(a, b) <==> ZerosMeet(a, b[1..])
  {
    forall i | 0 <= i < |a| ensures HasDenom(b, a[i].denom) <==> HasDenom(b[1..], a[i].denom) {
      HasDenomCons(b, a[i].denom);
      LessAsymmetric(b[0].denom, a[i].denom);
    }
  }

  lemma NoZeroCons(x: Coin, c: Coins)
    ensures NoZero([x] + c) <==> x.amount != 0 && NoZero(c)
  {
    if NoZero([x] + c) {
      assert ([x] + c)[0].amount != 0;
      forall i | 0 <= i < |c| ensures c[i].amount != 0 {
        assert ([x] + c)[i + 1].amount != 0;
      }
    }
  }

  /** The three rounds of the merge, for the promise about zero coins. */
  lemma NoZeroMeet(a: Coins, b: Coins)
    requires Sorted(a) && Sorted(b) && a != [] && b != [] && a[0].denom == b[0].denom
    requires NoZero(Plus(a[1..], b[1..])) <==> ZerosMeet(a[1..], b[1..]) && ZerosMeet(b[1..], a[1..])
    ensures NoZero(Plus(a, b)) <==> ZerosMeet(a, b) && ZerosMeet(b, a)
  {
    NoZeroBoth(a, b);
    NoZeroSum(Coin(a[0].denom, a[0].amount + b[0].amount), Plus(a[1..], b[1..]));
  }

  lemma NoZeroSum(x: Coin, rest: Coins)
    ensures NoZero((if x.amount == 0 then [] else [x]) + rest) <==> NoZero(rest)
  {
    NoZeroCons(x, rest);
    assert [] + rest == rest;
  }

  lemma NoZeroLeft(a: Coins, b: Coins)
    requires Sorted(a) && Sorted(b) && a != [] && b != [] && Less(a[0].denom, b[0].denom)
    requires NoZero(Plus(a[1..], b)) <==> ZerosMeet(a[1..], b) && ZerosMeet(b, a[1..])
    ensures NoZero(Plus(a, b)) <==> ZerosMeet(a, b) && ZerosMeet(b, a)
  {
    LessIrreflexive(a[0].denom);
    AboveHead(b, a[0].denom);
    NoZeroFirst(a, b);
    NoZeroCons(a[0], Plus(a[1..], b));
  }

  lemma NoZeroRight(a: Coins, b: Coins)
    requires Sorted(a) && Sorted(b) && a != [] && b != [] && a[0].denom != b[0].denom && !Less(a[0].denom, b[0].denom)
    requires NoZero(Plus(a, b[1..])) <==> ZerosMeet(a, b[1..]) && ZerosMeet(b[1..], a)
    ensures NoZero(Plus(a, b)) <==> ZerosMeet(a, b) && ZerosMeet(b, a)
  {
    LessTotal(a[0].denom, b[0].denom);
    AboveHead(a, b[0].denom);
    NoZeroFirst(b, a);
    NoZeroCons(b[0], Plus(a, b[1..]));
  }

  /** The source promises that a sum never contains a zero coin. For sorted operands that holds exactly
      when every zero coin among them meets its denomination in the other operand. */
  lemma {:induction false} NoZeroIff(a: Coins, b: Coins)
    requires Sorted(a) && Sorted(b)
    ensures NoZero(Plus(a, b)) <==> ZerosMeet(a, b) && ZerosMeet(b, a)
    decreases |a| + |b|
  {
    if a == [] || b == [] {
      NoZeroAlone(if a == [] then b else a);
    } else if a[0].denom == b[0].denom {
      SortedTail(a);
      SortedTail(b);
      NoZeroIff(a[1..], b[1..]);
      NoZeroMeet(a, b);
    } else if Less(a[0].denom, b[0].denom) {
      SortedTail(a);
      NoZeroIff(a[1..], b);
      NoZeroLeft(a, b);
    } else {
      SortedTail(b);
      NoZeroIff(a, b[1..]);
      NoZeroRight(a, b);
    }
  }

  /** A zero coin of one operand alone survives addition. */
  lemma ZeroCoinSurvives()
    ensures var zero := [Coin([97], 0)]; Sorted(zero) && Plus(zero, []) == zero && !NoZero(Plus(zero, []))
  {
    var zero := [Coin([97], 0)];
    assert zero[0].amount == 0;
  }

  lemma NoZeroAlone(c: Coins)
    ensures ZerosMeet(c, []) <==> NoZero(c)
  {
    forall i | 0 <= i < |c| ensures !HasDenom([], c[i].denom) {
    }
  }

  lemma NoZeroBoth(a: Coins, b: Coins)
    requires Sorted(a) && Sorted(b) && a != [] && b != [] && a[0].denom == b[0].denom
    ensures ZerosMeet(a, b) && ZerosMeet(b, a) <==> ZerosMeet(a[1..], b[1..]) && ZerosMeet(b[1..], a[1..])
  {
    ZerosMeetCons(a, b);
    ZerosMeetCons(b, a);
    HasDenomCons(a, b[0].denom);
    HasDenomCons(b, a[0].denom);
    ZerosMeetTail(a[1..], b);
    ZerosMeetTail(b[1..], a);
  }

  lemma NoZeroFirst(a: Coins, b: Coins)
    requires a != [] && Above(b, a[0].denom)
    ensures ZerosMeet(a, b) && ZerosMeet(b, a) <==> a[0].amount != 0 && ZerosMeet(a[1..], b) && ZerosMeet(b, a[1..])
  {
    ZerosMeetCons(a, b);
    ZerosMeetTail(b, a);
    AboveNotHas(b, a[0].denom);
  }

  // ---------------------------------------------------------------------------------------------
  // The operations as loops

  /** Every sum that the merge computes is a representable `Int`. */
  predicate SumsFit(a: Coins, b: Coins)
    decreases |a| + |b|
  {
    a == [] || b == [] ||
    if a[0].denom == b[0].denom then
      BigInts.Fits(BigInts.Signed, a[0].amount + b[0].amount) && SumsFit(a[1..], b[1..])
    else if Less(a[0].denom, b[0].denom) then SumsFit(a[1..], b)
    else SumsFit(a, b[1..])
  }

  /** `Coins.Plus` over `Int`: `None` is the panic of an overflowing addition. */
  method PlusCoins(a: Coins, b: Coins) returns (r: Option<Coins>)
    ensures r == if SumsFit(a, b) then Some(Plus(a, b)) else None
  {
    var sum: Coins := [];
    var i: nat, j: nat := 0, 0;
    while i < |a| && j < |b|
      invariant Merging(a, b, i, j, sum)
      decreases |a| - i + |b| - j
    {
      var ok;
      ok, i, j, sum := MergeOnce(a, b, i, j, sum);
      if !ok {
        return None;
      }
    }
    r := Some(if i == |a| then sum + b[j..] else sum + a[i..]);
  }

  /** `sum` is the result for the coins before `i` and `j`. */
  ghost predicate Merging(a: Coins, b: Coins, i: nat, j: nat, sum: Coins) {
    && i <= |a| && j <= |b|
    && sum + Plus(a[i..], b[j..]) == Plus(a, b)
    && (SumsFit(a[i..], b[j..]) <==> SumsFit(a, b))
  }

  method MergeOnce(a: Coins, b: Coins, i: nat, j: nat, sum: Coins) returns (ok: bool, i': nat, j': nat, sum': Coins)
    requires Merging(a, b, i, j, sum) && i < |a| && j < |b|
    ensures ok ==> Merging(a, b, i', j', sum') && i <= i' && j <= j' && i + j < i' + j'
    ensures !ok ==> !SumsFit(a, b)
  {
    var x, y := a[i], b[j];
    ok, i', j', sum' := true, i, j, sum;
    MergeStep(sum, a, b, i, j);
    var cmp := Compare(x.denom, y.denom);
    if cmp == -1 {
      sum', i' := sum + [x], i + 1;
    } else if cmp == 0 {
      var s := BigInts.Add(BigInts.Signed, x.amount, y.amount);
      if s.None? {
        ok := false;
        return;
      }
      sum' := if s.value == 0 then sum else sum + [Coin(x.denom, s.value)];
      i', j' := i + 1, j + 1;
    } else {
      sum', j' := sum + [y], j + 1;
    }
  }

  /** One round of the merge loop. */
  lemma MergeStep(sum: Coins, a: Coins, b: Coins, i: nat, j: nat)
    requires i < |a| && j < |b|
    ensures var x, y, p := a[i], b[j], sum + Plus(a[i..], b[j..]);
            if x.denom == y.denom then
              p == sum + (if x.amount + y.amount == 0 then [] else [Coin(x.denom,
                    x.amount + y.amount)]) + Plus(a[i + 1..], b[j + 1..])
            else if Less(x.denom, y.denom) then p == (sum + [x]) + Plus(a[i + 1..], b[j..])
            else p == (sum + [y]) + Plus(a[i..], b[j + 1..])
    ensures SumsFit(a[i..], b[j..]) <==>
            if a[i].denom == b[j].denom then
              BigInts.Fits(BigInts.Signed, a[i].amount + b[j].amount) && SumsFit(a[i + 1..], b[j + 1..])
            else if Less(a[i].denom, b[j].denom) then SumsFit(a[i + 1..], b[j..])
            else SumsFit(a[i..], b[j + 1..])
  {
    assert a[i..][1..] == a[i + 1..] && b[j..][1..] == b[j + 1..];
  }

  /** On sorted lists the additions made are those of the shared denominations. */
  lemma {:induction false} SumsFitIff(a: Coins, b: Coins)
    requires Sorted(a) && Sorted(b)
    ensures SumsFit(a, b) <==> SharedSumsFit(a, b)
    decreases |a| + |b|
  {
    if a != [] && b != [] {
      var x, y := a[0], b[0];
      SortedTail(a);
      SortedTail(b);
      forall d ensures HasDenom(a, d) <==> x.denom == d || HasDenom(a[1..], d) { HasDenomCons(a, d); }
      forall d ensures HasDenom(b, d) <==> y.denom == d || HasDenom(b[1..], d) { HasDenomCons(b, d); }
      if x.denom == y.denom {
        SumsFitIff(a[1..], b[1..]);
        AboveNotHas(a[1..], x.denom);
      } else if Less(x.denom, y.denom) {
        SumsFitIff(a[1..], b);
        AboveHead(b, x.denom);
        AboveNotHas(b, x.denom);
      } else {
        LessTotal(x.denom, y.denom);
        SumsFitIff(a, b[1..]);
        AboveHead(a, y.denom);
        AboveNotHas(a, y.denom);
      }
    }
  }

  lemma AboveNotHas(c: Coins, d: Bytes)
    requires Above(c, d)
    ensures !HasDenom(c, d)
  {
    LessIrreflexive(d);
  }

  method NegativeCoins(c: Coins) returns (r: Coins)
    ensures r == Negative(c)
  {
    r := [];
    NegativeAt(c);
    for i := 0 to |c|
      invariant r == Negative(c)[..i]
    {
      r := r + [Coin(c[i].denom, -c[i].amount)];
    }
  }

  /** `Coins.Minus` over `Int`: negation cannot overflow, the additions can. */
  method MinusCoins(a: Coins, b: Coins) returns (r: Option<Coins>)
    ensures r == if SumsFit(a, Negative(b)) then Some(Minus(a, b)) else None
  {
    var negative := NegativeCoins(b);
    r := PlusCoins(a, negative);
  }

  /** `Coins.IsGTE` over `Int`. */
  method IsGTECoins(a: Coins, b: Coins) returns (r: Option<bool>)
    ensures r == if SumsFit(a, Negative(b)) then Some(IsGTE(a, b)) else None
  {
    var diff := MinusCoins(a, b);
    if diff.None? {
      return None;
    }
    if |diff.value| == 0 {
      return Some(true);
    }
    for i := 0 to |diff.value|
      invariant forall j :: 0 <= j < i ==> diff.value[j].amount >= 0
    {
      if diff.value[i].amount < 0 {
        return Some(false);
      }
    }
    return Some(true);
  }

  lemma NegativeHasDenom(c: Coins, d: Bytes)
    ensures HasDenom(Negative(c), d) <==> HasDenom(c, d)
  {
    NegativeAt(c);
    forall i | 0 <= i < |c| ensures Negative(c)[i].denom == c[i].denom {
    }
  }

  /** The shared denominations have representable differences. */
  ghost predicate DifferencesFit(a: Coins, b: Coins) {
    forall d :: HasDenom(a, d) && HasDenom(b, d) ==> BigInts.Fits(BigInts.Signed, Amount(a, d) - Amount(b, d))
  }

  ghost predicate SharedSumsFit(a: Coins, b: Coins) {
    forall d :: HasDenom(a, d) && HasDenom(b, d) ==> BigInts.Fits(BigInts.Signed, Amount(a, d) + Amount(b, d))
  }

  lemma NegatedSumFits(a: Coins, b: Coins, d: Bytes)
    ensures HasDenom(Negative(b), d) <==> HasDenom(b, d)
    ensures Amount(a, d) + Amount(Negative(b), d) == Amount(a, d) - Amount(b, d)
  {
    NegativeHasDenom(b, d);
    NegativeAmount(b, d);
  }

  lemma NegatedSumsFit(a: Coins, b: Coins)
    ensures SharedSumsFit(a, Negative(b)) <==> DifferencesFit(a, b)
  {
    var n := Negative(b);
    forall d ensures HasDenom(n, d) <==> HasDenom(b, d)
      ensures Amount(a, d) + Amount(n, d) == Amount(a, d) - Amount(b, d)
    {
      NegatedSumFits(a, b, d);
    }
  }

  /** Subtraction and comparison of sorted lists panic exactly when the difference of a shared denomination is
      out of range. */
  lemma DifferencesFitIff(a: Coins, b: Coins)
    requires Sorted(a) && Sorted(b)
    ensures SumsFit(a, Negative(b)) <==> DifferencesFit(a, b)
  {
    NegativeSorted(b);
    SumsFitIff(a, Negative(b));
    NegatedSumsFit(a, b);
  }

  /** What `IsValid` accepts: with two or more coins the first amount is not tested for zero. */
  ghost predicate Valid(c: Coins) {
    Sorted(c) && NoZero(if |c| >= 2 then c[1..] else c)
  }

  method IsValid(c: Coins) returns (b: bool)
    ensures b <==> Valid(c)
  {
    if |c| == 0 {
      return true;
    } else if |c| == 1 {
      return c[0].amount != 0;
    }
    var low := c[0].denom;
    for i := 1 to |c|
      invariant low == c[i - 1].denom
      invariant Sorted(c[..i]) && forall j :: 1 <= j < i ==> c[j].amount != 0
    {
      if LessEq(c[i].denom, low) {
        LessIrreflexive(low);
        if Less(c[i].denom, low) {
          LessAsymmetric(c[i].denom, low);
        }
        return false;
      }
      if c[i].amount == 0 {
        assert c[1..][i - 1].amount == 0;
        return false;
      }
      LessTotal(low, c[i].denom);
      forall j | 0 <= j < i ensures Less(c[j].denom, c[i].denom) {
        if j < i - 1 {
          assert Less(c[..i][j].denom, c[..i][i - 1].denom);
          LessTransitive(c[j].denom, low, c[i].denom);
        }
      }
      low := c[i].denom;
    }
    assert c[..|c|] == c;
    b := true;
  }

  /** What the validity test accepts: canonical lists, and lists that only fail to be canonical by a
      zero amount in front of other coins. */
  lemma ValidIffCanonicalOrLeadingZero(c: Coins)
    ensures Valid(c)
       <==> Canonical(c) || (|c| >= 2 && c[0].amount == 0 && Sorted(c) && NoZero(c[1..]))
  {
    if c != [] {
      assert c == [c[0]] + c[1..];
      NoZeroCons(c[0], c[1..]);
    }
  }

  /** A list that the validity test accepts although its first amount is zero. */
  lemma LeadingZeroIsValid()
    ensures var c := [Coin([97], 0), Coin([98], 1)]; Valid(c) && !Canonical(c)
  {
    var c := [Coin([97], 0), Coin([98], 1)];
    assert c[0].amount == 0;
    assert Less([97], [98]);
  }

  method IsEqual(a: Coins, b: Coins) returns (r: bool)
    ensures r <==> a == b
  {
    if |a| != |b| {
      return false;
    }
    for i := 0 to |a|
      invariant a[..i] == b[..i]
    {
      if a[i].denom != b[i].denom || a[i].amount != b[i].amount {
        return false;
      }
    }
    assert a[..|a|] == a && b[..|b|] == b;
    r := true;
  }

  /** `AmountOf`: binary search. */
  function AmountOf(c: Coins, d: Bytes): int {
    if |c| == 0 then 0
    else if |c| == 1 then if c[0].denom == d then c[0].amount else 0
    else
      var mid := |c| / 2;
      if Less(d, c[mid].denom) then AmountOf(c[..mid], d)
      else if d == c[mid].denom then c[mid].amount
      else AmountOf(c[mid + 1..], d)
  }

  lemma {:induction false} AmountConcat(a: Coins, b: Coins, d: Bytes)
    ensures !HasDenom(b, d) ==> Amount(a + b, d) == Amount(a, d)
    ensures !HasDenom(a, d) ==> Amount(a + b, d) == Amount(b, d)
  {
    if a == [] {
      assert a + b == b;
      if !HasDenom(b, d) {
        AbsentIsZero(b, d);
      }
    } else {
      assert (a + b)[1..] == a[1..] + b;
      HasDenomCons(a, d);
      AmountConcat(a[1..], b, d);
    }
  }

  /** On sorted lists the binary search finds the amount. */
  lemma {:induction false} AmountOfIsAmount(c: Coins, d: Bytes)
    requires Sorted(c)
    ensures AmountOf(c, d) == Amount(c, d)
    decreases |c|
  {
    if |c| == 1 {
      assert c[1..] == [];
    } else if |c| > 1 {
      var mid := |c| / 2;
      if Less(d, c[mid].denom) {
        AmountOfIsAmount(c[..mid], d);
        AmountInLower(c, mid, d);
      } else if d == c[mid].denom {
        AmountAt(c, mid);
      } else {
        LessTotal(d, c[mid].denom);
        AmountOfIsAmount(c[mid + 1..], d);
        AmountInUpper(c, mid, d);
      }
    }
  }

  lemma AmountInLower(c: Coins, mid: nat, d: Bytes)
    requires Sorted(c) && mid < |c| && Less(d, c[mid].denom)
    ensures Amount(c, d) == Amount(c[..mid], d)
  {
    AboveHead(c[mid..], d);
    AboveNotHas(c[mid..], d);
    AmountConcat(c[..mid], c[mid..], d);
    assert c == c[..mid] + c[mid..];
  }

  lemma AmountInUpper(c: Coins, mid: nat, d: Bytes)
    requires Sorted(c) && mid < |c| && Less(c[mid].denom, d)
    ensures Amount(c, d) == Amount(c[mid + 1..], d)
  {
    BelowNotHas(c, mid, d);
    AmountConcat(c[..mid + 1], c[mid + 1..], d);
    assert c == c[..mid + 1] + c[mid + 1..];
  }

  lemma BelowNotHas(c: Coins, mid: nat, d: Bytes)
    requires Sorted(c) && mid < |c| && Less(c[mid].denom, d)
    ensures !HasDenom(c[..mid + 1], d)
  {
    forall i | 0 <= i <= mid ensures c[i].denom != d {
      if i < mid {
        LessTransitive(c[i].denom, c[mid].denom, d);
      }
      LessAsymmetric(c[i].denom, d);
    }
  }
}
