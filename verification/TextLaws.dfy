/** Exactly which texts parse as coins, and to what. */
module TextLaws {
  import opened ByteOrder
  import opened MachineInts
  import opened Coins
  import opened CoinText

  // ---------------------------------------------------------------------------------------------
  // Sorting

  /** No denomination comes before an earlier one. */
  ghost predicate Ordered(c: Coins) {
    forall i, j :: 0 <= i < j < |c| ==> !Less(c[j].denom, c[i].denom)
  }

  /** No coin has a denomination below the given one. */
  ghost predicate NoneBelow(c: Coins, d: Bytes) {
    forall i :: 0 <= i < |c| ==> !Less(c[i].denom, d)
  }

  lemma NotLessTransitive(a: Bytes, b: Bytes, c: Bytes)
    requires !Less(b, a) && !Less(c, b)
    ensures !Less(c, a)
  {
    if Less(c, a) {
      LessTotal(a, b);
      LessTotal(b, c);
      if a != b && b != c {
        LessTransitive(a, b, c);
        LessAsymmetric(a, c);
      }
    }
  }

  lemma OrderedCons(x: Coin, c: Coins)
    ensures Ordered([x] + c) <==> Ordered(c) && NoneBelow(c, x.denom)
  {
    var all := [x] + c;
    if Ordered(all) {
      forall i | 0 <= i < |c| ensures !Less(c[i].denom, x.denom) {
        assert all[0] == x && all[i + 1] == c[i];
      }
      forall i, j | 0 <= i < j < |c| ensures !Less(c[j].denom, c[i].denom) {
        assert all[i + 1] == c[i] && all[j + 1] == c[j];
      }
    }
  }

  lemma {:induction false} InsertKeepsCoins(x: Coin, c: Coins)
    ensures multiset(Insert(x, c)) == multiset(c) + multiset{x}
  {
    if c != [] {
      assert c == [c[0]] + c[1..];
      InsertKeepsCoins(x, c[1..]);
    }
  }

  lemma {:induction false} SortKeepsCoins(c: Coins)
    ensures multiset(Sort(c)) == multiset(c)
  {
    if c != [] {
      assert c == [c[0]] + c[1..];
      SortKeepsCoins(c[1..]);
      InsertKeepsCoins(c[0], Sort(c[1..]));
    }
  }

  lemma NoneBelowOf(a: Coins, b: Coins, x: Coin, d: Bytes)
    requires multiset(a) == multiset(b) + multiset{x} && NoneBelow(b, d) && !Less(x.denom, d)
    ensures NoneBelow(a, d)
  {
    forall i | 0 <= i < |a| ensures !Less(a[i].denom, d) {
      assert a[i] in multiset(a);
      assert a[i] in b || a[i] == x;
    }
  }

  lemma {:induction false} InsertOrdered(x: Coin, c: Coins)
    requires Ordered(c)
    ensures Ordered(Insert(x, c))
  {
    if c == [] {
    } else {
      assert c == [c[0]] + c[1..];
      OrderedCons(c[0], c[1..]);
      if Less(c[0].denom, x.denom) {
        InsertOrdered(x, c[1..]);
        InsertKeepsCoins(x, c[1..]);
        LessAsymmetric(c[0].denom, x.denom);
        NoneBelowOf(Insert(x, c[1..]), c[1..], x, c[0].denom);
        OrderedCons(c[0], Insert(x, c[1..]));
      } else {
        forall i | 0 <= i < |c| ensures !Less(c[i].denom, x.denom) {
          if i > 0 {
            NotLessTransitive(x.denom, c[0].denom, c[i].denom);
          }
        }
        OrderedCons(x, c);
      }
    }
  }

  /** Sorting orders the coins by denomination and keeps each of them. */
  lemma {:induction false} SortOrdered(c: Coins)
    ensures Ordered(Sort(c)) && multiset(Sort(c)) == multiset(c)
  {
    if c != [] {
      SortOrdered(c[1..]);
      InsertOrdered(c[0], Sort(c[1..]));
    }
    SortKeepsCoins(c);
  }

  // ---------------------------------------------------------------------------------------------
  // Lists with the same coins

  ghost predicate Distinct(c: Coins) {
    forall i, j :: 0 <= i < j < |c| ==> c[i].denom != c[j].denom
  }

  lemma {:induction false} DistinctCount(c: Coins, x: Coin)
    requires Distinct(c)
    ensures multiset(c)[x] <= 1
  {
    if c != [] {
      assert c == [c[0]] + c[1..];
      DistinctCount(c[1..], x);
      if c[0] == x {
        forall i | 0 <= i < |c| - 1 ensures c[1..][i] != x {
          assert c[1..][i] == c[i + 1];
        }
      }
    }
  }

  lemma CountTwice(c: Coins, i: nat, j: nat)
    requires i < j < |c| && c[i] == c[j]
    ensures multiset(c)[c[i]] >= 2
  {
    assert c == c[..j] + [c[j]] + c[j + 1..];
    assert c[..j][i] in multiset(c[..j]);
  }

  lemma DistinctKept(a: Coins, b: Coins)
    requires multiset(a) == multiset(b) && Distinct(a)
    ensures Distinct(b)
  {
    forall i, j | 0 <= i < j < |b| ensures b[i].denom != b[j].denom {
      DistinctCount(a, b[i]);
      if b[i] == b[j] {
        CountTwice(b, i, j);
      }
      assert b[i] in multiset(a) && b[j] in multiset(a);
      var k, l :| 0 <= k < |a| && 0 <= l < |a| && a[k] == b[i] && a[l] == b[j];
    }
  }

  lemma SortedIff(c: Coins)
    ensures Sorted(c) <==> Ordered(c) && Distinct(c)
  {
    forall i, j | 0 <= i < j < |c|
      ensures Less(c[i].denom, c[j].denom) <==> !Less(c[j].denom, c[i].denom) && c[i].denom != c[j].denom
    {
      LessTotal(c[i].denom, c[j].denom);
      if Less(c[i].denom, c[j].denom) {
        LessAsymmetric(c[i].denom, c[j].denom);
        LessIrreflexive(c[i].denom);
      }
    }
  }

  lemma TailMultiset(c: Coins)
    requires c != []
    ensures multiset(c[1..]) == multiset(c) - multiset{c[0]}
  {
    assert c == [c[0]] + c[1..];
  }

  lemma NothingLeft(a: Coins, b: Coins)
    requires multiset(a) == multiset(b) && a == []
    ensures b == []
  {
    assert |multiset(a)| == |a| && |multiset(b)| == |b|;
  }

  /** Only one sorted list has given coins. */
  lemma {:induction false} SortedUnique(a: Coins, b: Coins)
    requires Sorted(a) && Sorted(b) && multiset(a) == multiset(b)
    ensures a == b
  {
    if a == [] {
      NothingLeft(a, b);
    } else if b == [] {
      NothingLeft(b, a);
    } else {
      SameFirst(a, b);
      SortedTail(a);
      SortedTail(b);
      TailMultiset(a);
      TailMultiset(b);
      SortedUnique(a[1..], b[1..]);
      SameHalves(a, b);
    }
  }

  lemma SameHalves(a: Coins, b: Coins)
    requires a != [] && b != [] && a[0] == b[0] && a[1..] == b[1..]
    ensures a == b
  {
    assert a == [a[0]] + a[1..] && b == [b[0]] + b[1..];
  }

  lemma SameFirst(a: Coins, b: Coins)
    requires a != [] && b != [] && Sorted(a) && Sorted(b) && multiset(a) == multiset(b)
    ensures a[0] == b[0]
  {
    assert a[0] in multiset(b) && b[0] in multiset(a);
    var i, j :| 0 <= i < |b| && 0 <= j < |a| && b[i] == a[0] && a[j] == b[0];
    if i > 0 {
      LessAsymmetric(b[0].denom, b[i].denom);
    }
  }

  /** The sorted list is strictly sorted exactly when no denomination occurs twice. */
  lemma SortStrictIff(c: Coins)
    ensures Sorted(Sort(c)) <==> Distinct(c)
  {
    SortOrdered(c);
    SortedIff(Sort(c));
    if Distinct(c) {
      DistinctKept(c, Sort(c));
    }
    if Distinct(Sort(c)) {
      DistinctKept(Sort(c), c);
    }
  }

  /** Coins with different denominations and no zero amount, in any order, print to a text that parses, and that
      gives the one canonical list with these coins. */
  lemma ParseAnyOrder(c: Coins)
    requires Parseable(c) && Distinct(c) && NoZero(c)
    ensures Parsed(Print(c)).Some?
    ensures var r := Parsed(Print(c)).value; Canonical(r) && multiset(r) == multiset(c)
  {
    if c == [] {
      ParseNothing();
    } else {
      PrintedText(c);
      ParsedOf(Print(c), c);
      SortOrdered(c);
      SortStrictIff(c);
      NoZeroKept(c, Sort(c));
      ValidIffCanonicalOrLeadingZero(Sort(c));
    }
  }

  lemma NoZeroKept(a: Coins, b: Coins)
    requires multiset(a) == multiset(b) && NoZero(a)
    ensures NoZero(b)
  {
    forall i | 0 <= i < |b| ensures b[i].amount != 0 {
      assert b[i] in multiset(a);
      assert b[i] in a;
    }
  }

  // ---------------------------------------------------------------------------------------------
  // White space around a text

  /** One white space character. */
  ghost predicate IsBlank(w: Bytes) {
    (|w| == 1 && IsSpace(w[0])) || IsWideSpace(w)
  }

  ghost predicate AllBlank(cs: seq<Bytes>) {
    forall i :: 0 <= i < |cs| ==> IsBlank(cs[i])
  }

  function Concat(cs: seq<Bytes>): Bytes {
    if cs == [] then [] else Concat(cs[..|cs| - 1]) + cs[|cs| - 1]
  }

  /** White space characters and nothing else. */
  ghost predicate White(w: Bytes) {
    exists cs :: AllBlank(cs) && Concat(cs) == w
  }

  lemma {:induction false} ConcatAppend(a: seq<Bytes>, b: seq<Bytes>)
    ensures Concat(a + b) == Concat(a) + Concat(b)
    decreases |b|
  {
    if b == [] {
      assert a + b == a;
    } else {
      var n := |b| - 1;
      assert (a + b)[..|a| + n] == a + b[..n];
      ConcatAppend(a, b[..n]);
    }
  }

  lemma ConcatOne(x: Bytes)
    ensures Concat([x]) == x
  {
    assert [x][..0] == [];
  }

  lemma BlankStart(x: Bytes, s: Bytes)
    requires IsBlank(x)
    ensures SpaceAtStart(x + s) == |x|
  {
    var t := x + s;
    assert t[..|x|] == x;
    assert |t| >= 2 && |x| == 3 ==> t[..2][0] == x[0];
  }

  lemma BlankEnd(s: Bytes, x: Bytes)
    requires IsBlank(x)
    ensures SpaceAtEnd(s + x) == |x|
  {
    var t := s + x;
    assert t[|t| - |x|..] == x && t[|t| - 1] == x[|x| - 1];
    if |x| == 3 {
      assert Last(t, 2) == x[1..];
    }
  }

  lemma {:induction false} TrimStartSkips(cs: seq<Bytes>, s: Bytes)
    requires AllBlank(cs)
    ensures TrimStart(Concat(cs) + s) == TrimStart(s)
    decreases |cs|
  {
    if cs == [] {
      assert [] + s == s;
    } else {
      var n := |cs| - 1;
      assert Concat(cs) + s == Concat(cs[..n]) + (cs[n] + s);
      TrimStartSkips(cs[..n], cs[n] + s);
      BlankStart(cs[n], s);
      assert (cs[n] + s)[|cs[n]|..] == s;
    }
  }

  lemma {:induction false} TrimEndSkips(s: Bytes, cs: seq<Bytes>)
    requires AllBlank(cs)
    ensures TrimEnd(s + Concat(cs)) == TrimEnd(s)
    decreases |cs|
  {
    if cs == [] {
      assert s + [] == s;
    } else {
      var n := |cs| - 1;
      var t := s + Concat(cs[..n]);
      assert s + Concat(cs) == t + cs[n];
      BlankEnd(t, cs[n]);
      assert (t + cs[n])[..|t|] == t;
      TrimEndSkips(s, cs[..n]);
    }
  }

  lemma StartIsBlank(s: Bytes)
    requires SpaceAtStart(s) > 0
    ensures IsBlank(s[..SpaceAtStart(s)])
  {
    assert |s| >= 1 ==> s[..1] == [s[0]];
  }

  lemma EndIsBlank(s: Bytes)
    requires SpaceAtEnd(s) > 0
    ensures IsBlank(s[|s| - SpaceAtEnd(s)..])
  {
    assert |s| >= 1 ==> s[|s| - 1..] == [s[|s| - 1]];
  }

  /** The last character of white space, put back. */
  lemma EndPutBack(s: Bytes, m: nat, t: Bytes, cs: seq<Bytes>)
    requires m <= |s| && s[..m] == t + Concat(cs)
    ensures s == t + Concat(cs + [s[m..]])
  {
    ConcatAppend(cs, [s[m..]]);
    ConcatOne(s[m..]);
    Associative(t, Concat(cs), s[m..]);
    assert s == s[..m] + s[m..];
  }

  lemma StartPutBack(s: Bytes, n: nat, t: Bytes, cs: seq<Bytes>)
    requires n <= |s| && s[n..] == Concat(cs) + t
    ensures s == Concat([s[..n]] + cs) + t
  {
    ConcatAppend([s[..n]], cs);
    ConcatOne(s[..n]);
    Associative(s[..n], Concat(cs), t);
    assert s == s[..n] + s[n..];
  }

  lemma {:induction false} TrimStartIs(s: Bytes) returns (cs: seq<Bytes>)
    ensures AllBlank(cs) && s == Concat(cs) + TrimStart(s)
    decreases |s|
  {
    var n := SpaceAtStart(s);
    cs := [];
    if n == 0 {
      assert [] + s == s;
    } else {
      StartIsBlank(s);
      var rest := TrimStartIs(s[n..]);
      StartPutBack(s, n, TrimStart(s), rest);
      BlankMore(rest, s[..n]);
      cs := [s[..n]] + rest;
    }
  }

  lemma TrimEndStep(s: Bytes)
    requires SpaceAtEnd(s) > 0
    ensures TrimEnd(s) == TrimEnd(s[..|s| - SpaceAtEnd(s)])
  {
  }

  lemma BlankMore(cs: seq<Bytes>, x: Bytes)
    requires AllBlank(cs) && IsBlank(x)
    ensures AllBlank(cs + [x]) && AllBlank([x] + cs)
  {
  }

  lemma {:induction false} TrimEndIs(s: Bytes) returns (cs: seq<Bytes>)
    ensures AllBlank(cs) && s == TrimEnd(s) + Concat(cs)
    decreases |s|
  {
    var n := SpaceAtEnd(s);
    cs := [];
    if n == 0 {
      assert s + [] == s;
    } else {
      var m := |s| - n;
      EndIsBlank(s);
      TrimEndStep(s);
      var rest := TrimEndIs(s[..m]);
      EndPutBack(s, m, TrimEnd(s), rest);
      BlankMore(rest, s[m..]);
      cs := rest + [s[m..]];
    }
  }

  /** Trimming takes white space off both ends. */
  lemma TrimIs(s: Bytes) returns (before: Bytes, after: Bytes)
    ensures White(before) && White(after) && s == before + Trim(s) + after
  {
    var bs := TrimStartIs(s);
    var cs := TrimEndIs(TrimStart(s));
    before, after := Concat(bs), Concat(cs);
    Associative(before, Trim(s), after);
  }

  /** And all of it. */
  lemma TrimAround(before: Bytes, s: Bytes, after: Bytes)
    requires White(before) && White(after) && s != [] && IsInk(s[0]) && IsInk(s[|s| - 1])
    ensures Trim(before + s + after) == s
  {
    var bs :| AllBlank(bs) && Concat(bs) == before;
    var cs :| AllBlank(cs) && Concat(cs) == after;
    assert before + s + after == before + (s + after);
    TrimStartSkips(bs, s + after);
    NoSpaceAtStart(s + after);
    TrimEndSkips(s, cs);
    NoSpaceAtEnd(s);
  }

  lemma TrimsToNothing(s: Bytes)
    requires White(s)
    ensures Trim(s) == []
  {
    var cs :| AllBlank(cs) && Concat(cs) == s;
    TrimStartSkips(cs, []);
    assert s + [] == s;
    assert TrimStart([]) == [] && TrimEnd([]) == [];
  }

  lemma BlankIff(s: Bytes)
    ensures Trim(s) == [] <==> White(s)
  {
    if Trim(s) == [] {
      var bs := TrimStartIs(s);
      var cs := TrimEndIs(TrimStart(s));
      ConcatAppend(bs, cs);
      assert Concat(cs) == [] + Concat(cs);
      assert AllBlank(bs + cs) && Concat(bs + cs) == s;
    } else if White(s) {
      TrimsToNothing(s);
    }
  }

  // ---------------------------------------------------------------------------------------------
  // Decimals

  function Pow10(n: nat): nat {
    if n == 0 then 1 else 10 * Pow10(n - 1)
  }

  /** The first digit of `n + 1` counts for `10^n`. */
  lemma {:induction false} ValueOfCons(x: byte, s: Bytes)
    ensures Value([x] + s) == (x as int - 48) * Pow10(|s|) + Value(s)
  {
    var t := [x] + s;
    if s == [] {
      assert t[..0] == [];
      assert Value(t) == Value(t[..0]) * 10 + (t[0] as int - 48);
    } else {
      var n := |s| - 1;
      assert t[..n + 1] == [x] + s[..n] && t[n + 1] == s[n];
      ValueOfCons(x, s[..n]);
      TimesTen(x as int - 48, Pow10(n));
    }
  }

  lemma TimesTen(a: int, b: int)
    ensures (a * b) * 10 == a * (10 * b)
  {
  }

  /** Digits are what the decimal value of their text gives back. */
  lemma DecimalDigits(n: nat)
    ensures Value(Digits(n)) == n && AllDigits(Digits(n)) && (|Digits(n)| > 1 ==> Digits(n)[0] != 48)
  {
    DigitsValue(n);
    NoLeadingZero(n);
  }

  lemma {:induction false} NoLeadingZero(n: nat)
    ensures Digits(n) != [] && (n > 0 ==> Digits(n)[0] != 48) && (n == 0 ==> Digits(n) == [48])
  {
    if n >= 10 {
      NoLeadingZero(n / 10);
    }
  }

  // ---------------------------------------------------------------------------------------------
  // One coin

  ghost predicate AllSpace(w: Bytes) {
    forall i :: 0 <= i < |w| ==> IsSpace(w[i])
  }

  /** The text is digits, ASCII white space and the denomination, with white space around. */
  ghost predicate Spells(text: Bytes, c: Coin, before: Bytes, digits: Bytes, space: Bytes, after: Bytes) {
    && text == before + (digits + space + c.denom) + after && White(before) && White(after) && AllSpace(space)
    && digits != [] && AllDigits(digits) && Value(digits) == c.amount && IsInt64(c.amount) && DenomOk(c.denom)
  }

  lemma {:induction false} SkipSpaceOver(w: Bytes, s: Bytes)
    requires AllSpace(w) && s != [] && !IsSpace(s[0])
    ensures SkipSpace(w + s) == s
  {
    if w == [] {
      assert w + s == s;
    } else {
      assert (w + s)[1..] == w[1..] + s;
      SkipSpaceOver(w[1..], s);
    }
  }

  lemma {:induction false} SkipSpaceIs(s: Bytes) returns (w: Bytes)
    ensures AllSpace(w) && s == w + SkipSpace(s)
  {
    w := [];
    if s != [] && IsSpace(s[0]) {
      var v := SkipSpaceIs(s[1..]);
      w := [s[0]] + v;
      assert s == [s[0]] + s[1..];
    }
  }

  lemma SpelledParses(text: Bytes, c: Coin, before: Bytes, digits: Bytes, space: Bytes, after: Bytes)
    requires Spells(text, c, before, digits, space, after)
    ensures ParseCoin(text) == Some(c)
  {
    var s, rest := digits + space + c.denom, space + c.denom;
    assert s == digits + rest && s[0] == digits[0] && s[|s| - 1] == c.denom[|c.denom| - 1];
    TrimAround(before, s, after);
    LeadingOf(digits, rest);
    assert s[..|digits|] == digits && s[|digits|..] == rest;
    SkipSpaceOver(space, c.denom);
  }

  /** Digits, white space and the rest. */
  lemma SpellingOf(s: Bytes) returns (digits: Bytes, space: Bytes)
    ensures digits == s[..LeadingDigits(s)] && AllDigits(digits) && AllSpace(space)
    ensures s == digits + space + SkipSpace(s[LeadingDigits(s)..])
  {
    var n := LeadingDigits(s);
    LeadingAreDigits(s);
    digits := s[..n];
    space := SkipSpaceIs(s[n..]);
    Associative(digits, space, SkipSpace(s[n..]));
    assert s == s[..n] + s[n..];
  }

  lemma ParsedSpells(text: Bytes) returns (before: Bytes, digits: Bytes, space: Bytes, after: Bytes)
    requires ParseCoin(text).Some?
    ensures Spells(text, ParseCoin(text).value, before, digits, space, after)
  {
    before, after := TrimIs(text);
    digits, space := SpellingOf(Trim(text));
  }

  /** A text parses as a coin if and only if it is digits that fit in 64 bits, white space and a well-formed
      denomination, with any white space around; the digits are the amount. */
  lemma ParseCoinIff(text: Bytes, c: Coin)
    ensures ParseCoin(text) == Some(c) <==>
            exists before, digits, space, after :: Spells(text, c, before, digits, space, after)
  {
    if ParseCoin(text) == Some(c) {
      var before, digits, space, after := ParsedSpells(text);
    }
    forall before, digits, space, after | Spells(text, c, before, digits, space, after)
      ensures ParseCoin(text) == Some(c)
    {
      SpelledParses(text, c, before, digits, space, after);
    }
  }

  // ---------------------------------------------------------------------------------------------
  // A list of coins

  ghost predicate NoCommas(parts: seq<Bytes>) {
    forall i :: 0 <= i < |parts| ==> NoComma(parts[i])
  }

  /** Splitting at commas is undone by joining with them. */
  lemma {:induction false} SplitIs(s: Bytes)
    ensures NoCommas(Split(s)) && Join(Split(s)) == s
  {
    if s != [] {
      SplitIs(s[1..]);
      var r := Split(s[1..]);
      if s[0] == COMMA {
        assert ([[]] + r)[1..] == r;
        assert [] + [COMMA] + Join(r) == s;
      } else {
        JoinFirst([s[0]], r);
      }
    }
  }

  /** Text in front of the first part. */
  lemma JoinFirst(x: Bytes, r: seq<Bytes>)
    requires r != []
    ensures Join([x + r[0]] + r[1..]) == x + Join(r)
  {
    var longer := [x + r[0]] + r[1..];
    assert longer[1..] == r[1..];
    if |r| > 1 {
      Associative(x, r[0] + [COMMA], Join(r[1..]));
      Associative(x, r[0], [COMMA]);
    }
  }

  lemma {:induction false} SplitUnique(parts: seq<Bytes>)
    requires parts != [] && NoCommas(parts)
    ensures Split(Join(parts)) == parts
  {
    assert NoComma(parts[0]);
    if |parts| == 1 {
      SplitFirst(parts[0], []);
    } else {
      SplitUnique(parts[1..]);
      SplitFirst(parts[0], Join(parts[1..]));
    }
  }

  ghost predicate PartsAre(parts: seq<Bytes>, c: Coins) {
    |parts| == |c| && forall i :: 0 <= i < |parts| ==> ParseCoin(parts[i]) == Some(c[i])
  }

  lemma {:induction false} ParseEachIff(parts: seq<Bytes>, c: Coins)
    ensures ParseEach(parts) == Some(c) <==> PartsAre(parts, c)
  {
    if parts == [] {
      assert PartsAre(parts, c) <==> c == [];
    } else if c != [] {
      ParseEachIff(parts[1..], c[1..]);
      assert c == [c[0]] + c[1..];
      EachTail(parts, c);
    }
  }

  lemma EachTail(parts: seq<Bytes>, c: Coins)
    requires parts != [] && c != []
    ensures PartsAre(parts, c) <==> ParseCoin(parts[0]) == Some(c[0]) && PartsAre(parts[1..], c[1..])
  {
    if ParseCoin(parts[0]) == Some(c[0]) && PartsAre(parts[1..], c[1..]) {
      forall i | 0 <= i < |parts| ensures ParseCoin(parts[i]) == Some(c[i]) {
        assert i > 0 ==> parts[1..][i - 1] == parts[i] && c[1..][i - 1] == c[i];
      }
    }
  }

  /** The text, without white space around, is comma-separated coins, which `r` lists in order. */
  ghost predicate Lists(text: Bytes, r: Coins, parts: seq<Bytes>, c: Coins) {
    && parts != [] && NoCommas(parts) && Join(parts) == Trim(text) && PartsAre(parts, c)
    && Valid(r) && multiset(r) == multiset(c)
  }

  /** A text parses as a list of coins if and only if it is blank, for the empty list, or consists of comma-separated
      coins with different denominations; the result is the valid list of them, whatever their order. */
  lemma ParsedIff(text: Bytes, r: Coins)
    ensures Parsed(text) == Some(r) <==>
            if White(text) then r == [] else exists parts, c :: Lists(text, r, parts, c)
  {
    var s := Trim(text);
    BlankIff(text);
    if s != [] {
      SplitIs(s);
      if Parsed(text) == Some(r) {
        var c := ParseEach(Split(s)).value;
        ParseEachIff(Split(s), c);
        SortOrdered(c);
        assert Lists(text, r, Split(s), c);
      }
      forall parts, c | Lists(text, r, parts, c) ensures Parsed(text) == Some(r) {
        SplitUnique(parts);
        ParseEachIff(parts, c);
        SortFinds(c, r);
      }
    }
  }

  lemma SortFinds(c: Coins, r: Coins)
    requires Sorted(r) && multiset(r) == multiset(c)
    ensures Sort(c) == r
  {
    SortOrdered(c);
    SortedIff(r);
    DistinctKept(r, c);
    SortStrictIff(c);
    SortedUnique(Sort(c), r);
  }
}
