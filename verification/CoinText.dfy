/** Printing and parsing of coins. Text is a string of UTF-8 bytes. */
module CoinText {
  import opened ByteOrder
  import opened MachineInts
  import opened Coins

  const COMMA: byte := 44

  predicate IsDigit(b: byte) {
    48 <= b <= 57
  }

  predicate IsAlpha(b: byte) {
    65 <= b <= 90 || 97 <= b <= 122
  }

  predicate IsSpace(b: byte) {
    9 <= b <= 13 || b == 32
  }

  /** The pattern `[[:alpha:]][[:alnum:]]{2,15}`. */
  predicate DenomOk(d: Bytes) {
    3 <= |d| <= 16 && IsAlpha(d[0]) && forall i :: 1 <= i < |d| ==> IsAlpha(d[i]) || IsDigit(d[i])
  }

  // ---------------------------------------------------------------------------------------------
  // Printing

  /** The decimal digits of a number. */
  function Digits(n: nat): Bytes {
    if n < 10 then [48 + n] else Digits(n / 10) + [48 + n % 10]
  }

  function PrintCoin(c: Coin): Bytes {
    (if c.amount < 0 then [45] + Digits(-c.amount) else Digits(c.amount)) + c.denom
  }

  function Texts(c: Coins): (t: seq<Bytes>)
    ensures |t| == |c|
  {
    if c == [] then [] else [PrintCoin(c[0])] + Texts(c[1..])
  }

  function Join(parts: seq<Bytes>): Bytes
    requires parts != []
  {
    if |parts| == 1 then parts[0] else parts[0] + [COMMA] + Join(parts[1..])
  }

  /** `Coins.String`: the coins separated by commas. */
  function Print(c: Coins): Bytes {
    if c == [] then [] else Join(Texts(c))
  }

  /** The loop of `Coins.String`, which appends a comma after every coin and cuts off the last one. */
  method PrintLoop(c: Coins) returns (out: Bytes)
    ensures out == Print(c)
  {
    if |c| == 0 {
      return [];
    }
    out := [];
    assert c[0..] == c;
    for i := 0 to |c|
      invariant out + WithCommas(c[i..]) == WithCommas(c)
    {
      assert c[i..][1..] == c[i + 1..];
      out := AppendText(out, c, i);
    }
    WithCommasIsPrint(c);
    assert WithCommas(c[|c|..]) == [] && out + [] == out;
    out := out[..|out| - 1];
  }

  /** Every coin followed by a comma. */
  function WithCommas(c: Coins): Bytes {
    if c == [] then [] else PrintCoin(c[0]) + [COMMA] + WithCommas(c[1..])
  }

  method AppendText(out: Bytes, c: Coins, i: nat) returns (r: Bytes)
    requires i < |c|
    ensures r + WithCommas(c[i + 1..]) == out + WithCommas(c[i..])
  {
    assert c[i..][1..] == c[i + 1..];
    r := out + (PrintCoin(c[i]) + [COMMA]);
    Associative(out, PrintCoin(c[i]) + [COMMA], WithCommas(c[i + 1..]));
  }

  lemma Associative(a: Bytes, b: Bytes, c: Bytes)
    ensures (a + b) + c == a + (b + c)
  {
  }

  lemma {:induction false} WithCommasIsPrint(c: Coins)
    requires c != []
    ensures WithCommas(c) == Print(c) + [COMMA]
  {
    assert Texts(c)[1..] == Texts(c[1..]);
    if |c| == 1 {
      assert WithCommas(c[1..]) == [];
    } else {
      WithCommasIsPrint(c[1..]);
      Associative(PrintCoin(c[0]) + [COMMA], Print(c[1..]), [COMMA]);
    }
  }

  // ---------------------------------------------------------------------------------------------
  // Parsing

  /** The encodings of the white space outside ASCII: U+0085, U+00A0, U+1680, U+2000 to U+200A, U+2028,
      U+2029, U+202F, U+205F and U+3000. */
  predicate IsWideSpace(w: Bytes) {
    || (|w| == 2 && w[0] == 0xC2 && (w[1] == 0x85 || w[1] == 0xA0))
    || (|w| == 3 && w[0] == 0xE1 && w[1] == 0x9A && w[2] == 0x80)
    || (|w| == 3 && w[0] == 0xE2 && w[1] == 0x80 && (0x80 <= w[2] <= 0x8A || 0xA8 <= w[2] <= 0xA9 || w[2] == 0xAF))
    || (|w| == 3 && w[0] == 0xE2 && w[1] == 0x81 && w[2] == 0x9F)
    || (|w| == 3 && w[0] == 0xE3 && w[1] == 0x80 && w[2] == 0x80)
  }

  /** The length of the white space character at the start, or zero. */
  function SpaceAtStart(s: Bytes): (n: nat)
    ensures n <= |s|
  {
    if |s| >= 1 && IsSpace(s[0]) then 1
    else if |s| >= 2 && IsWideSpace(s[..2]) then 2
    else if |s| >= 3 && IsWideSpace(s[..3]) then 3
    else 0
  }

  function Last(s: Bytes, n: nat): (t: Bytes)
    requires 1 <= n <= |s|
    ensures |t| == n && t[n - 1] == s[|s| - 1]
  {
    s[|s| - n..]
  }

  function SpaceAtEnd(s: Bytes): (n: nat)
    ensures n <= |s|
  {
    if |s| >= 1 && IsSpace(s[|s| - 1]) then 1
    else if |s| >= 2 && IsWideSpace(Last(s, 2)) then 2
    else if |s| >= 3 && IsWideSpace(Last(s, 3)) then 3
    else 0
  }

  function TrimStart(s: Bytes): Bytes {
    var n := SpaceAtStart(s);
    if n == 0 then s else TrimStart(s[n..])
  }

  function TrimEnd(s: Bytes): Bytes {
    var n := SpaceAtEnd(s);
    if n == 0 then s else TrimEnd(s[..|s| - n])
  }

  /** `strings.TrimSpace`. */
  function Trim(s: Bytes): Bytes {
    TrimEnd(TrimStart(s))
  }

  /** The pattern `[[:space:]]*`, which knows ASCII white space only. */
  function SkipSpace(s: Bytes): Bytes {
    if s != [] && IsSpace(s[0]) then SkipSpace(s[1..]) else s
  }

  /** The number of leading digits. */
  function LeadingDigits(s: Bytes): (n: nat)
    ensures n <= |s|
  {
    if s == [] || !IsDigit(s[0]) then 0 else 1 + LeadingDigits(s[1..])
  }

  /** The value of a digit string, most significant digit first. */
  function Value(s: Bytes): int {
    if s == [] then 0 else Value(s[..|s| - 1]) * 10 + (s[|s| - 1] as int - 48)
  }

  /** `ParseCoin`: digits, white space, denomination; the amount must fit in 64 bits. A denomination
      starts with a letter, so the digits before it are all of the leading ones. */
  function ParseCoin(text: Bytes): Option<Coin> {
    var s := Trim(text);
    var n := LeadingDigits(s);
    var d := SkipSpace(s[n..]);
    if n == 0 || !DenomOk(d) || !IsInt64(Value(s[..n])) then None
    else Some(Coin(d, Value(s[..n])))
  }

  function Split(s: Bytes): (r: seq<Bytes>)
    ensures r != []
  {
    if s == [] then [[]]
    else
      var r := Split(s[1..]);
      if s[0] == COMMA then [[]] + r else [[s[0]] + r[0]] + r[1..]
  }

  function ParseEach(parts: seq<Bytes>): Option<Coins> {
    if parts == [] then Some([])
    else
      var first, rest := ParseCoin(parts[0]), ParseEach(parts[1..]);
      if first.None? || rest.None? then None else Some([first.value] + rest.value)
  }

  function Insert(x: Coin, c: Coins): Coins {
    if c == [] || !Less(c[0].denom, x.denom) then [x] + c else [c[0]] + Insert(x, c[1..])
  }

  /** Sorting by denomination. */
  function Sort(c: Coins): Coins {
    if c == [] then [] else Insert(c[0], Sort(c[1..]))
  }

  ghost function Parsed(text: Bytes): Option<Coins> {
    var s := Trim(text);
    if s == [] then Some([])
    else
      var c := ParseEach(Split(s));
      if c.None? || !Valid(Sort(c.value)) then None else Some(Sort(c.value))
  }

  /** `ParseCoins`. */
  method ParseCoins(text: Bytes) returns (r: Option<Coins>)
    ensures r == Parsed(text)
  {
    var s := Trim(text);
    if |s| == 0 {
      return Some([]);
    }
    var parsed := ParseParts(Split(s));
    if parsed.None? {
      return None;
    }
    var coins := Sort(parsed.value);
    var ok := IsValid(coins);
    r := if ok then Some(coins) else None;
  }

  /** The loop over the comma-separated parts. */
  method ParseParts(parts: seq<Bytes>) returns (r: Option<Coins>)
    ensures r == ParseEach(parts)
  {
    var coins: Coins := [];
    assert parts[0..] == parts;
    assert ParseEach(parts).Some? ==> [] + ParseEach(parts).value == ParseEach(parts).value;
    for i := 0 to |parts|
      invariant ParseEach(parts) ==
                if ParseEach(parts[i..]).None? then None else Some(coins + ParseEach(parts[i..]).value)
    {
      assert parts[i..][1..] == parts[i + 1..];
      var c := ParseCoin(parts[i]);
      if c.None? {
        return None;
      }
      ghost var rest := ParseEach(parts[i + 1..]);
      assert rest.Some? ==> coins + ([c.value] + rest.value) == (coins + [c.value]) + rest.value;
      coins := coins + [c.value];
    }
    assert parts[|parts|..] == [] && coins + [] == coins;
    r := Some(coins);
  }

  // ---------------------------------------------------------------------------------------------
  // Parsing inverts printing

  /** A coin that `ParseCoin` can express. */
  ghost predicate Expressible(c: Coin) {
    0 <= c.amount && IsInt64(c.amount) && DenomOk(c.denom)
  }

  ghost predicate AllDigits(s: Bytes) {
    forall i :: 0 <= i < |s| ==> IsDigit(s[i])
  }

  lemma {:induction false} DigitsValue(n: nat)
    ensures Digits(n) != [] && AllDigits(Digits(n)) && Value(Digits(n)) == n
  {
    if n >= 10 {
      DigitsValue(n / 10);
      assert Digits(n)[..|Digits(n)| - 1] == Digits(n / 10);
    } else {
      assert Digits(n)[..0] == [];
    }
  }

  lemma {:induction false} LeadingOf(x: Bytes, y: Bytes)
    requires AllDigits(x) && (y == [] || !IsDigit(y[0]))
    ensures LeadingDigits(x + y) == |x|
  {
    if x == [] {
      assert x + y == y;
    } else {
      assert (x + y)[1..] == x[1..] + y;
      LeadingOf(x[1..], y);
    }
  }

  /** An ASCII character that is not white space. */
  predicate IsInk(b: byte) {
    b < 128 && !IsSpace(b)
  }

  lemma AsciiIsNotWide(w: Bytes)
    requires w != [] && (w[0] < 128 || w[|w| - 1] < 128)
    ensures !IsWideSpace(w)
  {
  }

  lemma NoSpaceAtStart(s: Bytes)
    requires s != [] && IsInk(s[0])
    ensures SpaceAtStart(s) == 0
  {
    if |s| >= 2 {
      AsciiIsNotWide(s[..2]);
    }
    if |s| >= 3 {
      AsciiIsNotWide(s[..3]);
    }
  }

  lemma NoSpaceAtEnd(s: Bytes)
    requires s != [] && IsInk(s[|s| - 1])
    ensures SpaceAtEnd(s) == 0
  {
    if |s| >= 2 {
      AsciiIsNotWide(Last(s, 2));
    }
    if |s| >= 3 {
      AsciiIsNotWide(Last(s, 3));
    }
  }

  lemma TrimNothing(s: Bytes)
    requires s != [] && IsInk(s[0]) && IsInk(s[|s| - 1])
    ensures Trim(s) == s
  {
    NoSpaceAtStart(s);
    NoSpaceAtEnd(s);
  }

  lemma ParsePrintedCoin(c: Coin)
    requires Expressible(c)
    ensures ParseCoin(PrintCoin(c)) == Some(c)
  {
    var ds, s := Digits(c.amount), PrintCoin(c);
    DigitsValue(c.amount);
    assert s == ds + c.denom && s[0] == ds[0] && s[|s| - 1] == c.denom[|c.denom| - 1];
    TrimNothing(s);
    LeadingOf(ds, c.denom);
    assert s[..|ds|] == ds && s[|ds|..] == c.denom;
    assert SkipSpace(c.denom) == c.denom;
  }

  ghost predicate NoComma(s: Bytes) {
    forall i :: 0 <= i < |s| ==> s[i] != COMMA
  }

  lemma PrintedCoinShape(c: Coin)
    requires Expressible(c)
    ensures Clean(PrintCoin(c))
  {
    DigitsValue(c.amount);
    var ds := Digits(c.amount);
    assert PrintCoin(c) == ds + c.denom;
    forall i | 0 <= i < |PrintCoin(c)| ensures PrintCoin(c)[i] != COMMA {
      assert i < |ds| ==> PrintCoin(c)[i] == ds[i];
      assert i >= |ds| ==> PrintCoin(c)[i] == c.denom[i - |ds|];
    }
  }

  lemma {:induction false} SplitFirst(x: Bytes, rest: Bytes)
    requires NoComma(x)
    ensures Split(x + [COMMA] + rest) == [x] + Split(rest)
    ensures Split(x) == [x]
  {
    var s := x + [COMMA] + rest;
    if x == [] {
      assert s[1..] == rest;
    } else {
      assert s[1..] == x[1..] + [COMMA] + rest;
      SplitFirst(x[1..], rest);
      assert [x[0]] + x[1..] == x;
    }
  }

  ghost predicate Clean(t: Bytes) {
    NoComma(t) && t != [] && IsInk(t[0]) && IsInk(t[|t| - 1])
  }

  lemma {:induction false} SplitJoin(parts: seq<Bytes>)
    requires parts != [] && forall i :: 0 <= i < |parts| ==> Clean(parts[i])
    ensures Split(Join(parts)) == parts
    ensures Join(parts) != [] && IsInk(Join(parts)[0]) && IsInk(Join(parts)[|Join(parts)| - 1])
  {
    assert Clean(parts[0]);
    if |parts| == 1 {
      SplitFirst(parts[0], []);
    } else {
      SplitJoin(parts[1..]);
      SplitFirst(parts[0], Join(parts[1..]));
    }
  }

  lemma {:induction false} TextsParse(c: Coins)
    requires forall i :: 0 <= i < |c| ==> Expressible(c[i])
    ensures forall i :: 0 <= i < |c| ==> Clean(Texts(c)[i])
    ensures ParseEach(Texts(c)) == Some(c)
  {
    if c != [] {
      PrintedCoinShape(c[0]);
      ParsePrintedCoin(c[0]);
      TextsParse(c[1..]);
      ParseEachCons(PrintCoin(c[0]), Texts(c[1..]));
      assert [c[0]] + c[1..] == c;
    }
  }

  lemma ParseEachCons(x: Bytes, rest: seq<Bytes>)
    requires ParseCoin(x).Some? && ParseEach(rest).Some?
    ensures ParseEach([x] + rest) == Some([ParseCoin(x).value] + ParseEach(rest).value)
  {
    assert ([x] + rest)[1..] == rest;
  }

  lemma {:induction false} SortSorted(c: Coins)
    requires Sorted(c)
    ensures Sort(c) == c
  {
    if c != [] {
      SortedTail(c);
      SortSorted(c[1..]);
      if c[1..] != [] {
        LessAsymmetric(c[0].denom, c[1].denom);
      }
      assert c == [c[0]] + c[1..];
    }
  }

  lemma ParsedOf(text: Bytes, c: Coins)
    requires text != [] && Trim(text) == text && ParseEach(Split(text)) == Some(c)
    ensures Parsed(text) == if Valid(Sort(c)) then Some(Sort(c)) else None
  {
  }

  lemma ParseNothing()
    ensures Parsed([]) == Some([])
  {
    assert TrimStart([]) == [] && TrimEnd([]) == [];
  }

  lemma PrintedText(c: Coins)
    requires c != [] && forall i :: 0 <= i < |c| ==> Expressible(c[i])
    ensures Print(c) != [] && Trim(Print(c)) == Print(c) && ParseEach(Split(Print(c))) == Some(c)
  {
    TextsParse(c);
    SplitJoin(Texts(c));
    TrimNothing(Print(c));
  }

  /** Parsing the printed form of valid, expressible coins, canonical ones in particular, gives them back. */
  lemma ParseAfterPrint(c: Coins)
    requires Valid(c) && forall i :: 0 <= i < |c| ==> Expressible(c[i])
    ensures Parsed(Print(c)) == Some(c)
  {
    if c == [] {
      ParseNothing();
    } else {
      PrintedText(c);
      SortSorted(c);
      ParsedOf(Print(c), c);
    }
  }

  // ---------------------------------------------------------------------------------------------
  // What parsing accepts

  lemma {:induction false} ValueNotNegative(s: Bytes)
    requires AllDigits(s)
    ensures Value(s) >= 0
  {
    if s != [] {
      ValueNotNegative(s[..|s| - 1]);
    }
  }

  lemma {:induction false} LeadingAreDigits(s: Bytes)
    ensures AllDigits(s[..LeadingDigits(s)])
  {
    if s != [] && IsDigit(s[0]) {
      LeadingAreDigits(s[1..]);
      assert s[..LeadingDigits(s)] == [s[0]] + s[1..][..LeadingDigits(s[1..])];
    }
  }

  ghost predicate Parseable(c: Coins) {
    forall i :: 0 <= i < |c| ==> Expressible(c[i])
  }

  lemma {:induction false} ParseEachParseable(parts: seq<Bytes>)
    ensures ParseEach(parts).Some? ==> Parseable(ParseEach(parts).value)
  {
    if parts != [] {
      ParseEachParseable(parts[1..]);
      var s := Trim(parts[0]);
      LeadingAreDigits(s);
      ValueNotNegative(s[..LeadingDigits(s)]);
    }
  }

  lemma {:induction false} SortParseable(c: Coins)
    requires Parseable(c)
    ensures Parseable(Sort(c))
  {
    if c != [] {
      SortParseable(c[1..]);
      InsertParseable(c[0], Sort(c[1..]));
    }
  }

  lemma {:induction false} InsertParseable(x: Coin, c: Coins)
    requires Parseable([x]) && Parseable(c)
    ensures Parseable(Insert(x, c))
  {
    assert [x][0] == x;
    if c != [] && Less(c[0].denom, x.denom) {
      InsertParseable(x, c[1..]);
    }
  }

  /** Whatever parses is a valid list of well-formed, non-negative 64-bit coins, and survives printing and
      parsing again. */
  lemma ParsedIsReprintable(text: Bytes)
    requires Parsed(text).Some?
    ensures var c := Parsed(text).value; Valid(c) && Parseable(c) && Parsed(Print(c)) == Some(c)
  {
    var s := Trim(text);
    if s != [] {
      ParseEachParseable(Split(s));
      SortParseable(ParseEach(Split(s)).value);
    }
    ParseAfterPrint(Parsed(text).value);
  }

  /** The lists that parsing their printed form gives back are exactly the valid lists of expressible coins. */
  lemma RoundTripIff(c: Coins)
    ensures Parsed(Print(c)) == Some(c) <==> Valid(c) && Parseable(c)
  {
    if Parsed(Print(c)) == Some(c) {
      ParsedIsReprintable(Print(c));
    } else if Valid(c) && Parseable(c) {
      ParseAfterPrint(c);
    }
  }
}
