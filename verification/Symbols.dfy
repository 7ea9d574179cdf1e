/**
 The names of things: a structure printed as the key its order ids are made of, and
 that key read back as the option symbols of its legs. Strikes are whole
 thousandths; an expiry is its date written as one number, 20260904.
 */
module Symbols {
  import opened Wrappers
  import opened Arithmetic
  import opened Structures

  // ----- numerals

  predicate IsDigit(c: char) { '0' <= c <= '9' }

  predicate AllDigits(s: string) { forall i :: 0 <= i < |s| ==> IsDigit(s[i]) }

  function DigitChar(d: nat): char
    requires d < 10
  {
    '0' + d as char
  }

  function DigitValue(c: char): nat
    requires IsDigit(c)
  {
    (c - '0') as nat
  }

  function Numeral(n: nat): (s: string)
    ensures s != "" && AllDigits(s)
  {
    if n < 10 then [DigitChar(n)] else Numeral(n / 10) + [DigitChar(n % 10)]
  }

  // Exactly w digits, zero-padded; higher digits are lost.
  function Pad(n: nat, w: nat): (s: string)
    ensures |s| == w && AllDigits(s)
  {
    if w == 0 then "" else Pad(n / 10, w - 1) + [DigitChar(n % 10)]
  }

  function Number(s: string): nat
    requires AllDigits(s)
  {
    if s == "" then 0 else Number(s[..|s| - 1]) * 10 + DigitValue(s[|s| - 1])
  }

  function Pow10(k: nat): nat { if k == 0 then 1 else 10 * Pow10(k - 1) }

  lemma NumberSnoc(s: string, d: nat)
    requires AllDigits(s) && d < 10
    ensures AllDigits(s + [DigitChar(d)]) && Number(s + [DigitChar(d)]) == Number(s) * 10 + d
  {
    var t := s + [DigitChar(d)];
    assert t[..|t| - 1] == s && t[|t| - 1] == DigitChar(d);
  }

  lemma {:induction false} NumeralRead(n: nat)
    ensures Number(Numeral(n)) == n
  {
    if n < 10 {
      NumberSnoc("", n);
      assert "" + [DigitChar(n)] == [DigitChar(n)];
    } else {
      NumeralRead(n / 10);
      NumberSnoc(Numeral(n / 10), n % 10);
    }
  }

  lemma {:induction false} PadRead(n: nat, w: nat)
    requires n < Pow10(w)
    ensures Number(Pad(n, w)) == n
  {
    if w > 0 {
      PadRead(n / 10, w - 1);
      NumberSnoc(Pad(n / 10, w - 1), n % 10);
    }
  }

  lemma {:induction false} NumberConcat(a: string, b: string)
    requires AllDigits(a) && AllDigits(b)
    ensures AllDigits(a + b) && Number(a + b) == Number(a) * Pow10(|b|) + Number(b)
    decreases |b|
  {
    if b == "" {
      assert a + b == a;
    } else {
      var init := b[..|b| - 1];
      NumberConcat(a, init);
      assert (a + b)[..|a + b| - 1] == a + init;
      Shift(Number(a), Pow10(|init|), Number(init), DigitValue(b[|b| - 1]));
    }
  }

  lemma Shift(a: nat, p: nat, n: nat, d: nat)
    ensures (a * p + n) * 10 + d == a * (10 * p) + (n * 10 + d)
  {
    assert a * (10 * p) == a * p * 10;
  }

  // ----- six significant digits

  // The nearest multiple of p, ties to the even one.
  function Rounded(m: nat, p: nat): (r: nat)
    requires p > 0
  {
    HalfEven(m as real / p as real) * p
  }

  // The nearest value of at most six significant digits, in thousandths.
  function RoundSix(m: nat): (r: nat)
    requires m < 100000000
  {
    if m < 1000000 then m
    else if m < 10000000 then Rounded(m, 10)
    else Rounded(m, 100)
  }

  predicate SixDigits(m: nat) { m < 1000000 || (m < 10000000 && m % 10 == 0) || (m < 100000000 && m % 100 == 0) }

  function Fraction(f: nat): string
    requires f < 1000
  {
    if f == 0 then ""
    else if f % 100 == 0 then "." + Pad(f / 100, 1)
    else if f % 10 == 0 then "." + Pad(f / 10, 2)
    else "." + Pad(f, 3)
  }

  function Plain(m: nat): string { Numeral(m / 1000) + Fraction(m % 1000) }

  // A strike as the key prints it: six significant digits, no trailing zeros.
  function Print(m: nat): string
    requires m < 100000000
  {
    Plain(RoundSix(m))
  }

  function IndexOf(s: string, c: char): (i: nat)
    ensures i <= |s| && (forall j :: 0 <= j < i ==> s[j] != c) && (i < |s| ==> s[i] == c)
  {
    if s == "" || s[0] == c then 0 else 1 + IndexOf(s[1..], c)
  }

  lemma {:induction false} IndexOfAfter(a: string, c: char, b: string)
    requires c !in a
    ensures IndexOf(a + [c] + b, c) == |a|
  {
    if a != "" {
      assert (a + [c] + b)[1..] == a[1..] + [c] + b;
      IndexOfAfter(a[1..], c, b);
    }
  }

  // Decimal text in thousandths; nothing that is not a number.
  function ParseStrike(s: string): Option<nat> {
    var i := IndexOf(s, '.');
    var whole, frac := s[..i], if i < |s| then s[i + 1..] else "";
    if !AllDigits(whole) || !AllDigits(frac) || whole + frac == "" then None
    else
      Concatenated(whole, frac);
      Some(Milled(Number(whole + frac), |frac|))
  }

  // n with k of its digits after the point, to the nearest thousandth.
  function Milled(n: nat, k: nat): nat {
    var x := n as real * 1000.0 / Pow10Real(k);
    if HalfEven(x) < 0 then 0 else HalfEven(x)
  }

  lemma Concatenated(a: string, b: string)
    requires AllDigits(a) && AllDigits(b)
    ensures AllDigits(a + b)
  {
  }

  function Pow10Real(k: nat): (p: real)
    ensures p > 0.0
  {
    if k == 0 then 1.0 else 10.0 * Pow10Real(k - 1)
  }

  lemma PowersOfTen()
    ensures Pow10(0) == 1 && Pow10(1) == 10 && Pow10(2) == 100 && Pow10(3) == 1000
    ensures Pow10Real(0) == 1.0 && Pow10Real(1) == 10.0 && Pow10Real(2) == 100.0 && Pow10Real(3) == 1000.0
  {
    assert Pow10(2) == 10 * Pow10(1) && Pow10(3) == 10 * Pow10(2);
    assert Pow10Real(2) == 10.0 * Pow10Real(1) && Pow10Real(3) == 10.0 * Pow10Real(2);
  }

  lemma Thousandths(n: nat, k: nat)
    requires k <= 3
    ensures Milled(n, k) == n * Pow10(3 - k)
  {
    hide HalfEven, Pow10, Pow10Real;
    PowersOfTen();
    var x := n as real * 1000.0 / Pow10Real(k);
    var m := if k == 0 then n * 1000 else if k == 1 then n * 100 else if k == 2 then n * 10 else n;
    HalfEvenWhole(m);
    assert x == m as real;
    assert HalfEven(x) == m;
  }

  lemma ParseDecimal(whole: string, frac: string)
    requires AllDigits(whole) && whole != "" && AllDigits(frac) && 1 <= |frac| <= 3
    ensures ParseStrike(whole + "." + frac) == Some((Number(whole) * Pow10(|frac|) + Number(frac)) * Pow10(3 - |frac|))
  {
    hide ParseStrike, Number, Pow10;
    SplitAtPoint(whole, frac);
    NumberConcat(whole, frac);
    Thousandths(Number(whole + frac), |frac|);
  }

  lemma SplitAtPoint(whole: string, frac: string)
    requires AllDigits(whole) && whole != "" && AllDigits(frac)
    ensures AllDigits(whole + frac)
    ensures ParseStrike(whole + "." + frac) == Some(Milled(Number(whole + frac), |frac|))
  {
    hide Milled, Number, IndexOf;
    var s := whole + "." + frac;
    Concatenated(whole, frac);
    assert s == whole + ['.'] + frac;
    IndexOfAfter(whole, '.', frac);
    assert s[..|whole|] == whole && s[|whole| + 1..] == frac;
  }

  lemma ParseWhole(whole: string)
    requires AllDigits(whole) && whole != ""
    ensures ParseStrike(whole) == Some(Number(whole) * 1000)
  {
    hide Milled, Number, Pow10;
    PowersOfTen();
    var i := IndexOf(whole, '.');
    assert whole[..i] == whole;
    assert whole + "" == whole;
    Thousandths(Number(whole), 0);
  }

  // Plain decimal text reads back as itself.
  lemma PlainRead(m: nat)
    ensures ParseStrike(Plain(m)) == Some(m)
  {
    hide ParseStrike, Number, Pow10, Numeral, Pad;
    PowersOfTen();
    var whole, f := m / 1000, m % 1000;
    NumeralRead(whole);
    if f == 0 {
      assert Numeral(whole) + "" == Numeral(whole);
      ParseWhole(Numeral(whole));
    } else {
      var w := if f % 100 == 0 then 1 else if f % 10 == 0 then 2 else 3;
      var k := if f % 100 == 0 then f / 100 else if f % 10 == 0 then f / 10 else f;
      PadRead(k, w);
      ParseDecimal(Numeral(whole), Pad(k, w));
      assert Numeral(whole) + ("." + Pad(k, w)) == Numeral(whole) + "." + Pad(k, w);
    }
  }

  lemma RoundSixExact(m: nat)
    requires m < 100000000
    ensures RoundSix(m) == m <==> SixDigits(m)
  {
    hide Rounded;
    RoundExact(m, 10);
    RoundExact(m, 100);
  }

  // Rounding to a power of ten keeps exactly its multiples.
  lemma RoundExact(m: nat, p: nat)
    requires p == 10 || p == 100
    ensures Rounded(m, p) == m <==> m % p == 0
  {
    hide HalfEven;
    if m % p == 0 {
      WholePart(m, p);
    } else {
      TrailingZeros(HalfEven(m as real / p as real), p);
    }
  }

  lemma TrailingZeros(x: int, p: nat)
    requires p == 10 || p == 100
    ensures x * p % p == 0
  {
  }

  lemma WholePart(m: nat, p: nat)
    requires (p == 10 || p == 100) && m % p == 0
    ensures HalfEven(m as real / p as real) * p == m
  {
    hide HalfEven;
    var q := m / p;
    assert m == q * p;
    assert m as real / p as real == q as real;
    HalfEvenWhole(q);
  }

  // What six digits leave of a strike: the nearest value they can write, halfway to the even one.
  lemma RoundSixNearest(m: nat)
    requires m < 100000000
    ensures var unit := if m < 1000000 then 1 else if m < 10000000 then 10 else 100;
      var r := RoundSix(m);
      && r % unit == 0 && -unit <= 2 * (r - m) <= unit
      && (2 * (r - m) == unit || 2 * (m - r) == unit ==> r / unit % 2 == 0)
  {
    hide Rounded;
    if 1000000 <= m < 10000000 { NearestTen(m); } else if m >= 10000000 { NearestHundred(m); }
  }

  lemma NearestTen(m: nat)
    ensures var r := Rounded(m, 10);
      r % 10 == 0 && -10 <= 2 * (r - m) <= 10 && (2 * (r - m) == 10 || 2 * (m - r) == 10 ==> r / 10 % 2 == 0)
  {
    hide HalfEven;
    NearTen(m, HalfEven(m as real / 10.0));
  }

  lemma NearTen(m: nat, n: int)
    requires n == HalfEven(m as real / 10.0)
    ensures -10 <= 2 * (n * 10 - m) <= 10
    ensures 2 * (n * 10 - m) == 10 || 2 * (m - n * 10) == 10 ==> n % 2 == 0
  {
    hide HalfEven;
    if 2 * (n * 10 - m) == 10 { HalfEvenTies(n - 1); }
    if 2 * (m - n * 10) == 10 { HalfEvenTies(n); }
  }

  lemma NearestHundred(m: nat)
    ensures var r := Rounded(m, 100);
      r % 100 == 0 && -100 <= 2 * (r - m) <= 100 && (2 * (r - m) == 100 || 2 * (m - r) == 100 ==> r / 100 % 2 == 0)
  {
    hide HalfEven;
    NearHundred(m, HalfEven(m as real / 100.0));
  }

  lemma NearHundred(m: nat, n: int)
    requires n == HalfEven(m as real / 100.0)
    ensures -100 <= 2 * (n * 100 - m) <= 100
    ensures 2 * (n * 100 - m) == 100 || 2 * (m - n * 100) == 100 ==> n % 2 == 0
  {
    hide HalfEven;
    if 2 * (n * 100 - m) == 100 { HalfEvenTies(n - 1); }
    if 2 * (m - n * 100) == 100 { HalfEvenTies(n); }
  }

  // No digit is printed for nothing: a point only before a fraction, and no fraction ending in zero.
  lemma PlainIsShort(m: nat)
    ensures var s := Plain(m);
      && s != "" && s[|s| - 1] != '.' && ('.' in s <==> m % 1000 != 0) && ('.' in s ==> s[|s| - 1] != '0')
      && (s[0] == '0' ==> m < 1000)
  {
    hide Numeral, Fraction;
    NumeralLeads(m / 1000);
    FractionIsShort(m % 1000);
    if m % 1000 != 0 { assert Plain(m)[|Numeral(m / 1000)|] == '.'; }
  }

  lemma FractionIsShort(f: nat)
    requires f < 1000
    ensures var s := Fraction(f);
      (f == 0 <==> s == "") && (f != 0 ==> |s| >= 2 && s[0] == '.' && s[|s| - 1] != '0' && s[|s| - 1] != '.')
  {
    hide Pad;
    if f != 0 {
      var w := if f % 100 == 0 then 1 else if f % 10 == 0 then 2 else 3;
      var k := if f % 100 == 0 then f / 100 else if f % 10 == 0 then f / 10 else f;
      PadEnds(k, w);
      assert Fraction(f) == "." + Pad(k, w);
    }
  }

  lemma PadEnds(n: nat, w: nat)
    requires w > 0
    ensures Pad(n, w)[w - 1] == DigitChar(n % 10)
  {
  }

  lemma {:induction false} NumeralLeads(n: nat)
    ensures Numeral(n)[0] == '0' <==> n == 0
  {
    if n >= 10 { NumeralLeads(n / 10); }
  }

  // A printed strike reads back as itself exactly when six significant digits hold it.
  lemma StrikeRoundTrip(m: nat)
    requires m < 100000000
    ensures ParseStrike(Print(m)) == Some(m) <==> SixDigits(m)
  {
    PlainRead(RoundSix(m));
    RoundSixExact(m);
  }

  // Past six digits two strikes share a key, and so would their order ids.
  lemma StrikesCanCollide()
    ensures Print(1000001) == Print(1000000)
  {
    HalfEvenWhole(100000);
    assert 1000001.0 / 10.0 == 100000.1;
    assert HalfEven(100000.1) == 100000;
  }

  // ----- splitting and joining

  // At most n cuts at the separator, first come first served.
  function SplitMax(s: string, sep: char, n: nat): seq<string>
    decreases n
  {
    var i := IndexOf(s, sep);
    if n == 0 || i == |s| then [s] else [s[..i]] + SplitMax(s[i + 1..], sep, n - 1)
  }

  function Split(s: string, sep: char): seq<string> { SplitMax(s, sep, |s|) }

  function Join(parts: seq<string>, sep: char): string
    requires parts != []
  {
    if |parts| == 1 then parts[0] else parts[0] + [sep] + Join(parts[1..], sep)
  }

  lemma SplitFirst(a: string, sep: char, b: string, n: nat)
    requires sep !in a && n > 0
    ensures SplitMax(a + [sep] + b, sep, n) == [a] + SplitMax(b, sep, n - 1)
  {
    var s := a + [sep] + b;
    IndexOfAfter(a, sep, b);
    assert s[..|a|] == a && s[|a| + 1..] == b;
  }

  lemma SplitNone(a: string, sep: char, n: nat)
    requires sep !in a
    ensures SplitMax(a, sep, n) == [a]
  {
  }

  lemma JoinFirst(parts: seq<string>, sep: char)
    requires |parts| > 1
    ensures Join(parts, sep) == parts[0] + [sep] + Join(parts[1..], sep)
    ensures parts == [parts[0]] + parts[1..]
  {
  }

  lemma {:induction false} SplitJoined(parts: seq<string>, sep: char, n: nat)
    requires parts != [] && n >= |parts| - 1 && forall i :: 0 <= i < |parts| ==> sep !in parts[i]
    ensures SplitMax(Join(parts, sep), sep, n) == parts
    decreases |parts|
  {
    if |parts| == 1 {
      SplitNone(parts[0], sep, n);
    } else {
      hide SplitMax, Join;
      JoinFirst(parts, sep);
      SplitFirst(parts[0], sep, Join(parts[1..], sep), n);
      SplitJoined(parts[1..], sep, n - 1);
    }
  }

  lemma {:induction false} JoinLength(parts: seq<string>, sep: char)
    requires parts != []
    ensures |Join(parts, sep)| >= |parts| - 1
    decreases |parts|
  {
    if |parts| > 1 { JoinLength(parts[1..], sep); }
  }

  // ----- the key

  // (right, strike, side), calls before puts and long before short.
  predicate Before(a: Leg, b: Leg) {
    if a.right != b.right then a.right == Call
    else if a.strike != b.strike then a.strike < b.strike
    else a.side == Long && b.side == Short
  }

  function Place(leg: Leg, sorted: seq<Leg>): seq<Leg> {
    if sorted == [] || !Before(sorted[0], leg) then [leg] + sorted else [sorted[0]] + Place(leg, sorted[1..])
  }

  function SortLegs(legs: seq<Leg>): (r: seq<Leg>)
    ensures |r| == |legs|
  {
    if legs == [] then [] else PlaceLength(legs[0], SortLegs(legs[1..])); Place(legs[0], SortLegs(legs[1..]))
  }

  lemma {:induction false} PlaceLength(leg: Leg, sorted: seq<Leg>)
    ensures |Place(leg, sorted)| == |sorted| + 1
    ensures multiset(Place(leg, sorted)) == multiset(sorted) + multiset{leg}
  {
    if sorted != [] && Before(sorted[0], leg) {
      PlaceLength(leg, sorted[1..]);
      assert sorted == [sorted[0]] + sorted[1..];
    }
  }

  lemma {:induction false} SortPermutes(legs: seq<Leg>)
    ensures multiset(SortLegs(legs)) == multiset(legs)
  {
    if legs != [] {
      SortPermutes(legs[1..]);
      PlaceLength(legs[0], SortLegs(legs[1..]));
      assert legs == [legs[0]] + legs[1..];
    }
  }

  ghost predicate Printable(leg: Leg) {
    0.0 <= leg.strike * 1000.0 < 100000000.0 && leg.strike * 1000.0 == (leg.strike * 1000.0).Floor as real
  }

  // The strike in thousandths.
  function Mills(leg: Leg): nat { if leg.strike < 0.0 then 0 else (leg.strike * 1000.0).Floor }

  function RightChar(r: Right): char { if r == Call then 'c' else 'p' }

  function LegText(leg: Leg): string
    requires Printable(leg)
  {
    (if leg.side == Long then "long" else "short") + [RightChar(leg.right)] + Print(Mills(leg)) + "x" + Numeral(leg.ratio)
  }

  function KindName(kind: Kind): string {
    match kind
    case BullPutSpread => "bull_put_spread"
    case BearCallSpread => "bear_call_spread"
    case IronCondor => "iron_condor"
    case CallDebitSpread => "call_debit_spread"
    case PutDebitSpread => "put_debit_spread"
    case LongStrangle => "long_strangle"
  }

  function Texts(legs: seq<Leg>): (r: seq<string>)
    requires forall i :: 0 <= i < |legs| ==> Printable(legs[i])
    ensures |r| == |legs| && forall i :: 0 <= i < |legs| ==> r[i] == LegText(legs[i])
  {
    if legs == [] then [] else [LegText(legs[0])] + Texts(legs[1..])
  }

  // A structure the key can name: letters for a root, one expiry this century, thousandth strikes.
  ghost predicate Nameable(s: Structure) {
    && s.underlying != "" && (forall i :: 0 <= i < |s.underlying| ==> 'A' <= s.underlying[i] <= 'Z')
    && s.legs != [] && OneExpiry(s.legs) && 20000000 <= s.legs[0].expiry < 21000000
    && forall i :: 0 <= i < |s.legs| ==> Printable(s.legs[i])
  }

  lemma {:induction false} PlaceKeepsPrintable(leg: Leg, sorted: seq<Leg>)
    requires Printable(leg) && forall i :: 0 <= i < |sorted| ==> Printable(sorted[i])
    ensures forall i :: 0 <= i < |Place(leg, sorted)| ==> Printable(Place(leg, sorted)[i])
  {
    if sorted != [] && Before(sorted[0], leg) { PlaceKeepsPrintable(leg, sorted[1..]); }
  }

  lemma {:induction false} SortKeepsPrintable(legs: seq<Leg>)
    requires forall i :: 0 <= i < |legs| ==> Printable(legs[i])
    ensures forall i :: 0 <= i < |SortLegs(legs)| ==> Printable(SortLegs(legs)[i])
  {
    if legs != [] {
      SortKeepsPrintable(legs[1..]);
      PlaceKeepsPrintable(legs[0], SortLegs(legs[1..]));
    }
  }

  function LegsText(s: Structure): string
    requires Nameable(s)
  {
    SortKeepsPrintable(s.legs);
    Join(Texts(SortLegs(s.legs)), ':')
  }

  function StructureKey(s: Structure): string
    requires Nameable(s)
  {
    s.underlying + "|" + (KindName(s.kind) + "|" + (Pad(s.legs[0].expiry, 8) + "|" + LegsText(s)))
  }

  // ----- the key read back

  predicate InStrike(c: char) { IsDigit(c) || c == '.' }

  // Length of the longest prefix of strike characters.
  function Span(s: string): (n: nat)
    ensures n <= |s|
  {
    if s == "" || !InStrike(s[0]) then 0 else 1 + Span(s[1..])
  }

  // (?:long|short)([cp])([0-9.]+)x\d+ at the start of the text
  function MatchLeg(s: string): Option<(Right, string)> {
    var rest := if "long" <= s then s[4..] else if "short" <= s then s[5..] else "";
    if rest == "" || (rest[0] != 'c' && rest[0] != 'p') then None
    else
      var n := Span(rest[1..]);
      var after := rest[1 + n..];
      if n == 0 || |after| < 2 || after[0] != 'x' || !IsDigit(after[1]) then None
      else Some((if rest[0] == 'c' then Call else Put, rest[1..1 + n]))
  }

  function Eight(n: nat): string { if n < 100000000 then Pad(n, 8) else Numeral(n) }

  datatype Read = Skipped | Failed | Symbol(text: string)

  function ReadLeg(root: string, expiry: string, text: string): Read {
    match MatchLeg(text)
    case None => Skipped
    case Some((right, strike)) =>
      match ParseStrike(strike)
      case None => Failed
      case Some(m) =>
        Symbol(root + (if |expiry| >= 2 then expiry[2..] else "") + (if right == Call then "C" else "P") + Eight(m))
  }

  function ReadLegs(root: string, expiry: string, texts: seq<string>, i: nat, out: seq<string>): Option<seq<string>>
    requires i <= |texts|
    decreases |texts| - i
  {
    if i == |texts| then Some(out)
    else
      match ReadLeg(root, expiry, texts[i])
      case Skipped => ReadLegs(root, expiry, texts, i + 1, out)
      case Failed => None
      case Symbol(text) => ReadLegs(root, expiry, texts, i + 1, out + [text])
  }

  function OccOf(key: string): Option<seq<string>> {
    var parts := SplitMax(key, '|', 3);
    if |parts| != 4 then Some([]) else ReadLegs(parts[0], parts[2], Split(parts[3], ':'), 0, [])
  }

  method OccSymbols(key: string) returns (out: Option<seq<string>>)
    ensures out == OccOf(key)
  {
    hide ReadLeg, SplitMax;
    var parts := SplitMax(key, '|', 3);
    if |parts| != 4 {
      return Some([]);
    }
    var texts := Split(parts[3], ':');
    var symbols: seq<string> := [];
    var i := 0;
    while i < |texts|
      invariant 0 <= i <= |texts|
      invariant OccOf(key) == ReadLegs(parts[0], parts[2], texts, i, symbols)
    {
      match ReadLeg(parts[0], parts[2], texts[i]) {
        case Skipped =>
        case Failed => return None;
        case Symbol(text) => symbols := symbols + [text];
      }
      i := i + 1;
    }
    return Some(symbols);
  }

  datatype Contract = Contract(root: string, expiry: int, right: Right, mills: nat)

  // ^[A-Z]+\d{6}[CP]\d{8}$
  function ParseOcc(s: string): Option<Contract> {
    var n := |s|;
    if n < 16 then None
    else
      var root, ymd, right, strike := s[..n - 15], s[n - 15..n - 9], s[n - 9], s[n - 8..];
      if (forall i :: 0 <= i < |root| ==> 'A' <= root[i] <= 'Z') && AllDigits(ymd) && AllDigits(strike)
         && (right == 'C' || right == 'P')
      then Some(Contract(root, 20000000 + Number(ymd), if right == 'C' then Call else Put, Number(strike)))
      else None
  }

  // ----- the round trip

  lemma {:induction false} SpanIs(a: string, b: string)
    requires (forall i :: 0 <= i < |a| ==> InStrike(a[i])) && b != "" && !InStrike(b[0])
    ensures Span(a + b) == |a|
  {
    if a == "" {
      assert a + b == b;
    } else {
      assert (a + b)[1..] == a[1..] + b;
      SpanIs(a[1..], b);
    }
  }

  lemma PrintChars(m: nat)
    requires m < 100000000
    ensures Print(m) != "" && forall i :: 0 <= i < |Print(m)| ==> InStrike(Print(m)[i])
  {
    hide RoundSix, Numeral, Pad;
  }

  lemma MatchPrinted(leg: Leg)
    requires Printable(leg)
    ensures MatchLeg(LegText(leg)) == Some((leg.right, Print(Mills(leg))))
  {
    hide Print, Numeral, Printable, MatchLeg;
    PrintableMills(leg);
    PrintChars(Mills(leg));
    var side, tail := if leg.side == Long then "long" else "short", "x" + Numeral(leg.ratio);
    MatchText(side, RightChar(leg.right), Print(Mills(leg)), tail);
    assert LegText(leg) == side + ([RightChar(leg.right)] + (Print(Mills(leg)) + tail));
  }

  lemma MatchText(side: string, c: char, strike: string, tail: string)
    requires (side == "long" || side == "short") && (c == 'c' || c == 'p')
    requires strike != "" && forall i :: 0 <= i < |strike| ==> InStrike(strike[i])
    requires |tail| >= 2 && tail[0] == 'x' && IsDigit(tail[1]) && !InStrike(tail[0])
    ensures MatchLeg(side + ([c] + (strike + tail))) == Some((if c == 'c' then Call else Put, strike))
  {
    hide Span, InStrike;
    SpanIs(strike, tail);
    SidePrefix(side, [c] + (strike + tail));
    RestParts(c, strike, tail);
  }

  lemma RestParts(c: char, strike: string, tail: string)
    ensures var rest := [c] + (strike + tail);
            rest[1..] == strike + tail && rest[1..1 + |strike|] == strike && rest[1 + |strike|..] == tail
  {
    var rest := [c] + (strike + tail);
    assert rest[1..1 + |strike|] == strike;
    assert rest[1 + |strike|..] == tail;
  }

  lemma SidePrefix(side: string, rest: string)
    requires side == "long" || side == "short"
    ensures var s := side + rest;
            ("long" <= s <==> side == "long") && ("short" <= s <==> side == "short") && s[|side|..] == rest
  {
    var s := side + rest;
    assert s[|side|..] == rest && s[0] == side[0] && s[..|side|] == side;
  }

  lemma PrintableMills(leg: Leg)
    requires Printable(leg)
    ensures 0 <= Mills(leg) < 100000000 && leg.strike == Mills(leg) as real / 1000.0
  {
  }

  lemma LegTextChars(leg: Leg)
    requires Printable(leg)
    ensures ':' !in LegText(leg)
  {
    hide Print, Printable;
    PrintableMills(leg);
    PrintChars(Mills(leg));
    assert ':' !in Print(Mills(leg)) && ':' !in Numeral(leg.ratio);
  }

  lemma {:induction false} PadSplit(a: nat, b: nat, w: nat, k: nat)
    requires b < Pow10(k)
    ensures Pad(a * Pow10(k) + b, w + k) == Pad(a, w) + Pad(b, k)
  {
    if k == 0 {
      assert Pad(a, w) + "" == Pad(a, w);
    } else {
      var n, p := a * Pow10(k) + b, Pow10(k - 1);
      assert a * (10 * p) == 10 * (a * p);
      assert n / 10 == a * p + b / 10 && n % 10 == b % 10;
      PadSplit(a, b / 10, w, k - 1);
    }
  }

  lemma ExpiryTail(expiry: int)
    requires 20000000 <= expiry < 21000000
    ensures Pad(expiry, 8)[2..] == Pad(expiry - 20000000, 6) && Number(Pad(expiry - 20000000, 6)) == expiry - 20000000
  {
    hide Pad, Number, Pow10;
    TenPowers();
    PadSplit(20, expiry - 20000000, 2, 6);
    PadRead(expiry - 20000000, 6);
  }

  lemma ParseBuilt(root: string, y: nat, right: Right, m: nat)
    requires root != "" && (forall i :: 0 <= i < |root| ==> 'A' <= root[i] <= 'Z') && m < 100000000
    requires Number(Pad(y, 6)) == y
    ensures ParseOcc(root + Pad(y, 6) + (if right == Call then "C" else "P") + Pad(m, 8))
            == Some(Contract(root, 20000000 + y, right, m))
  {
    hide Pad, Number, Pow10;
    EightDigits(m);
    var ymd, r, strike := Pad(y, 6), if right == Call then "C" else "P", Pad(m, 8);
    var s := root + ymd + r + strike;
    var n := |s|;
    assert s[..n - 15] == root && s[n - 15..n - 9] == ymd && s[n - 9] == r[0] && s[n - 8..] == strike;
  }

  lemma {:induction false} NumberPads(s: string)
    requires AllDigits(s)
    ensures Number(s) < Pow10(|s|) && Pad(Number(s), |s|) == s
  {
    hide Pow10;
    PowersOfTen();
    if s != "" {
      var init := s[..|s| - 1];
      NumberPads(init);
      TenFold(|init|);
      LastDigit(Number(init), s[|s| - 1], |init|);
      assert s == init + [s[|s| - 1]];
    }
  }

  lemma TenFold(k: nat)
    ensures Pow10(k + 1) == 10 * Pow10(k)
  {
  }

  lemma LastDigit(n: nat, c: char, w: nat)
    requires IsDigit(c)
    ensures Pad(n * 10 + DigitValue(c), w + 1) == Pad(n, w) + [c]
  {
    assert (n * 10 + DigitValue(c)) / 10 == n && DigitChar(DigitValue(c)) == c;
  }

  // The symbols the broker's listing is read by: upper-case root, two-digit year with month and day, right,
  // strike in eight digits of thousandths; nothing else is an option, and each such text is one contract.
  lemma OccIsBuilt(s: string, c: Contract)
    ensures ParseOcc(s) == Some(c) <==>
      && c.root != "" && (forall i :: 0 <= i < |c.root| ==> 'A' <= c.root[i] <= 'Z')
      && 20000000 <= c.expiry < 21000000 && c.mills < 100000000
      && s == c.root + Pad(c.expiry - 20000000, 6) + (if c.right == Call then "C" else "P") + Pad(c.mills, 8)
  {
    hide Pad, Number, Pow10;
    TenPowers();
    if ParseOcc(s) == Some(c) {
      var n := |s|;
      NumberPads(s[n - 15..n - 9]);
      NumberPads(s[n - 8..]);
      assert s == s[..n - 15] + s[n - 15..n - 9] + [s[n - 9]] + s[n - 8..];
    } else if c.root != "" && (forall i :: 0 <= i < |c.root| ==> 'A' <= c.root[i] <= 'Z')
              && 20000000 <= c.expiry < 21000000 && c.mills < 100000000 {
      PadRead(c.expiry - 20000000, 6);
      ParseBuilt(c.root, c.expiry - 20000000, c.right, c.mills);
    }
  }

  lemma TenPowers()
    ensures Pow10(6) == 1000000 && Pow10(8) == 100000000
  {
    PowersOfTen();
    assert Pow10(4) == 10 * Pow10(3) && Pow10(5) == 10 * Pow10(4) && Pow10(6) == 10 * Pow10(5);
    assert Pow10(7) == 10 * Pow10(6) && Pow10(8) == 10 * Pow10(7);
  }

  lemma EightDigits(m: nat)
    requires m < 100000000
    ensures Number(Pad(m, 8)) == m
  {
    hide Pad, Number, Pow10;
    TenPowers();
    PadRead(m, 8);
  }

  function SymbolOf(root: string, expiry: int, leg: Leg): string
    requires Printable(leg) && 20000000 <= expiry < 21000000
  {
    root + Pad(expiry - 20000000, 6) + (if leg.right == Call then "C" else "P") + Pad(Mills(leg), 8)
  }

  lemma ReadPrinted(root: string, expiry: int, leg: Leg)
    requires Printable(leg) && SixDigits(Mills(leg)) && 20000000 <= expiry < 21000000
    ensures ReadLeg(root, Pad(expiry, 8), LegText(leg)) == Symbol(SymbolOf(root, expiry, leg))
  {
    hide MatchLeg, ParseStrike, LegText, Printable, Pad, Print;
    MatchPrinted(leg);
    PrintableMills(leg);
    StrikeRoundTrip(Mills(leg));
    ExpiryTail(expiry);
  }

  lemma {:induction false} ReadAllPrinted(root: string, expiry: int, legs: seq<Leg>, n: nat, out: seq<string>)
    requires n == |out| <= |legs| && 20000000 <= expiry < 21000000
    requires forall i :: 0 <= i < |legs| ==> Printable(legs[i]) && SixDigits(Mills(legs[i]))
    requires forall i :: 0 <= i < n ==> out[i] == SymbolOf(root, expiry, legs[i])
    ensures var r := ReadLegs(root, Pad(expiry, 8), Texts(legs), n, out);
            r.Some? && |r.value| == |legs| && forall i :: 0 <= i < |legs| ==> r.value[i] == SymbolOf(root, expiry, legs[i])
    decreases |legs| - n
  {
    hide Printable, SixDigits, LegText, SymbolOf, Pad, ReadLeg, Mills;
    if n < |legs| {
      ReadPrinted(root, expiry, legs[n]);
      ReadAllPrinted(root, expiry, legs, n + 1, out + [SymbolOf(root, expiry, legs[n])]);
    }
  }

  lemma KeySplits(s: Structure)
    requires Nameable(s)
    ensures SplitMax(StructureKey(s), '|', 3) == [s.underlying, KindName(s.kind), Pad(s.legs[0].expiry, 8), LegsText(s)]
  {
    hide LegsText, Pad, SplitMax, Printable;
    var legs := LegsText(s);
    var rest := Pad(s.legs[0].expiry, 8) + "|" + legs;
    SplitFirst(s.underlying, '|', KindName(s.kind) + "|" + rest, 3);
    SplitFirst(KindName(s.kind), '|', rest, 2);
    SplitFirst(Pad(s.legs[0].expiry, 8), '|', legs, 1);
    SplitZero(legs);
  }

  lemma SplitZero(s: string)
    ensures SplitMax(s, '|', 0) == [s]
  {
  }

  // A structure's key names its legs: read back and decoded, they are its contracts in sorted order.
  lemma KeyRoundTrip(s: Structure)
    requires Nameable(s) && forall i :: 0 <= i < |s.legs| ==> SixDigits(Mills(s.legs[i]))
    ensures var r, sorted := OccOf(StructureKey(s)), SortLegs(s.legs);
      && r.Some? && |r.value| == |s.legs|
      && forall i :: 0 <= i < |sorted| ==>
           && Printable(sorted[i])
           && ParseOcc(r.value[i]) == Some(Contract(s.underlying, s.legs[0].expiry, sorted[i].right, Mills(sorted[i])))
    ensures multiset(SortLegs(s.legs)) == multiset(s.legs)
  {
    hide Join, Texts, SortLegs, Pad, SplitMax, SixDigits, Printable, ParseOcc, ReadLegs, StructureKey, LegText, Mills;
    var sorted, root, expiry := SortLegs(s.legs), s.underlying, s.legs[0].expiry;
    SortKeepsPrintable(s.legs);
    SortPermutes(s.legs);
    forall i | 0 <= i < |sorted| ensures SixDigits(Mills(sorted[i])) {
      assert sorted[i] in multiset(s.legs);
    }
    var texts := Texts(sorted);
    forall i | 0 <= i < |texts| ensures ':' !in texts[i] { LegTextChars(sorted[i]); }
    JoinLength(texts, ':');
    SplitJoined(texts, ':', |Join(texts, ':')|);
    KeySplits(s);
    ReadAllPrinted(root, expiry, sorted, 0, []);
    forall i | 0 <= i < |sorted|
      ensures ParseOcc(SymbolOf(root, expiry, sorted[i])) == Some(Contract(root, expiry, sorted[i].right, Mills(sorted[i])))
    {
      PrintableMills(sorted[i]);
      ExpiryTail(expiry);
      ParseBuilt(root, expiry - 20000000, sorted[i].right, Mills(sorted[i]));
    }
  }

  // ----- the key does not depend on leg order

  ghost predicate Sorted(legs: seq<Leg>) {
    forall i, j :: 0 <= i < j < |legs| ==> Before(legs[i], legs[j])
  }

  ghost predicate Distinct(legs: seq<Leg>) {
    forall i, j :: 0 <= i < j < |legs| ==> Before(legs[i], legs[j]) || Before(legs[j], legs[i])
  }

  lemma {:induction false} PlaceSorts(leg: Leg, sorted: seq<Leg>)
    requires Sorted(sorted) && forall i :: 0 <= i < |sorted| ==> Before(sorted[i], leg) || Before(leg, sorted[i])
    ensures Sorted(Place(leg, sorted))
  {
    if sorted != [] && Before(sorted[0], leg) {
      var tail := sorted[1..];
      PlaceSorts(leg, tail);
      PlaceLength(leg, tail);
      forall i | 0 <= i < |Place(leg, tail)| ensures Before(sorted[0], Place(leg, tail)[i]) {
        assert Place(leg, tail)[i] in multiset(Place(leg, tail));
        assert Place(leg, tail)[i] == leg || Place(leg, tail)[i] in multiset(tail);
      }
    }
  }

  lemma {:induction false} SortSorts(legs: seq<Leg>)
    requires Distinct(legs)
    ensures Sorted(SortLegs(legs))
  {
    if legs != [] {
      var tail := legs[1..];
      SortSorts(tail);
      SortPermutes(tail);
      forall i | 0 <= i < |SortLegs(tail)| ensures Before(SortLegs(tail)[i], legs[0]) || Before(legs[0], SortLegs(tail)[i]) {
        assert SortLegs(tail)[i] in multiset(tail);
        var j :| 0 <= j < |tail| && tail[j] == SortLegs(tail)[i];
        assert legs[j + 1] == tail[j];
      }
      PlaceSorts(legs[0], SortLegs(tail));
    }
  }

  lemma {:induction false} SortedUnique(a: seq<Leg>, b: seq<Leg>)
    requires Sorted(a) && Sorted(b) && multiset(a) == multiset(b)
    ensures a == b
  {
    assert |a| == |multiset(a)| && |b| == |multiset(b)|;
    if a != [] {
      SameHead(a, b);
      TailOf(a);
      TailOf(b);
      SortedUnique(a[1..], b[1..]);
    }
  }

  lemma TailOf(a: seq<Leg>)
    requires a != []
    ensures a == [a[0]] + a[1..] && multiset(a[1..]) == multiset(a) - multiset{a[0]}
  {
    assert a == [a[0]] + a[1..];
  }

  lemma SameHead(a: seq<Leg>, b: seq<Leg>)
    requires Sorted(a) && Sorted(b) && multiset(a) == multiset(b) && a != [] && b != []
    ensures a[0] == b[0]
  {
    assert a[0] in multiset(b) && b[0] in multiset(a);
    var i :| 0 <= i < |b| && b[i] == a[0];
    var j :| 0 <= j < |a| && a[j] == b[0];
  }

  // Reordering the legs changes nothing, so retries of one trade mint one id.
  lemma KeyIgnoresOrder(s: Structure, t: Structure)
    requires Nameable(s) && Nameable(t) && s.kind == t.kind && s.underlying == t.underlying
    requires multiset(s.legs) == multiset(t.legs) && Distinct(s.legs) && Distinct(t.legs)
    ensures StructureKey(s) == StructureKey(t)
  {
    hide Join, Texts, Pad;
    SortPermutes(s.legs);
    SortPermutes(t.legs);
    SortSorts(s.legs);
    SortSorts(t.legs);
    SortedUnique(SortLegs(s.legs), SortLegs(t.legs));
    assert s.legs[0] in multiset(t.legs);
    var i :| 0 <= i < |t.legs| && t.legs[i] == s.legs[0];
    assert t.legs[i].expiry == t.legs[0].expiry;
  }

  // ----- the order legs are named in

  // Calls before puts, then by strike, then long before short.
  predicate InKeyOrder(a: Leg, b: Leg) {
    && (a.right == Call || b.right == Put)
    && (a.right == b.right ==> a.strike <= b.strike)
    && (a.right == b.right && a.strike == b.strike ==> a.side == Long || b.side == Short)
  }

  ghost predicate Ordered(legs: seq<Leg>) { forall i, j :: 0 <= i < j < |legs| ==> InKeyOrder(legs[i], legs[j]) }

  // The legs that no part of the order tells from this one, as listed.
  ghost function Twins(legs: seq<Leg>, a: Leg): seq<Leg> {
    if legs == [] then []
    else (if legs[0].right == a.right && legs[0].strike == a.strike && legs[0].side == a.side then [legs[0]] else [])
         + Twins(legs[1..], a)
  }

  lemma {:induction false} PlaceOrders(leg: Leg, sorted: seq<Leg>)
    requires Ordered(sorted)
    ensures Ordered(Place(leg, sorted))
  {
    if sorted != [] && Before(sorted[0], leg) {
      var tail := sorted[1..];
      PlaceOrders(leg, tail);
      PlaceLength(leg, tail);
      BeforeInOrder(sorted[0], leg);
      hide InKeyOrder, Before;
      forall i | 0 <= i < |Place(leg, tail)| ensures InKeyOrder(sorted[0], Place(leg, tail)[i]) {
        assert Place(leg, tail)[i] in multiset(Place(leg, tail));
        assert Place(leg, tail)[i] == leg || Place(leg, tail)[i] in multiset(tail);
      }
    } else if sorted != [] {
      BeforeInOrder(sorted[0], leg);
      forall j | 0 <= j < |sorted| ensures InKeyOrder(leg, sorted[j]) {
        if j > 0 { KeyOrderChains(leg, sorted[0], sorted[j]); }
      }
    }
  }

  lemma BeforeInOrder(x: Leg, leg: Leg)
    ensures if Before(x, leg) then InKeyOrder(x, leg) else InKeyOrder(leg, x)
  {
  }

  lemma KeyOrderChains(a: Leg, b: Leg, c: Leg)
    requires InKeyOrder(a, b) && InKeyOrder(b, c)
    ensures InKeyOrder(a, c)
  {
  }

  lemma TwinsFirst(leg: Leg, legs: seq<Leg>, a: Leg)
    ensures Twins([leg] + legs, a) == Twins([leg], a) + Twins(legs, a)
    ensures Twins([leg], a) == [] || Twins([leg], a) == [leg]
  {
    assert ([leg] + legs)[1..] == legs && [leg][1..] == [];
  }

  lemma BeforeIsNoTwin(x: Leg, leg: Leg, a: Leg)
    requires Before(x, leg)
    ensures Twins([x], a) == [] || Twins([leg], a) == []
  {
  }

  lemma {:induction false} PlaceTwins(leg: Leg, sorted: seq<Leg>, a: Leg)
    ensures Twins(Place(leg, sorted), a) == Twins([leg], a) + Twins(sorted, a)
  {
    hide Twins, Before;
    TwinsFirst(leg, sorted, a);
    if sorted != [] && Before(sorted[0], leg) {
      var x, tail := sorted[0], sorted[1..];
      PlaceTwins(leg, tail, a);
      TwinsFirst(x, Place(leg, tail), a);
      TwinsFirst(x, tail, a);
      BeforeIsNoTwin(x, leg, a);
      assert sorted == [x] + tail;
    }
  }

  // The key's legs are the structure's own, in order; legs of one right, strike and side stay as listed.
  lemma {:induction false} SortIsStable(legs: seq<Leg>, a: Leg)
    ensures Ordered(SortLegs(legs)) && Twins(SortLegs(legs), a) == Twins(legs, a)
    ensures multiset(SortLegs(legs)) == multiset(legs)
  {
    hide Ordered, Place, Before;
    SortPermutes(legs);
    if legs != [] {
      SortIsStable(legs[1..], a);
      PlaceOrders(legs[0], SortLegs(legs[1..]));
      PlaceTwins(legs[0], SortLegs(legs[1..]), a);
      assert [legs[0]][1..] == [];
    } else {
      NothingOrdered();
    }
  }

  lemma NothingOrdered()
    ensures Ordered([])
  {
  }

  // ----- what a key's text is read as

  function LegPieces(side: string, right: Right, strike: string, tail: string): string {
    side + ([RightChar(right)] + (strike + ("x" + tail)))
  }

  // A side, a right, digits and points, an x and at least a digit.
  ghost predicate ShapedAs(s: string, right: Right, strike: string) {
    strike != "" && (forall i :: 0 <= i < |strike| ==> IsDigit(strike[i]) || strike[i] == '.')
    && exists side, tail ::
         LegPieces(side, right, strike, tail) == s && (side == "long" || side == "short") && tail != "" && IsDigit(tail[0])
  }

  lemma {:induction false} SpanHolds(s: string)
    ensures forall i :: 0 <= i < Span(s) ==> InStrike(s[i])
  {
    if s != "" && InStrike(s[0]) {
      SpanHolds(s[1..]);
      assert forall i :: 1 <= i < Span(s) ==> s[i] == s[1..][i - 1];
    }
  }

  lemma MatchIs(s: string, right: Right, strike: string)
    ensures MatchLeg(s) == Some((right, strike)) <==> ShapedAs(s, right, strike)
  {
    if MatchLeg(s) == Some((right, strike)) {
      MatchedIsShaped(s, right, strike);
    } else if ShapedAs(s, right, strike) {
      var side, tail :| LegPieces(side, right, strike, tail) == s
                        && (side == "long" || side == "short") && tail != "" && IsDigit(tail[0]);
      hide MatchLeg;
      MatchText(side, RightChar(right), strike, "x" + tail);
    }
  }

  lemma MatchedIsShaped(s: string, right: Right, strike: string)
    requires MatchLeg(s) == Some((right, strike))
    ensures ShapedAs(s, right, strike)
  {
    var side, rest, n := MatchedParts(s, right, strike);
    hide MatchLeg, Span;
    var tail := rest[2 + n..];
    SpanHolds(rest[1..]);
    CutAt(rest, n);
    assert strike == rest[1..][..n];
    assert LegPieces(side, right, strike, tail) == s;
  }

  lemma MatchedParts(s: string, right: Right, strike: string) returns (side: string, rest: string, n: nat)
    requires MatchLeg(s) == Some((right, strike))
    ensures (side == "long" || side == "short") && s == side + rest && rest != "" && n == Span(rest[1..]) && n > 0
    ensures rest[0] == RightChar(right) && strike == rest[1..1 + n]
    ensures |rest| >= 3 + n && rest[1 + n] == 'x' && IsDigit(rest[2 + n])
  {
    hide Span;
    side := if "long" <= s then "long" else "short";
    rest := s[|side|..];
    n := Span(rest[1..]);
  }

  // A first letter, n more, an x and what follows.
  lemma CutAt(rest: string, n: nat)
    requires |rest| >= 2 + n && rest[1 + n] == 'x'
    ensures rest == [rest[0]] + (rest[1..1 + n] + ("x" + rest[2 + n..]))
  {
  }

  // A strike is written with eight digits, or as many more as it has.
  lemma EightReads(n: nat)
    ensures Number(Eight(n)) == n && |Eight(n)| >= 8 && (|Eight(n)| == 8 <==> n < 100000000)
  {
    hide Pad, Numeral, Number, Pow10;
    TenPowers();
    if n < 100000000 {
      EightDigits(n);
    } else {
      NumeralRead(n);
      NumberPads(Numeral(n));
      if |Numeral(n)| <= 8 { PowersRise(|Numeral(n)|, 8); }
    }
  }

  lemma {:induction false} PowersRise(a: nat, b: nat)
    requires a <= b
    ensures Pow10(a) <= Pow10(b)
    decreases b
  {
    if a < b { PowersRise(a, b - 1); }
  }

  ghost predicate Unreadable(text: string) { MatchLeg(text).Some? && ParseStrike(MatchLeg(text).value.1).None? }

  // The symbols of the texts that are legs with a number for a strike, in order.
  ghost function Legible(root: string, ymd: string, texts: seq<string>): seq<string> {
    if texts == [] then []
    else
      var m := MatchLeg(texts[0]);
      (if m.Some? && ParseStrike(m.value.1).Some?
       then [root + ymd + (if m.value.0 == Call then "C" else "P") + Eight(ParseStrike(m.value.1).value)] else [])
      + Legible(root, ymd, texts[1..])
  }

  lemma {:induction false} ReadsExactly(root: string, expiry: string, texts: seq<string>, i: nat, out: seq<string>)
    requires i <= |texts| && |expiry| >= 2
    ensures var r := ReadLegs(root, expiry, texts, i, out);
      && (r.None? <==> exists j :: i <= j < |texts| && Unreadable(texts[j]))
      && (r.Some? ==> r.value == out + Legible(root, expiry[2..], texts[i..]))
    decreases |texts| - i
  {
    hide MatchLeg, ParseStrike, Eight;
    if i < |texts| {
      assert texts[i..][0] == texts[i] && texts[i..][1..] == texts[i + 1..];
      match ReadLeg(root, expiry, texts[i])
      case Skipped => ReadsExactly(root, expiry, texts, i + 1, out);
      case Failed => assert Unreadable(texts[i]);
      case Symbol(text) => ReadsExactly(root, expiry, texts, i + 1, out + [text]);
    }
  }

  // Any key of four parts: it cannot be read exactly when a leg's strike is no number; else what is read are
  // the symbols of its legs in order, each from root, two-digit year, right and strike, other texts skipped.
  lemma OccReads(root: string, kind: string, expiry: string, texts: seq<string>)
    requires '|' !in root && '|' !in kind && '|' !in expiry && |expiry| >= 2
    requires texts != [] && forall i :: 0 <= i < |texts| ==> ':' !in texts[i]
    ensures var r := OccOf(root + "|" + (kind + "|" + (expiry + "|" + Join(texts, ':'))));
      && (r.None? <==> exists j :: 0 <= j < |texts| && Unreadable(texts[j]))
      && (r.Some? ==> r.value == Legible(root, expiry[2..], texts))
  {
    hide SplitMax, Join, ReadLegs, Legible, Unreadable;
    var legs := Join(texts, ':');
    SplitFirst(root, '|', kind + "|" + (expiry + "|" + legs), 3);
    SplitFirst(kind, '|', expiry + "|" + legs, 2);
    SplitFirst(expiry, '|', legs, 1);
    SplitZero(legs);
    JoinLength(texts, ':');
    SplitJoined(texts, ':', |legs|);
    ReadsExactly(root, expiry, texts, 0, []);
    assert texts[0..] == texts;
  }

  // ----- what shares a key

  // Legs the key cannot tell apart: all but the symbol, with strikes alike to six digits.
  ghost predicate PrintAlike(a: Leg, b: Leg) {
    && a.side == b.side && a.right == b.right && a.ratio == b.ratio
    && Mills(a) < 100000000 && Mills(b) < 100000000 && RoundSix(Mills(a)) == RoundSix(Mills(b))
  }

  lemma LegTextTells(a: Leg, b: Leg)
    requires Printable(a) && Printable(b)
    ensures LegText(a) == LegText(b) <==> PrintAlike(a, b)
  {
    hide Numeral, RoundSix, Plain, MatchLeg, Mills, Printable;
    PrintableMills(a);
    PrintableMills(b);
    if LegText(a) == LegText(b) {
      MatchPrinted(a);
      MatchPrinted(b);
      PlainRead(RoundSix(Mills(a)));
      PlainRead(RoundSix(Mills(b)));
      assert LegText(a)[0] == LegText(b)[0];
      TailText(a);
      TailText(b);
      NumeralRead(a.ratio);
      NumeralRead(b.ratio);
    }
  }

  lemma TailText(leg: Leg)
    requires Printable(leg) && Mills(leg) < 100000000
    ensures var n := (if leg.side == Long then 5 else 6) + |Print(Mills(leg))| + 1;
            n <= |LegText(leg)| && LegText(leg)[n..] == Numeral(leg.ratio)
  {
    hide Print, Numeral, Mills, Printable;
  }

  lemma KindsDiffer(a: Kind, b: Kind)
    ensures KindName(a) == KindName(b) <==> a == b
  {
    if a.BearCallSpread? && b.PutDebitSpread? { assert KindName(a)[0] != KindName(b)[0]; }
    if a.PutDebitSpread? && b.BearCallSpread? { assert KindName(a)[0] != KindName(b)[0]; }
  }

  lemma LegsTextSplits(s: Structure)
    requires Nameable(s)
    ensures forall i :: 0 <= i < |SortLegs(s.legs)| ==> Printable(SortLegs(s.legs)[i])
    ensures Split(LegsText(s), ':') == Texts(SortLegs(s.legs))
  {
    hide Join, SortLegs, LegText, SplitMax, Printable;
    SortKeepsPrintable(s.legs);
    var texts := Texts(SortLegs(s.legs));
    forall i | 0 <= i < |texts| ensures ':' !in texts[i] { LegTextChars(SortLegs(s.legs)[i]); }
    JoinLength(texts, ':');
    SplitJoined(texts, ':', |Join(texts, ':')|);
  }

  // Two structures share a key exactly when they agree in root, kind and date and their sorted legs in
  // side, right, ratio and six digits of strike: a key stands for one trade wherever six digits do.
  lemma KeyIdentifies(s: Structure, t: Structure)
    requires Nameable(s) && Nameable(t)
    ensures StructureKey(s) == StructureKey(t) <==>
      && s.underlying == t.underlying && s.kind == t.kind && s.legs[0].expiry == t.legs[0].expiry
      && |s.legs| == |t.legs|
      && forall i :: 0 <= i < |s.legs| ==> PrintAlike(SortLegs(s.legs)[i], SortLegs(t.legs)[i])
  {
    hide StructureKey, KindName, LegsText, LegText, SortLegs, SplitMax, Split, Pad, Number, Printable, PrintAlike;
    KeySplits(s);
    KeySplits(t);
    KindsDiffer(s.kind, t.kind);
    EightDigits(s.legs[0].expiry);
    EightDigits(t.legs[0].expiry);
    LegsTextSplits(s);
    LegsTextSplits(t);
    var a, b := SortLegs(s.legs), SortLegs(t.legs);
    forall i | 0 <= i < |a| && i < |b| ensures LegText(a[i]) == LegText(b[i]) <==> PrintAlike(a[i], b[i]) {
      LegTextTells(a[i], b[i]);
    }
    if StructureKey(s) == StructureKey(t) {
      assert Texts(a) == Texts(b);
      assert forall i :: 0 <= i < |a| ==> LegText(a[i]) == Texts(a)[i] == Texts(b)[i] == LegText(b[i]);
    } else if s.underlying == t.underlying && s.kind == t.kind && s.legs[0].expiry == t.legs[0].expiry && |a| == |b| {
      if forall i :: 0 <= i < |a| ==> PrintAlike(a[i], b[i]) {
        assert Texts(a) == Texts(b);
        LegsTextIs(s);
        LegsTextIs(t);
        SameFields(s, t);
      }
    }
  }

  lemma LegsTextIs(s: Structure)
    requires Nameable(s)
    ensures forall i :: 0 <= i < |SortLegs(s.legs)| ==> Printable(SortLegs(s.legs)[i])
    ensures LegsText(s) == Join(Texts(SortLegs(s.legs)), ':')
  {
    hide Join, Texts, SortLegs, Printable;
    SortKeepsPrintable(s.legs);
  }

  lemma SameFields(s: Structure, t: Structure)
    requires Nameable(s) && Nameable(t)
    requires s.underlying == t.underlying && s.kind == t.kind && s.legs[0].expiry == t.legs[0].expiry
    requires LegsText(s) == LegsText(t)
    ensures StructureKey(s) == StructureKey(t)
  {
    hide LegsText, Pad, KindName;
  }

  // ----- the layout, on a structure

  // 88 and 90.5 of the TLT puts of 18 September 2026, sold nearer the money.
  function Example(): Structure {
    Structure(BullPutSpread, "TLT", [Leg("", Put, 90.5, 20260918, Short, 1), Leg("", Put, 88.0, 20260918, Long, 1)])
  }

  lemma ExamplePrints()
    ensures Print(90500) == "90.5" && Print(88000) == "88" && Numeral(1) == "1"
  {
    assert Numeral(9) == "9" && Numeral(90) == "90" && Numeral(8) == "8" && Numeral(88) == "88";
    assert Pad(5, 1) == "5";
    assert Fraction(500) == "." + "5" && Fraction(0) == "";
  }

  lemma ExampleSorted()
    ensures SortLegs(Example().legs) == [Example().legs[1], Example().legs[0]]
  {
    var legs := Example().legs;
    var a, b := legs[0], legs[1];
    assert legs[1..] == [b] && [b][1..] == [];
    assert SortLegs([b]) == [b];
    assert Place(a, [b]) == [b] + Place(a, [b][1..]);
  }

  lemma ExampleLegs()
    ensures Printable(Example().legs[0]) && LegText(Example().legs[0]) == "shortp90.5x1"
    ensures Printable(Example().legs[1]) && LegText(Example().legs[1]) == "longp88x1"
  {
    hide Print, Numeral, Mills;
    ExampleMills();
    ExamplePrints();
  }

  lemma ExampleTexts()
    ensures Nameable(Example()) && LegsText(Example()) == "longp88x1:shortp90.5x1"
  {
    hide LegText, SortLegs, Printable;
    ExampleLegs();
    ExampleSorted();
    var a, b := Example().legs[0], Example().legs[1];
    assert [b, a][1..] == [a] && [a][1..] == [];
    assert Texts([a]) == [LegText(a)] + Texts([]);
    assert Texts([b, a]) == [LegText(b)] + Texts([a]);
    assert Texts([b, a]) == ["longp88x1", "shortp90.5x1"];
    assert ["longp88x1", "shortp90.5x1"][1..] == ["shortp90.5x1"];
  }

  lemma ExampleMills()
    ensures Printable(Example().legs[0]) && Mills(Example().legs[0]) == 90500
    ensures Printable(Example().legs[1]) && Mills(Example().legs[1]) == 88000
  {
    assert 90.5 * 1000.0 == 90500.0 && 88.0 * 1000.0 == 88000.0;
  }

  // Its key: root, kind, date and legs in order, each with its side, right, strike and ratio.
  lemma ExampleKey()
    ensures Nameable(Example()) && |Pad(20260918, 8)| == 8 && Number(Pad(20260918, 8)) == 20260918
    ensures StructureKey(Example()) == "TLT|bull_put_spread|" + Pad(20260918, 8) + "|longp88x1:shortp90.5x1"
  {
    hide Pad, Number, LegsText, Nameable, Pow10, StructureKey;
    EightDigits(20260918);
    ExampleTexts();
    KeyLayout(Example());
    hide LegsText, Example;
    Regroup("TLT", "bull_put_spread", Pad(20260918, 8), "longp88x1:shortp90.5x1");
    assert "TLT" + "|" + "bull_put_spread" + "|" == "TLT|bull_put_spread|";
    assert "|" + "longp88x1:shortp90.5x1" == "|longp88x1:shortp90.5x1";
  }

  lemma KeyLayout(s: Structure)
    requires Nameable(s)
    ensures StructureKey(s) == s.underlying + "|" + (KindName(s.kind) + "|" + (Pad(s.legs[0].expiry, 8) + "|" + LegsText(s)))
  {
    hide LegsText, Pad, KindName;
  }

  lemma Regroup(a: string, b: string, c: string, d: string)
    ensures a + "|" + (b + "|" + (c + "|" + d)) == (a + "|" + b + "|") + c + ("|" + d)
  {
  }
}
