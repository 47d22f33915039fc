/**
 Amounts as text.  Money never passes through a float: every figure shown is made from
 the digits that came in.
 */
module Formats {
  import opened Digits
  import opened Positions
  import opened Text
  import opened Wrappers

  const DASH: string := "\U{2014}"

  // ----- numerals

  function Pow10(n: nat): (p: nat)
    ensures p > 0
  {
    if n == 0 then 1 else 10 * Pow10(n - 1)
  }

  function Zeros(n: nat): (s: string)
    ensures |s| == n && AllDigits(s) && forall c :: c in s ==> c == '0'
  {
    if n == 0 then "" else Zeros(n - 1) + ['0']
  }

  lemma ValuePush(s: string, c: char)
    requires AllDigits(s) && IsDigit(c)
    ensures AllDigits(s + [c]) && Value(s + [c]) == Value(s) * 10 + DigitValue(c)
  {
    assert (s + [c])[..|s|] == s;
  }

  lemma ShiftTerm(a: nat, p: nat, v: nat, d: nat)
    ensures (a * p + v) * 10 + d == a * (10 * p) + (v * 10 + d)
  {
  }

  lemma {:induction false} ValueJoin(a: string, b: string)
    requires AllDigits(a) && AllDigits(b)
    ensures AllDigits(a + b) && Value(a + b) == Value(a) * Pow10(|b|) + Value(b)
  {
    if b == "" {
      assert a + b == a;
    } else {
      var init, c := b[..|b|-1], b[|b|-1];
      assert a + b == (a + init) + [c] && b == init + [c];
      ValueJoin(a, init);
      ValuePush(a + init, c);
      ValuePush(init, c);
      ShiftTerm(Value(a), Pow10(|init|), Value(init), DigitValue(c));
    }
  }

  lemma {:induction false} ValueBelow(s: string)
    requires AllDigits(s)
    ensures Value(s) < Pow10(|s|)
  {
    if s != "" {
      ValueBelow(s[..|s|-1]);
    }
  }

  lemma {:induction false} ZerosAreZero(n: nat)
    ensures Value(Zeros(n)) == 0
  {
    if n > 0 {
      ZerosAreZero(n - 1);
      ValuePush(Zeros(n - 1), '0');
    }
  }

  lemma LeadingZeros(n: nat, s: string)
    requires AllDigits(s)
    ensures AllDigits(Zeros(n) + s) && Value(Zeros(n) + s) == Value(s)
  {
    ValueJoin(Zeros(n), s);
    ZerosAreZero(n);
  }

  lemma SameHeadValue(a: string, b: string, tail: string)
    requires AllDigits(a) && AllDigits(b) && AllDigits(tail) && Value(a) == Value(b)
    ensures AllDigits(a + tail) && AllDigits(b + tail) && Value(a + tail) == Value(b + tail)
  {
    ValueJoin(a, tail);
    ValueJoin(b, tail);
  }

  // ----- trimming

  function PadStart(s: string, n: nat): string {
    if |s| >= n then s else Zeros(n - |s|) + s
  }

  /** Leading zeros go as long as a digit follows. */
  function StripLeading(s: string): string {
    if |s| > 1 && s[0] == '0' && IsDigit(s[1]) then StripLeading(s[1..]) else s
  }

  function StripTrailing(s: string): (r: string)
    ensures r <= s
  {
    if s != "" && s[|s|-1] == '0' then StripTrailing(s[..|s|-1]) else s
  }

  lemma {:induction false} StripLeadingKeepsValue(s: string)
    requires AllDigits(s)
    ensures AllDigits(StripLeading(s)) && Value(StripLeading(s)) == Value(s)
    ensures s != "" ==> StripLeading(s) == "0" || (StripLeading(s) != "" && StripLeading(s)[0] != '0')
  {
    if |s| > 1 && s[0] == '0' && IsDigit(s[1]) {
      StripLeadingKeepsValue(s[1..]);
      assert s == Zeros(1) + s[1..];
      LeadingZeros(1, s[1..]);
    }
  }

  /** What was cut off were zeros. */
  lemma {:induction false} StripTrailingCutsZeros(s: string)
    ensures StripTrailing(s) + Zeros(|s| - |StripTrailing(s)|) == s
    ensures StripTrailing(s) != "" ==> StripTrailing(s)[|StripTrailing(s)|-1] != '0'
  {
    if s != "" && s[|s|-1] == '0' {
      StripTrailingCutsZeros(s[..|s|-1]);
      assert s == s[..|s|-1] + ['0'];
    }
  }

  // ----- base units

  function DigitsOf(s: string): (r: string)
    ensures AllDigits(r)
  {
    Filter(s, IsDigit)
  }

  function Pointed(intPart: string, frac: string): string {
    if frac != "" then intPart + "." + frac else intPart
  }

  function FromBaseUnits(wei: Option<string>, decimals: nat): string {
    if wei.None? || DigitsOf(wei.value) == "" then DASH else DigitsPointed(DigitsOf(wei.value), decimals)
  }

  function DigitsPointed(digits: string, decimals: nat): string {
    var padded := PadStart(digits, decimals + 1);
    var cut := |padded| - decimals;
    Pointed(StripLeading(padded[..cut]), StripTrailing(padded[cut..]))
  }

  /** The text is a whole part without redundant zeros and, if any, a fraction that does not end in one. */
  predicate Canonical(intPart: string, frac: string, decimals: nat) {
    && intPart != "" && AllDigits(intPart) && AllDigits(frac) && |frac| <= decimals
    && (intPart == "0" || intPart[0] != '0')
    && (frac == "" || frac[|frac|-1] != '0')
  }

  /** What the text stands for, in the smallest unit. */
  function UnitsOf(intPart: string, frac: string, decimals: nat): nat
    requires AllDigits(intPart) && AllDigits(frac) && |frac| <= decimals
  {
    Value(intPart + frac + Zeros(decimals - |frac|))
  }

  lemma PaddedIsLong(digits: string, n: nat)
    requires AllDigits(digits)
    ensures AllDigits(PadStart(digits, n)) && |PadStart(digits, n)| >= n && Value(PadStart(digits, n)) == Value(digits)
  {
    if |digits| < n {
      LeadingZeros(n - |digits|, digits);
    }
  }

  lemma PutBackZeros(intPart: string, frac: string, a: string, b: string)
    requires AllDigits(intPart) && AllDigits(frac) && AllDigits(a) && AllDigits(b) && |frac| <= |b|
    requires Value(intPart) == Value(a) && frac + Zeros(|b| - |frac|) == b
    ensures UnitsOf(intPart, frac, |b|) == Value(a + b)
  {
    Reassociate(intPart, frac, Zeros(|b| - |frac|));
    SameHeadValue(intPart, a, b);
  }

  lemma Reassociate(a: string, b: string, c: string)
    ensures a + b + c == a + (b + c)
  {
  }

  lemma TrimmedIsCanonical(a: string, b: string)
    requires AllDigits(a) && AllDigits(b) && a != ""
    ensures Canonical(StripLeading(a), StripTrailing(b), |b|)
  {
    StripLeadingKeepsValue(a);
    StripTrailingCutsZeros(b);
  }

  lemma TrimmingKeepsUnits(a: string, b: string)
    requires AllDigits(a) && AllDigits(b) && a != ""
    ensures Canonical(StripLeading(a), StripTrailing(b), |b|)
    ensures UnitsOf(StripLeading(a), StripTrailing(b), |b|) == Value(a + b)
  {
    TrimmedIsCanonical(a, b);
    TrimmedUnits(a, b);
  }

  lemma TrimmedUnits(a: string, b: string)
    requires AllDigits(a) && AllDigits(b)
    requires AllDigits(StripLeading(a)) && AllDigits(StripTrailing(b)) && |StripTrailing(b)| <= |b|
    ensures UnitsOf(StripLeading(a), StripTrailing(b), |b|) == Value(a + b)
  {
    StripLeadingKeepsValue(a);
    StripTrailingCutsZeros(b);
    PutBackZeros(StripLeading(a), StripTrailing(b), a, b);
  }

  /** The amount shown is exactly the digits that came in, in its shortest form. */
  lemma BaseUnitsAreExact(wei: string, decimals: nat) returns (intPart: string, frac: string)
    requires DigitsOf(wei) != ""
    ensures FromBaseUnits(Some(wei), decimals) == Pointed(intPart, frac)
    ensures Canonical(intPart, frac, decimals)
    ensures UnitsOf(intPart, frac, decimals) == Value(DigitsOf(wei))
  {
    intPart, frac := DigitsAreExact(DigitsOf(wei), decimals);
  }

  lemma DigitsAreExact(digits: string, decimals: nat) returns (intPart: string, frac: string)
    requires AllDigits(digits)
    ensures DigitsPointed(digits, decimals) == Pointed(intPart, frac)
    ensures Canonical(intPart, frac, decimals)
    ensures UnitsOf(intPart, frac, decimals) == Value(digits)
  {
    var padded := PadStart(digits, decimals + 1);
    PaddedIsLong(digits, decimals + 1);
    intPart, frac := PointPlaced(padded, decimals);
  }

  lemma PointPlaced(padded: string, decimals: nat) returns (intPart: string, frac: string)
    requires AllDigits(padded) && |padded| > decimals
    ensures var cut := |padded| - decimals;
            intPart == StripLeading(padded[..cut]) && frac == StripTrailing(padded[cut..])
    ensures Canonical(intPart, frac, decimals)
    ensures UnitsOf(intPart, frac, decimals) == Value(padded)
  {
    var cut := |padded| - decimals;
    var a, b := padded[..cut], padded[cut..];
    assert a + b == padded;
    TrimmingKeepsUnits(a, b);
    intPart, frac := StripLeading(a), StripTrailing(b);
  }

  // ----- digit grouping

  predicate IsWord(c: char) {
    IsDigit(c) || 'a' <= c <= 'z' || 'A' <= c <= 'Z' || c == '_'
  }

  /** How many digits the text starts with. */
  function Run(s: string): (n: nat)
    ensures n <= |s|
  {
    if s == "" || !IsDigit(s[0]) then 0 else 1 + Run(s[1..])
  }

  predicate CommaBefore(s: string, i: nat)
    requires i < |s|
  {
    0 < i && IsWord(s[i-1]) && Run(s[i..]) > 0 && Run(s[i..]) % 3 == 0
  }

  predicate Wordy(c: char) {
    var code := c as int;
    code == 95 || 48 <= code < 58 || 65 <= code < 91 || 97 <= code < 123
  }

  /** So many digits from i on, then none. */
  predicate DigitsThenNone(s: string, i: nat, n: nat) {
    && i + n <= |s| && (forall k :: i <= k < i + n ==> '0' <= s[k] <= '9')
    && (i + n == |s| || s[i + n] < '0' || s[i + n] > '9')
  }

  lemma {:induction false} RunIsDigits(s: string, i: nat)
    requires i <= |s|
    ensures DigitsThenNone(s, i, Run(s[i..]))
    decreases |s| - i
  {
    if i < |s| && IsDigit(s[i]) {
      assert s[i..][0] == s[i] && s[i..][1..] == s[i+1..];
      RunIsDigits(s, i + 1);
    }
  }

  lemma DigitsEndOnce(s: string, i: nat, n: nat, m: nat)
    requires DigitsThenNone(s, i, n) && DigitsThenNone(s, i, m)
    ensures n == m
  {
  }

  ghost predicate ThreesFollow(s: string, i: nat) {
    exists threes: nat :: threes > 0 && DigitsThenNone(s, i, 3 * threes)
  }

  lemma RunMeans(s: string, i: nat)
    requires i <= |s|
    ensures Run(s[i..]) > 0 && Run(s[i..]) % 3 == 0 <==> ThreesFollow(s, i)
  {
    var n := Run(s[i..]);
    RunIsDigits(s, i);
    if n > 0 && n % 3 == 0 {
      assert DigitsThenNone(s, i, 3 * (n / 3));
    }
    if threes: nat :| threes > 0 && DigitsThenNone(s, i, 3 * threes) {
      DigitsEndOnce(s, i, n, 3 * threes);
    }
  }

  /** A comma goes within a word, before digits in threes up to the end of the digits. */
  lemma CommaMeans(s: string, i: nat)
    requires i < |s|
    ensures CommaBefore(s, i) <==>
              0 < i && Wordy(s[i-1]) && ThreesFollow(s, i)
  {
    RunMeans(s, i);
  }

  function GroupFrom(s: string, i: nat): string
    requires i <= |s|
    decreases |s| - i
  {
    if i == |s| then "" else (if CommaBefore(s, i) then "," else "") + [s[i]] + GroupFrom(s, i + 1)
  }

  function GroupDigits(s: Option<string>): string {
    if s.None? || s.value == "" then DASH else GroupFrom(s.value, 0)
  }

  function NotComma(): char -> bool {
    (c: char) => c != ','
  }

  lemma {:induction false} CommasFrom(s: string, i: nat)
    requires i <= |s| && ',' !in s
    ensures Filter(GroupFrom(s, i), NotComma()) == s[i..]
    decreases |s| - i
  {
    if i < |s| {
      CommasFrom(s, i + 1);
      var comma := if CommaBefore(s, i) then "," else "";
      GroupStep(s, i, comma + [s[i]]);
      HeadComesOut(comma, s[i], GroupFrom(s, i + 1));
      FirstOf(s, i);
    }
  }

  lemma FirstOf(s: string, i: nat)
    requires i < |s|
    ensures s[i..] == [s[i]] + s[i+1..] && s[i] in s
  {
  }

  lemma HeadComesOut(comma: string, c: char, rest: string)
    requires comma == "" || comma == ","
    ensures c != ',' ==> Filter(comma + [c] + rest, NotComma()) == [c] + Filter(rest, NotComma())
  {
    FilterAppend(comma + [c], rest, NotComma());
    FilterAppend(comma, [c], NotComma());
    assert [c][1..] == "" && ","[1..] == "";
  }

  /** Taking the commas out gives the text back. */
  lemma CommasComeOut(s: string)
    requires s != "" && ',' !in s
    ensures Filter(GroupDigits(Some(s)), NotComma()) == s
  {
    CommasFrom(s, 0);
  }

  lemma {:induction false} RunOfDigits(s: string)
    requires AllDigits(s)
    ensures Run(s) == |s|
  {
    if s != "" {
      RunOfDigits(s[1..]);
    }
  }

  lemma CommaInNumeral(s: string, i: nat)
    requires AllDigits(s) && i < |s|
    ensures CommaBefore(s, i) <==> i > 0 && (|s| - i) % 3 == 0
  {
    RunOfDigits(s[i..]);
  }

  lemma LastThree(s: string)
    requires AllDigits(s) && |s| > 3
    ensures GroupFrom(s, |s| - 3) == "," + s[|s|-3..]
  {
    var n := |s|;
    CommaInNumeral(s, n - 3);
    CommaInNumeral(s, n - 2);
    CommaInNumeral(s, n - 1);
    GroupStep(s, n - 3, "," + [s[n-3]]);
    GroupStep(s, n - 2, [s[n-2]]);
    GroupStep(s, n - 1, [s[n-1]]);
    ThreeInARow(s, s[n-3], s[n-2], s[n-1]);
  }

  lemma ThreeInARow(s: string, a: char, b: char, c: char)
    requires |s| > 3 && s[|s|-3] == a && s[|s|-2] == b && s[|s|-1] == c
    ensures ("," + [a]) + ([b] + ([c] + GroupFrom(s, |s|))) == "," + s[|s|-3..]
  {
    assert s[|s|-3..] == [a, b, c];
  }

  lemma CommaIsEarlier(s: string, i: nat)
    requires AllDigits(s) && i < |s| - 3
    ensures CommaBefore(s, i) <==> CommaBefore(s[..|s|-3], i)
  {
    CommaInNumeral(s, i);
    CommaInNumeral(s[..|s|-3], i);
  }

  lemma GroupStep(s: string, i: nat, head: string)
    requires i < |s| && head == (if CommaBefore(s, i) then "," else "") + [s[i]]
    ensures GroupFrom(s, i) == head + GroupFrom(s, i + 1)
  {
  }

  lemma {:induction false} GroupsFromTheLeft(s: string, i: nat)
    requires AllDigits(s) && |s| > 3 && i <= |s| - 3
    ensures GroupFrom(s, i) == GroupFrom(s[..|s|-3], i) + ("," + s[|s|-3..])
    decreases |s| - i
  {
    var front, tail := s[..|s|-3], "," + s[|s|-3..];
    if i == |s| - 3 {
      LastThree(s);
      assert GroupFrom(front, i) == "";
    } else {
      GroupsFromTheLeft(s, i + 1);
      CommaIsEarlier(s, i);
      var head := (if CommaBefore(s, i) then "," else "") + [s[i]];
      GroupStep(s, i, head);
      GroupStep(front, i, head);
      Reassociate(head, GroupFrom(front, i + 1), tail);
    }
  }

  /** A numeral of more than three digits ends in a comma and its last three; the rest is grouped likewise. */
  lemma GroupsOfThree(s: string)
    requires AllDigits(s) && s != ""
    ensures |s| <= 3 ==> GroupDigits(Some(s)) == s
    ensures |s| > 3 ==> GroupDigits(Some(s)) == GroupDigits(Some(s[..|s|-3])) + ("," + s[|s|-3..])
  {
    if |s| > 3 {
      GroupsFromTheLeft(s, 0);
    } else {
      ShortHasNoComma(s, 0);
    }
  }

  lemma {:induction false} ShortHasNoComma(s: string, i: nat)
    requires AllDigits(s) && |s| <= 3 && i <= |s|
    ensures GroupFrom(s, i) == s[i..]
    decreases |s| - i
  {
    if i < |s| {
      CommaInNumeral(s, i);
      ShortHasNoComma(s, i + 1);
    }
  }

  // ----- USDC amounts

  function Unsigned(amount: string): string {
    if amount != "" && amount[0] == '-' then amount[1..] else amount
  }

  function Sign(amount: string): string {
    if amount != "" && amount[0] == '-' then "-" else ""
  }

  function BeforePoint(s: string): string {
    s[..IndexOf(s, '.')]
  }

  /** What stands between the first point and the next. */
  function AfterPoint(s: string): string {
    var i := IndexOf(s, '.');
    if i == |s| then "" else BeforePoint(s[i+1..])
  }

  /** A decimal amount as the API writes them. */
  predicate IsAmount(amount: string) {
    var s := Unsigned(amount);
    && AllDigits(BeforePoint(s)) && AllDigits(AfterPoint(s))
    && (BeforePoint(s) != "" || AfterPoint(s) != "")
    && (s == BeforePoint(s) || s == BeforePoint(s) + "." + AfterPoint(s))
  }

  function Whole(intRaw: string): string {
    if StripLeading(intRaw) == "" then "0" else StripLeading(intRaw)
  }

  predicate LooksSubCent(whole: string, frac: string) {
    whole == "0" && !(frac != "" && '1' <= frac[0] <= '9')
  }

  predicate ShownInFull(whole: string, frac: string) {
    LooksSubCent(whole, frac) && StripTrailing(frac) != ""
  }

  /** Two places at least. */
  function TwoPlaces(frac: string): (r: string)
    ensures |r| >= 2 && frac <= r
  {
    if |frac| < 2 then frac + Zeros(2 - |frac|) else frac
  }

  predicate RoundsUp(frac: string) {
    |frac| > 2 && frac[2] >= '5'
  }

  /** Whole part and cents, after rounding on the third place. */
  function Rounded(whole: string, frac: string): (string, string)
    requires AllDigits(whole) && AllDigits(frac)
  {
    var cents := TwoPlaces(frac)[..2];
    if RoundsUp(frac) then
      var bumped := BumpedText(whole, cents);
      (bumped[..|bumped|-2], bumped[|bumped|-2..])
    else (whole, cents)
  }

  function BumpedText(whole: string, cents: string): (s: string)
    requires AllDigits(whole) && AllDigits(cents)
    ensures |s| >= 3
  {
    PaddedIsLong(Print(Value(whole + cents) + 1), 3);
    PadStart(Print(Value(whole + cents) + 1), 3)
  }

  function Usdc(amount: Option<string>): string
    requires amount.Some? && amount.value != "" ==> IsAmount(amount.value)
  {
    if amount.None? || amount.value == "" then DASH
    else
      var s := Unsigned(amount.value);
      var whole, frac := Whole(BeforePoint(s)), AfterPoint(s);
      WholeIsCanonical(BeforePoint(s));
      if ShownInFull(whole, frac) then Sign(amount.value) + "0." + StripTrailing(frac) + " USDC"
      else
        var (intOut, cents) := Rounded(whole, frac);
        Sign(amount.value) + GroupDigits(Some(intOut)) + "." + cents + " USDC"
  }

  lemma WholeIsCanonical(intRaw: string)
    requires AllDigits(intRaw)
    ensures AllDigits(Whole(intRaw)) && Value(Whole(intRaw)) == Value(intRaw)
    ensures Whole(intRaw) != "" && (Whole(intRaw) == "0" || Whole(intRaw)[0] != '0')
  {
    StripLeadingKeepsValue(intRaw);
    if StripLeading(intRaw) == "" {
      assert intRaw == "" && Value("0") == Value("0"[..0]) * 10 + DigitValue('0');
    }
  }

  // ----- when an amount is shown in full

  lemma {:induction false} LeadDigit(s: string)
    requires AllDigits(s) && s != ""
    ensures Value(s) == DigitValue(s[0]) * Pow10(|s| - 1) + Value(s[1..])
    ensures Value(s[1..]) < Pow10(|s| - 1)
  {
    assert s == [s[0]] + s[1..];
    ValueJoin([s[0]], s[1..]);
    ValueBelow(s[1..]);
    assert [s[0]][..0] == "";
  }

  lemma {:induction false} NothingLeft(frac: string)
    requires AllDigits(frac)
    ensures StripTrailing(frac) == "" <==> Value(frac) == 0
  {
    if frac != "" {
      NothingLeft(frac[..|frac|-1]);
    }
  }

  lemma {:induction false} ZeroWhole(whole: string)
    requires AllDigits(whole) && whole != "" && (whole == "0" || whole[0] != '0')
    ensures whole == "0" <==> Value(whole) == 0
  {
    LeadDigit(whole);
    if whole != "0" {
      AtLeast(DigitValue(whole[0]), Pow10(|whole| - 1));
    } else {
      assert whole[1..] == "";
    }
  }

  lemma AtLeast(d: nat, p: nat)
    requires d > 0
    ensures d * p >= p
  {
  }

  lemma TenthOrMore(d: nat, p: nat, v: nat)
    requires v < p
    ensures d > 0 <==> d * p + v >= p
  {
    if d > 0 {
      AtLeast(d, p);
    }
  }

  /** Full precision is for amounts above zero and below ten cents. */
  lemma FullPrecisionBelowTenCents(intRaw: string, frac: string)
    requires AllDigits(intRaw) && AllDigits(frac)
    ensures ShownInFull(Whole(intRaw), frac)
       <==> Value(intRaw) == 0 && Value(frac) > 0 && Value(frac) * 10 < Pow10(|frac|)
  {
    WholeIsCanonical(intRaw);
    ZeroWhole(Whole(intRaw));
    NothingLeft(frac);
    if frac != "" {
      LeadDigit(frac);
      TenthOrMore(DigitValue(frac[0]), Pow10(|frac| - 1), Value(frac[1..]));
    }
  }

  /** Shown in full, an amount keeps its value and loses only zeros at the end. */
  lemma FullPrecisionIsExact(frac: string)
    requires AllDigits(frac) && StripTrailing(frac) != ""
    ensures var f := StripTrailing(frac);
            && AllDigits(f) && f[|f|-1] != '0'
            && Value(f) * Pow10(|frac| - |f|) == Value(frac)
  {
    var f := StripTrailing(frac);
    StripTrailingCutsZeros(frac);
    ValueJoin(f, Zeros(|frac| - |f|));
    ZerosAreZero(|frac| - |f|);
  }

  // ----- rounding

  lemma HalfOrMore(rest: string)
    requires AllDigits(rest) && rest != ""
    ensures rest[0] >= '5' <==> 2 * Value(rest) >= Pow10(|rest|)
  {
    LeadDigit(rest);
    HalfOfTen(DigitValue(rest[0]), Pow10(|rest| - 1), Value(rest[1..]));
  }

  lemma HalfOfTen(d: nat, p: nat, v: nat)
    requires v < p
    ensures d >= 5 <==> 2 * (d * p + v) >= 10 * p
  {
    if d >= 5 {
      assert d * p >= 5 * p;
    } else {
      assert d * p <= 4 * p;
    }
  }

  /** c is v / s to the nearest whole number, halves going up. */
  predicate Nearest(c: nat, v: nat, s: nat) {
    c * (2 * s) <= 2 * v + s < (c + 1) * (2 * s)
  }

  lemma RoundingIsNearest(t: nat, s: nat, r: nat, up: bool)
    requires r < s && (up <==> 2 * r >= s)
    ensures Nearest(if up then t + 1 else t, t * s + r, s)
  {
    var x := t * s;
    assert t * (2 * s) == 2 * x && (t + 1) * (2 * s) == 2 * x + 2 * s && (t + 2) * (2 * s) == 2 * x + 4 * s;
  }

  lemma {:induction false} PrintLeads(n: nat)
    ensures n >= 10 ==> Print(n)[0] != '0' && |Print(n)| >= 2
  {
    if n >= 100 {
      PrintLeads(n / 10);
    }
  }

  lemma BumpedIsNext(whole: string, cents: string)
    requires AllDigits(whole) && AllDigits(cents)
    ensures var b := BumpedText(whole, cents);
            && AllDigits(b) && Value(b) == Value(whole + cents) + 1
            && (|b| == 3 || b[0] != '0')
  {
    var n := Value(whole + cents) + 1;
    PaddedIsLong(Print(n), 3);
    ValueOfPrint(n);
    PrintLeads(n);
  }

  /** The cents shown, with the whole part before them, read as one numeral. */
  lemma RoundedValue(whole: string, frac: string)
    requires AllDigits(whole) && AllDigits(frac) && whole != "" && (whole == "0" || whole[0] != '0')
    ensures var (intOut, cents) := Rounded(whole, frac);
            && AllDigits(intOut) && AllDigits(cents) && |cents| == 2
            && intOut != "" && (intOut == "0" || intOut[0] != '0')
            && Value(intOut + cents) == Value(whole + TwoPlaces(frac)[..2]) + if RoundsUp(frac) then 1 else 0
  {
    var cents := TwoPlaces(frac)[..2];
    if RoundsUp(frac) {
      BumpedIsNext(whole, cents);
      PartsOfBumped(BumpedText(whole, cents));
    }
  }

  lemma PartsOfBumped(b: string)
    requires AllDigits(b) && |b| >= 3 && (|b| == 3 || b[0] != '0')
    ensures var whole := b[..|b|-2];
            && AllDigits(whole) && AllDigits(b[|b|-2..]) && whole + b[|b|-2..] == b
            && whole != "" && (whole == "0" || whole[0] != '0')
  {
    if b[0] == '0' {
      assert b[..1] == "0";
    }
  }

  /** Everything else is shown to the nearest cent, halves away from zero. */
  lemma UsdcIsNearestCent(whole: string, frac: string)
    requires AllDigits(whole) && AllDigits(frac) && whole != "" && (whole == "0" || whole[0] != '0')
    ensures var (intOut, cents) := Rounded(whole, frac);
            var places := TwoPlaces(frac);
            && AllDigits(intOut + cents) && AllDigits(whole + places)
            && Nearest(Value(intOut + cents), Value(whole + places), Pow10(|places| - 2))
  {
    var places := TwoPlaces(frac);
    var cents, rest := places[..2], places[2..];
    RoundedValue(whole, frac);
    PlacesJoin(whole, places);
    ValueBelow(rest);
    if rest != "" {
      HalfOrMore(rest);
    }
    var (intOut, centsOut) := Rounded(whole, frac);
    PartsAreNearest(Value(whole + cents), Pow10(|rest|), Value(rest), RoundsUp(frac),
                    Value(intOut + centsOut), Value(whole + places));
  }

  lemma PartsAreNearest(t: nat, s: nat, r: nat, up: bool, c: nat, v: nat)
    requires r < s && (up <==> 2 * r >= s)
    requires v == t * s + r && c == if up then t + 1 else t
    ensures Nearest(c, v, s)
  {
    RoundingIsNearest(t, s, r, up);
  }

  lemma PlacesJoin(whole: string, places: string)
    requires AllDigits(whole) && AllDigits(places) && |places| >= 2
    ensures AllDigits(whole + places[..2]) && AllDigits(places[2..]) && AllDigits(whole + places)
    ensures Value(whole + places) == Value(whole + places[..2]) * Pow10(|places| - 2) + Value(places[2..])
  {
    ValueJoin(whole + places[..2], places[2..]);
    assert whole + places[..2] + places[2..] == whole + places;
  }

  /** c hundredths are what v units of the given decimal place come to, or the nearest to it. */
  predicate NearestCents(c: nat, v: nat, places: nat) {
    if places >= 2 then Nearest(c, v, Pow10(places - 2)) else c == v * Pow10(2 - places)
  }

  lemma ZerosMultiply(s: string, n: nat)
    requires AllDigits(s)
    ensures AllDigits(s + Zeros(n)) && Value(s + Zeros(n)) == Value(s) * Pow10(n)
  {
    ValueJoin(s, Zeros(n));
    ZerosAreZero(n);
  }

  lemma PlacesAreZeros(intRaw: string, frac: string)
    requires |frac| < 2
    ensures intRaw + TwoPlaces(frac) == (intRaw + frac) + Zeros(2 - |frac|) && |TwoPlaces(frac)| == 2
  {
  }

  /** Filling up to two places changes no value. */
  lemma PlacesKeepValue(intRaw: string, frac: string)
    requires AllDigits(intRaw) && AllDigits(frac)
    ensures AllDigits(intRaw + TwoPlaces(frac)) && AllDigits(intRaw + frac)
    ensures |frac| >= 2 ==> TwoPlaces(frac) == frac
    ensures |frac| < 2 ==> |TwoPlaces(frac)| == 2
                           && Value(intRaw + TwoPlaces(frac)) == Value(intRaw + frac) * Pow10(2 - |frac|)
  {
    if |frac| < 2 {
      PlacesAreZeros(intRaw, frac);
      ZerosMultiply(intRaw + frac, 2 - |frac|);
    }
  }

  lemma NearestToWhole(c: nat, v: nat)
    requires Nearest(c, v, Pow10(0))
    ensures c == v
  {
    assert Pow10(0) == 1;
  }

  /** The amount itself, for 0 < amount < 0.10. */
  ghost predicate ExactText(text: string, sign: string, frac: string, shown: string)
    requires AllDigits(frac)
  {
    && text == sign + "0." + shown + " USDC"
    && AllDigits(shown) && 0 < |shown| <= |frac| && shown[|shown|-1] != '0'
    && Value(shown) * Pow10(|frac| - |shown|) == Value(frac)
  }

  /** The nearest cent, the whole part grouped by commas. */
  ghost predicate CentsText(text: string, sign: string, intRaw: string, frac: string, whole: string, cents: string)
    requires AllDigits(intRaw) && AllDigits(frac)
  {
    && text == sign + GroupDigits(Some(whole)) + "." + cents + " USDC"
    && AllDigits(whole + cents) && |cents| == 2 && AllDigits(intRaw + frac)
    && whole != "" && (whole == "0" || whole[0] != '0')
    && NearestCents(Value(whole + cents), Value(intRaw + frac), |frac|)
  }

  lemma ShownExactly(amount: string, frac: string)
    requires amount != "" && IsAmount(amount) && frac == AfterPoint(Unsigned(amount))
    requires ShownInFull(Whole(BeforePoint(Unsigned(amount))), frac)
    ensures ExactText(Usdc(Some(amount)), Sign(amount), frac, StripTrailing(frac))
  {
    UsdcFromParts(amount, BeforePoint(Unsigned(amount)), frac);
    FullPrecisionIsExact(frac);
  }

  lemma ShownInCents(amount: string, intRaw: string, frac: string) returns (whole: string, cents: string)
    requires amount != "" && IsAmount(amount)
    requires intRaw == BeforePoint(Unsigned(amount)) && frac == AfterPoint(Unsigned(amount))
    requires !ShownInFull(Whole(intRaw), frac)
    ensures CentsText(Usdc(Some(amount)), Sign(amount), intRaw, frac, whole, cents)
  {
    UsdcFromParts(amount, intRaw, frac);
    whole, cents := CentsOf(intRaw, frac);
  }

  ghost predicate ShowsAmount(text: string, sign: string, intRaw: string, frac: string, whole: string, shown: string)
    requires AllDigits(intRaw) && AllDigits(frac)
  {
    if Value(intRaw) == 0 && Value(frac) > 0 && Value(frac) * 10 < Pow10(|frac|)
    then ExactText(text, sign, frac, shown)
    else CentsText(text, sign, intRaw, frac, whole, shown)
  }

  // ----- what there is nothing to show of

  lemma DashIsNoDigit(s: string)
    requires AllDigits(s) && s != ""
    ensures s[0] != '\U{2014}'
  {
  }

  /** A dash stands for an amount that is absent, empty or, in base units, without any digit, and for no other. */
  lemma DashMeansNothing(s: Option<string>, decimals: nat)
    ensures FromBaseUnits(s, decimals) == "\U{2014}" <==> s.None? || forall c :: c in s.value ==> !('0' <= c <= '9')
    ensures GroupDigits(s) == "\U{2014}" <==> s.None? || s.value in {"", "\U{2014}"}
    ensures (s.Some? && s.value != "" ==> IsAmount(s.value)) ==>
              (Usdc(s) == "\U{2014}" <==> s.None? || s.value == "")
  {
    if s.Some? && s.value != "" {
      DashOfUnits(s.value, decimals);
      DashOfGroups(s.value);
      if IsAmount(s.value) {
        var whole, shown := UsdcShows(s.value);
        DashOfUsdc(s.value, whole, shown);
      }
    }
  }

  lemma DashOfUnits(wei: string, decimals: nat)
    ensures FromBaseUnits(Some(wei), decimals) == "\U{2014}" <==> forall c :: c in wei ==> !('0' <= c <= '9')
  {
    if DigitsOf(wei) != "" {
      var intPart, frac := BaseUnitsAreExact(wei, decimals);
      DashIsNoDigit(intPart);
      assert Pointed(intPart, frac)[0] == intPart[0];
      assert DigitsOf(wei)[0] in DigitsOf(wei);
    } else {
      forall c | c in wei ensures !IsDigit(c) {
        assert c in wei && IsDigit(c) ==> c in DigitsOf(wei);
      }
    }
  }

  lemma DashOfGroups(s: string)
    requires s != ""
    ensures GroupDigits(Some(s)) == "\U{2014}" <==> s == "\U{2014}"
  {
    var g := GroupFrom(s, 0);
    assert g == [s[0]] + GroupFrom(s, 1);
    if |s| > 1 {
      assert |GroupFrom(s, 1)| > 0;
    }
  }

  lemma DashOfUsdc(amount: string, whole: string, shown: string)
    requires amount != "" && IsAmount(amount)
    requires var s := Unsigned(amount);
             ShowsAmount(Usdc(Some(amount)), Sign(amount), BeforePoint(s), AfterPoint(s), whole, shown)
    ensures Usdc(Some(amount)) != "\U{2014}"
  {
    assert |Usdc(Some(amount))| > 1;
  }

  /** What every amount is shown as. */
  lemma UsdcShows(amount: string) returns (whole: string, shown: string)
    requires amount != "" && IsAmount(amount)
    ensures var s := Unsigned(amount);
            var intRaw, frac := BeforePoint(s), AfterPoint(s);
            ShowsAmount(Usdc(Some(amount)), Sign(amount), intRaw, frac, whole, shown)
  {
    var s := Unsigned(amount);
    var intRaw, frac := BeforePoint(s), AfterPoint(s);
    FullPrecisionBelowTenCents(intRaw, frac);
    if ShownInFull(Whole(intRaw), frac) {
      whole, shown := "", StripTrailing(frac);
      ShownExactly(amount, frac);
    } else {
      whole, shown := ShownInCents(amount, intRaw, frac);
    }
  }

  lemma UsdcFromParts(amount: string, intRaw: string, frac: string)
    requires amount != "" && IsAmount(amount)
    requires intRaw == BeforePoint(Unsigned(amount)) && frac == AfterPoint(Unsigned(amount))
    ensures AllDigits(Whole(intRaw))
    ensures Usdc(Some(amount)) == if ShownInFull(Whole(intRaw), frac)
                                  then Sign(amount) + "0." + StripTrailing(frac) + " USDC"
                                  else var (w, c) := Rounded(Whole(intRaw), frac);
                                       Sign(amount) + GroupDigits(Some(w)) + "." + c + " USDC"
  {
    WholeIsCanonical(intRaw);
  }

  lemma CentsOf(intRaw: string, frac: string) returns (whole: string, cents: string)
    requires AllDigits(intRaw) && AllDigits(frac)
    ensures AllDigits(Whole(intRaw)) && (whole, cents) == Rounded(Whole(intRaw), frac)
    ensures AllDigits(whole + cents) && |cents| == 2 && AllDigits(intRaw + frac)
    ensures whole != "" && (whole == "0" || whole[0] != '0')
    ensures NearestCents(Value(whole + cents), Value(intRaw + frac), |frac|)
  {
    WholeIsCanonical(intRaw);
    var (w, c) := Rounded(Whole(intRaw), frac);
    whole, cents := w, c;
    RoundedValue(Whole(intRaw), frac);
    UsdcIsNearestCent(Whole(intRaw), frac);
    SameHeadValue(Whole(intRaw), intRaw, TwoPlaces(frac));
    PlacesKeepValue(intRaw, frac);
    if |frac| < 2 {
      NearestToWhole(Value(whole + cents), Value(intRaw + TwoPlaces(frac)));
    }
  }

  // ----- by the parts of the text

  /** An amount as the API writes it: a sign or none, the whole part, and a point with the fraction or none. */
  function AmountText(negative: bool, intRaw: string, frac: string): string {
    (if negative then "-" else "") + intRaw + (if frac == "" then "" else "." + frac)
  }

  lemma PartsOfAmount(negative: bool, intRaw: string, frac: string)
    requires AllDigits(intRaw) && AllDigits(frac) && intRaw + frac != ""
    ensures var amount := AmountText(negative, intRaw, frac);
            && amount != "" && IsAmount(amount)
            && Sign(amount) == (if negative then "-" else "")
            && BeforePoint(Unsigned(amount)) == intRaw && AfterPoint(Unsigned(amount)) == frac
  {
    var amount, s := AmountText(negative, intRaw, frac), intRaw + if frac == "" then "" else "." + frac;
    assert amount == (if negative then "-" else "") + s;
    assert Unsigned(amount) == s;
    NoPointInDigits(intRaw);
    NoPointInDigits(frac);
    if frac == "" {
      assert s == intRaw;
    } else {
      assert s == intRaw + ['.'] + frac;
      CutAtSeparator(s, intRaw, frac, '.');
    }
  }

  /**
   Below ten cents and above zero an amount is shown with all its places but zeros at the
   end; every other to the nearest cent, halves away from zero, exactly if it has no more
   than two places; with the sign it came with.
   */
  lemma UsdcMeans(negative: bool, intRaw: string, frac: string) returns (whole: string, shown: string)
    requires AllDigits(intRaw) && AllDigits(frac) && intRaw + frac != ""
    ensures IsAmount(AmountText(negative, intRaw, frac))
    ensures ShowsAmount(Usdc(Some(AmountText(negative, intRaw, frac))), if negative then "-" else "",
                        intRaw, frac, whole, shown)
  {
    PartsOfAmount(negative, intRaw, frac);
    whole, shown := UsdcShows(AmountText(negative, intRaw, frac));
  }

  /** One place is filled up with a zero: 12.5 is shown as 12.50. */
  lemma OnePlaceGetsAZero(intRaw: string, tenths: char)
    requires AllDigits(intRaw) && 1 <= |intRaw| <= 3 && intRaw[0] != '0' && IsDigit(tenths)
    ensures Usdc(Some(AmountText(false, intRaw, [tenths]))) == intRaw + "." + [tenths, '0'] + " USDC"
  {
    var amount := AmountText(false, intRaw, [tenths]);
    PartsOfAmount(false, intRaw, [tenths]);
    UsdcFromParts(amount, intRaw, [tenths]);
    assert Whole(intRaw) == intRaw && intRaw != "0";
    OneZeroMore(tenths);
    assert Rounded(intRaw, [tenths]) == (intRaw, [tenths, '0']);
    GroupsOfThree(intRaw);
    assert "" + intRaw + "." + [tenths, '0'] + " USDC" == intRaw + "." + [tenths, '0'] + " USDC";
  }

  lemma OneZeroMore(c: char)
    ensures TwoPlaces([c]) == [c, '0'] == TwoPlaces([c])[..2]
  {
    assert Zeros(1) == ['0'];
  }

  /** An amount that starts 0.0 and does not end in 0 is shown as it came. */
  lemma SmallAmountsAsTheyCame(frac: string)
    requires AllDigits(frac) && frac != "" && frac[0] == '0' && frac[|frac|-1] != '0'
    ensures IsAmount("0." + frac) && Usdc(Some("0." + frac)) == "0." + frac + " USDC"
  {
    var s := "0." + frac;
    assert s == "0" + ['.'] + frac;
    CutAtSeparator(s, "0", frac, '.');
    NoPointInDigits(frac);
    assert Whole("0") == "0" && StripTrailing(frac) == frac;
    assert "" + "0." + frac + " USDC" == "0." + frac + " USDC";
  }

  lemma {:induction false} NoPointInDigits(s: string)
    requires AllDigits(s)
    ensures IndexOf(s, '.') == |s| && BeforePoint(s) == s
  {
    if s != "" {
      NoPointInDigits(s[1..]);
    }
  }

  /** The documented bound for full precision is one cent: 0.012 is above it and is not shown as 0.01. */
  lemma FullPrecisionAboveOneCent()
    ensures Value("012") * 100 >= Pow10(3) && IsAmount("0." + "012")
    ensures Usdc(Some("0." + "012")) == "0." + "012" + " USDC"
  {
    SmallAmountsAsTheyCame("012");
    assert "012"[..2] == "01" && "01"[..1] == "0" && "0"[..0] == "";
    assert Value("01") == 1;
  }
}
