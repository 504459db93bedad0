/** Text handling of the `[screen]` parser (`screener/criteria.py`): trimming, splitting and decimal
    numbers. Letters, digits and blanks are the ASCII ones. A number is a mantissa and a count of
    decimal places, in normal form, so that equal numbers are equal values; texts of numbers read back
    as themselves. */
module ScreenText {
  import opened Prelude

  predicate IsSpace(c: char) {
    c in {' ', '\t', '\n', '\r'} || 0xB <= c as int <= 0xC || 0x1C <= c as int <= 0x1F
  }

  function StripLeft(s: string): (r: string)
    ensures |r| <= |s| && r == s[|s| - |r|..]
    ensures r != "" ==> !IsSpace(r[0])
  {
    if s != "" && IsSpace(s[0]) then StripLeft(s[1..]) else s
  }

  function StripRight(s: string): (r: string)
    ensures r <= s
    ensures r != "" ==> !IsSpace(r[|r| - 1])
  {
    if s != "" && IsSpace(s[|s| - 1]) then StripRight(s[..|s| - 1]) else s
  }

  function Strip(s: string): string {
    StripRight(StripLeft(s))
  }

  /** Neither begins nor ends with a blank. */
  predicate Trimmed(s: string) {
    s != "" ==> !IsSpace(s[0]) && !IsSpace(s[|s| - 1])
  }

  lemma {:induction false} StripTrims(s: string)
    ensures Trimmed(Strip(s))
    ensures Trimmed(s) ==> Strip(s) == s
  {
    hide IsSpace;
    var t := StripLeft(s);
    var r := StripRight(t);
    if r != "" {
      assert r[0] == t[0];
    }
  }

  function StripReturns(s: string): string {
    if s != "" && s[|s| - 1] == '\r' then StripReturns(s[..|s| - 1]) else s
  }

  function LowerChar(c: char): char {
    if 'A' <= c <= 'Z' then c - 'A' + 'a' else c
  }

  function UpperChar(c: char): char {
    if 'a' <= c <= 'z' then c - 'a' + 'A' else c
  }

  function Lower(s: string): (r: string)
    ensures |r| == |s| && forall k :: 0 <= k < |s| ==> r[k] == LowerChar(s[k])
  {
    seq(|s|, k requires 0 <= k < |s| => LowerChar(s[k]))
  }

  function Upper(s: string): (r: string)
    ensures |r| == |s| && forall k :: 0 <= k < |s| ==> r[k] == UpperChar(s[k])
  {
    seq(|s|, k requires 0 <= k < |s| => UpperChar(s[k]))
  }

  predicate IsLetter(c: char) {
    'a' <= c <= 'z' || 'A' <= c <= 'Z'
  }

  /** Position of the first `c`, or the length. */
  function Find(s: string, c: char): (k: nat)
    ensures k <= |s| && (k < |s| ==> s[k] == c) && forall j :: 0 <= j < k ==> s[j] != c
  {
    if s == "" || s[0] == c then 0 else 1 + Find(s[1..], c)
  }

  /** Position of the first two dots in a row, or the length. */
  function FindDots(s: string): (k: nat)
    ensures k <= |s| && (k < |s| ==> k + 1 < |s| && s[k] == '.' && s[k + 1] == '.')
  {
    if s == "" then 0
    else if |s| >= 2 && s[0] == '.' && s[1] == '.' then 0
    else
      var k := FindDots(s[1..]);
      1 + k
  }

  /** The lines of a text: what is between its newlines. */
  function Lines(s: string): (lines: seq<string>)
    ensures |lines| > 0
  {
    if s == "" then [""]
    else
      var k := |s| - 1;
      var before := Lines(s[..k]);
      if s[k] == '\n' then before + [""] else before[..|before| - 1] + [before[|before| - 1] + [s[k]]]
  }

  /** Lines of a concatenation: the last line of the first part and the first of the second are one. */
  lemma {:induction false} LinesConcat(a: string, b: string)
    ensures Lines(a + b) == Joined(Lines(a), Lines(b))
    decreases |b|
  {
    if b == "" {
      assert a + b == a;
      JoinedEmpty(Lines(a));
    } else {
      var front, c := b[..|b| - 1], b[|b| - 1];
      hide Lines, Joined, WithChar;
      LinesConcat(a, front);
      assert a + b == (a + front) + [c] && b == front + [c];
      LinesSnoc(a + front, c);
      LinesSnoc(front, c);
      JoinLast(Lines(a), Lines(front), c);
    }
  }

  lemma {:induction false} JoinedEmpty(x: seq<string>)
    requires |x| > 0
    ensures Joined(x, [""]) == x
  {
    assert x[|x| - 1] + "" == x[|x| - 1];
  }

  lemma {:induction false} LinesSnoc(s: string, c: char)
    ensures Lines(s + [c]) == WithChar(Lines(s), c)
  {
    assert (s + [c])[..|s|] == s;
  }

  function WithChar(lines: seq<string>, c: char): seq<string>
    requires |lines| > 0
  {
    if c == '\n' then lines + [""] else lines[..|lines| - 1] + [lines[|lines| - 1] + [c]]
  }

  function Joined(x: seq<string>, y: seq<string>): seq<string>
    requires |x| > 0 && |y| > 0
  {
    x[..|x| - 1] + [x[|x| - 1] + y[0]] + y[1..]
  }

  lemma {:induction false} JoinLast(x: seq<string>, z: seq<string>, c: char)
    requires |x| > 0 && |z| > 0
    ensures WithChar(Joined(x, z), c) == Joined(x, WithChar(z, c))
  {
    var n := |x| - 1;
    if |z| == 1 && c != '\n' {
      assert x[n] + (z[0] + [c]) == x[n] + z[0] + [c];
    }
    assert |WithChar(Joined(x, z), c)| == |Joined(x, WithChar(z, c))|;
  }

  function Occurrences(s: string, c: char): nat {
    if s == "" then 0 else Occurrences(s[..|s| - 1], c) + if s[|s| - 1] == c then 1 else 0
  }

  lemma {:induction false} LinesCount(s: string)
    ensures |Lines(s)| == Occurrences(s, '\n') + 1
  {
    if s != "" {
      LinesCount(s[..|s| - 1]);
    }
  }

  // ----- decimal numbers -----

  /** An exact decimal: `mantissa / 10^places`, in lowest terms. */
  datatype Decimal = Decimal(mantissa: int, places: nat)

  function Pow10(n: nat): (p: nat)
    ensures p >= 1
  {
    if n == 0 then 1 else 10 * Pow10(n - 1)
  }

  predicate Normal(d: Decimal) {
    d.places == 0 || d.mantissa % 10 != 0
  }

  function Reduce(mantissa: int, places: nat): (d: Decimal)
    ensures Normal(d)
    ensures places == 0 || mantissa % 10 != 0 ==> d == Decimal(mantissa, places)
    decreases places
  {
    if places > 0 && mantissa % 10 == 0 then Reduce(mantissa / 10, places - 1) else Decimal(mantissa, places)
  }

  predicate AtMost(a: Decimal, b: Decimal) {
    a.mantissa * Pow10(b.places) <= b.mantissa * Pow10(a.places)
  }

  predicate Whole(d: Decimal) {
    d.places == 0
  }

  const MAX_NUMBER := 1_000_000_000_000_000_000

  function AbsInt(m: int): nat {
    if m >= 0 then m else -m
  }

  predicate TooLarge(d: Decimal) {
    AbsInt(d.mantissa) > MAX_NUMBER * Pow10(d.places)
  }

  predicate IsDigit(c: char) {
    '0' <= c <= '9'
  }

  predicate AllDigits(s: string) {
    forall k :: 0 <= k < |s| ==> IsDigit(s[k])
  }

  function DigitsValue(s: string): nat
    requires AllDigits(s)
  {
    if s == "" then 0 else DigitsValue(s[..|s| - 1]) * 10 + (s[|s| - 1] as int - '0' as int)
  }

  /** The power of ten of a magnitude letter. */
  function Magnitude(c: char): Option<nat> {
    match UpperChar(c)
    case 'K' => Some(3)
    case 'M' => Some(6)
    case 'B' => Some(9)
    case 'T' => Some(12)
    case _ => None
  }

  /** A number without sign and magnitude letter: its digits, and how many of them follow the dot. */
  function ParseDigits(s: string): (r: Option<(string, nat)>)
    ensures r.Some? ==> AllDigits(r.value.0)
  {
    var dot := Find(s, '.');
    if dot == |s| then (if s != "" && AllDigits(s) then Some((s, 0)) else None)
    else
      var whole, fraction := s[..dot], s[dot + 1..];
      if whole != "" && fraction != "" && AllDigits(whole) && AllDigits(fraction) then Some((whole + fraction, |fraction|)) else None
  }

  function Scaled(mantissa: int, places: nat, power: nat): (d: Decimal)
    ensures Normal(d)
  {
    if power >= places then Decimal(mantissa * Pow10(power - places), 0) else Reduce(mantissa, places - power)
  }

  /** `-12.5K` and the like; a number beyond the largest magnitude is no number. */
  function ParseNumber(token: string): (r: Option<Decimal>)
    ensures r.Some? ==> Normal(r.value) && !TooLarge(r.value)
  {
    var negative := token != "" && token[0] == '-';
    var unsigned := if negative then token[1..] else token;
    var letter := if unsigned == "" then None else Magnitude(unsigned[|unsigned| - 1]);
    var body := if letter.Some? then unsigned[..|unsigned| - 1] else unsigned;
    var digits := ParseDigits(body);
    if digits.None? then None
    else
      var m: int := DigitsValue(digits.value.0);
      var d := Scaled(if negative then -m else m, digits.value.1, if letter.Some? then letter.value else 0);
      if TooLarge(d) then None else Some(d)
  }

  // ----- rendering -----

  function Digit(k: nat): char
    requires k < 10
  {
    '0' + k as char
  }

  function Digits(k: nat): (s: string)
    ensures s != "" && AllDigits(s)
  {
    if k < 10 then [Digit(k)] else Digits(k / 10) + [Digit(k % 10)]
  }

  function Padded(s: string, length: nat): (r: string)
    requires AllDigits(s)
    ensures AllDigits(r) && |r| >= length && |r| >= |s|
    decreases length - |s|
  {
    if |s| < length then Padded("0" + s, length) else s
  }

  /** Plain decimal notation, without magnitude letter. */
  function RenderNumber(d: Decimal): string {
    (if d.mantissa < 0 then "-" else "") + Dotted(Padded(Digits(AbsInt(d.mantissa)), d.places + 1), d.places)
  }

  /** A dot before the last `places` digits. */
  function Dotted(digits: string, places: nat): string
    requires |digits| >= places
  {
    var cut := |digits| - places;
    digits[..cut] + if places > 0 then "." + digits[cut..] else ""
  }

  lemma {:induction false} DigitsValueSnoc(s: string, c: char)
    requires AllDigits(s) && IsDigit(c)
    ensures AllDigits(s + [c]) && DigitsValue(s + [c]) == DigitsValue(s) * 10 + (c as int - '0' as int)
  {
    assert (s + [c])[..|s|] == s;
  }

  lemma {:induction false} DigitsRoundTrip(k: nat)
    ensures DigitsValue(Digits(k)) == k
  {
    if k < 10 {
      assert [Digit(k)] == "" + [Digit(k)];
      DigitsValueSnoc("", Digit(k));
    } else {
      DigitsRoundTrip(k / 10);
      DigitsValueSnoc(Digits(k / 10), Digit(k % 10));
    }
  }

  lemma {:induction false} LeadingZero(s: string)
    requires AllDigits(s)
    ensures AllDigits("0" + s) && DigitsValue("0" + s) == DigitsValue(s)
  {
    if s == "" {
      assert "0" + s == "" + ['0'];
      DigitsValueSnoc("", '0');
    } else {
      var front, c := s[..|s| - 1], s[|s| - 1];
      LeadingZero(front);
      assert s == front + [c] && "0" + s == ("0" + front) + [c];
      DigitsValueSnoc(front, c);
      DigitsValueSnoc("0" + front, c);
    }
  }

  lemma {:induction false} PaddedValue(s: string, length: nat)
    requires AllDigits(s)
    ensures DigitsValue(Padded(s, length)) == DigitsValue(s)
    decreases length - |s|
  {
    if |s| < length {
      LeadingZero(s);
      PaddedValue("0" + s, length);
    }
  }

  /** Digits, then possibly a dot and more digits: what a rendered number looks like after its sign. */
  ghost predicate Plain(s: string) {
    && s != "" && IsDigit(s[0]) && IsDigit(s[|s| - 1])
    && forall k :: 0 <= k < |s| ==> PlainAt(s, k)
  }

  predicate PlainAt(s: string, k: nat)
    requires k < |s|
  {
    IsDigit(s[k]) || (s[k] == '.' && 0 < k < |s| - 1 && IsDigit(s[k - 1]) && IsDigit(s[k + 1]))
  }

  lemma {:induction false} FindUnique(s: string, c: char, at: nat)
    requires at <= |s| && (at < |s| ==> s[at] == c) && forall k :: 0 <= k < at ==> s[k] != c
    ensures Find(s, c) == at
  {}

  lemma {:induction false} ParseDigitsOf(digits: string, places: nat)
    requires AllDigits(digits) && |digits| > places
    ensures ParseDigits(Dotted(digits, places)) == Some((digits, places)) && Plain(Dotted(digits, places))
  {
    hide IsDigit;
    if places == 0 {
      WholeDigits(digits);
    } else {
      FractionDigits(digits, places);
    }
  }

  lemma {:induction false} WholeDigits(digits: string)
    requires AllDigits(digits) && digits != ""
    ensures ParseDigits(Dotted(digits, 0)) == Some((digits, 0)) && Plain(Dotted(digits, 0))
  {
    assert Dotted(digits, 0) == digits;
    FindUnique(digits, '.', |digits|);
  }

  lemma {:induction false} FractionDigits(digits: string, places: nat)
    requires AllDigits(digits) && |digits| > places > 0
    ensures ParseDigits(Dotted(digits, places)) == Some((digits, places)) && Plain(Dotted(digits, places))
  {
    var cut := |digits| - places;
    var s := Dotted(digits, places);
    assert s[..cut] == digits[..cut] && s[cut] == '.' && s[cut + 1..] == digits[cut..];
    FindUnique(s, '.', cut);
    assert digits[..cut] + digits[cut..] == digits;
    DottedIsPlain(digits, places);
    hide Find, Dotted, Plain;
  }

  lemma {:induction false} DottedIsPlain(digits: string, places: nat)
    requires AllDigits(digits) && |digits| > places > 0
    ensures Plain(Dotted(digits, places))
  {
    hide IsDigit;
  }

  /** Parsing the plain notation of an exact decimal gives the decimal back. */
  lemma {:induction false} NumberRoundTrip(d: Decimal)
    requires Normal(d) && !TooLarge(d)
    ensures ParseNumber(RenderNumber(d)) == Some(d)
    ensures var s := RenderNumber(d);
      var unsigned := if d.mantissa < 0 then s[1..] else s;
      s != "" && (d.mantissa < 0 ==> s[0] == '-') && Plain(unsigned)
  {
    hide *;
    var digits, plain := PlainForm(d);
    SignedNumber(d.mantissa < 0, plain, digits, d.places);
    ValueBack(d, digits);
  }

  /** The unsigned text, and the digits in it. */
  lemma {:induction false} PlainForm(d: Decimal) returns (digits: string, plain: string)
    ensures AllDigits(digits) && DigitsValue(digits) == AbsInt(d.mantissa)
    ensures Plain(plain) && ParseDigits(plain) == Some((digits, d.places))
    ensures RenderNumber(d) == (if d.mantissa < 0 then "-" else "") + plain
  {
    hide Digits, Padded, DigitsValue, ParseDigits, Dotted, Plain;
    var k := AbsInt(d.mantissa);
    digits := Padded(Digits(k), d.places + 1);
    plain := Dotted(digits, d.places);
    DigitsRoundTrip(k);
    PaddedValue(Digits(k), d.places + 1);
    ParseDigitsOf(digits, d.places);
  }

  /** A sign in front, no letter behind: the number is what the digits say. */
  lemma {:induction false} SignedNumber(negative: bool, plain: string, digits: string, places: nat)
    requires Plain(plain) && ParseDigits(plain) == Some((digits, places)) && AllDigits(digits)
    ensures var s := (if negative then "-" else "") + plain;
      var m: int := DigitsValue(digits);
      var d := Scaled(if negative then -m else m, places, 0);
      && ParseNumber(s) == (if TooLarge(d) then None else Some(d))
      && s != "" && (negative ==> s[0] == '-') && (if negative then s[1..] else s) == plain
  {
    hide ParseDigits, TooLarge, Scaled, Magnitude, DigitsValue;
    PlainEnds(plain);
    hide Plain;
    var s := (if negative then "-" else "") + plain;
    assert (if negative then s[1..] else s) == plain;
  }

  lemma {:induction false} PlainEnds(plain: string)
    requires Plain(plain)
    ensures plain != "" && plain[0] != '-' && Magnitude(plain[|plain| - 1]) == None
  {
    NoLetter(plain[|plain| - 1]);
  }

  lemma {:induction false} NoLetter(c: char)
    requires IsDigit(c)
    ensures Magnitude(c) == None
  {}

  lemma {:induction false} ValueBack(d: Decimal, digits: string)
    requires Normal(d) && AllDigits(digits) && DigitsValue(digits) == AbsInt(d.mantissa)
    ensures var m: int := DigitsValue(digits);
      Scaled(if d.mantissa < 0 then -m else m, d.places, 0) == d
  {
    hide DigitsValue;
    Pow10One();
  }

  lemma {:induction false} Pow10One()
    ensures Pow10(0) == 1
  {}
}
