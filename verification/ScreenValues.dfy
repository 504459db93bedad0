/** What each key of a `[screen]` block accepts and refuses, in plain terms (`screener/criteria.py`): what
    trimming takes away, which ranges, texts, flags, windows, percentages, histories and limits are values and
    which problem every other text has, and how large a block is. */
module ScreenValues {
  import opened Prelude
  import opened ScreenText
  import opened Screen
  import opened ScreenPlain

  // ----- blanks -----

  predicate Blank(c: char) {
    c as int in {9, 10, 11, 12, 13, 28, 29, 30, 31, 32}
  }

  ghost predicate AllBlank(s: string) {
    forall k :: 0 <= k < |s| ==> Blank(s[k])
  }

  /** `t` is `s` without the blanks around it. */
  ghost predicate Core(s: string, t: string) {
    && (exists before, after :: AllBlank(before) && AllBlank(after) && s == before + t + after)
    && (t != "" ==> !Blank(t[0]) && !Blank(t[|t| - 1]))
  }

  lemma {:induction false} BlankIsSpace(c: char)
    ensures IsSpace(c) <==> Blank(c)
  {}

  lemma {:induction false} LeftBlank(s: string, k: nat)
    requires k < |s| - |StripLeft(s)|
    ensures Blank(s[k])
  {
    hide Blank, IsSpace;
    BlankIsSpace(s[0]);
    if k > 0 {
      LeftBlank(s[1..], k - 1);
    }
  }

  lemma {:induction false} LeftPart(s: string) returns (before: string)
    ensures AllBlank(before) && s == before + StripLeft(s)
  {
    hide Blank, StripLeft;
    before := s[..|s| - |StripLeft(s)|];
    forall k | 0 <= k < |before| ensures Blank(before[k]) {
      LeftBlank(s, k);
    }
  }

  lemma {:induction false} RightPart(s: string) returns (after: string)
    ensures AllBlank(after) && s == StripRight(s) + after
  {
    hide Blank, IsSpace;
    after := "";
    if s != "" && IsSpace(s[|s| - 1]) {
      BlankIsSpace(s[|s| - 1]);
      var rest := RightPart(s[..|s| - 1]);
      after := rest + [s[|s| - 1]];
      assert StripRight(s) == StripRight(s[..|s| - 1]);
    }
  }

  lemma {:induction false} ReturnsPart(s: string) returns (after: string)
    ensures AllBlank(after) && s == StripReturns(s) + after
  {
    after := "";
    if s != "" && s[|s| - 1] == '\r' {
      var rest := ReturnsPart(s[..|s| - 1]);
      after := rest + [s[|s| - 1]];
    }
  }

  lemma {:induction false} EndsBare(s: string)
    ensures var t := Strip(s);
      t != "" ==> !Blank(t[0]) && !Blank(t[|t| - 1])
  {
    StripTrims(s);
    var t := Strip(s);
    if t != "" {
      BlankIsSpace(t[0]);
      BlankIsSpace(t[|t| - 1]);
    }
    hide IsSpace, Blank, Strip;
  }

  /** Stripping takes the blanks at both ends and nothing else. */
  lemma {:induction false} StripMeans(s: string)
    ensures Core(s, Strip(s))
  {
    EndsBare(s);
    hide Blank, StripLeft, StripRight;
    var before := LeftPart(s);
    var after := RightPart(StripLeft(s));
    assert s == before + Strip(s) + after;
  }

  /** So it is for a line, returns included. */
  lemma {:induction false} LineCore(raw: string)
    ensures Core(raw, Strip(StripReturns(raw)))
  {
    hide Blank, StripReturns, StripLeft, StripRight;
    var s := StripReturns(raw);
    EndsBare(s);
    var before := LeftPart(s);
    var after := RightPart(StripLeft(s));
    var returns_ := ReturnsPart(raw);
    var tail := after + returns_;
    assert AllBlank(tail) && raw == before + Strip(s) + tail;
    hide Strip;
  }

  // ----- numbers -----

  /** The text stands for this number. */
  predicate Reads(text: string, d: Decimal) {
    ParseNumber(text) == Some(d)
  }

  lemma {:induction false} WholeMeans(d: Decimal)
    requires Normal(d)
    ensures d.places == 0 <==> d.mantissa % Pow10(d.places) == 0
  {
    var m, p := d.mantissa, Pow10(d.places);
    if d.places == 0 {
      assert p == 1;
    } else if m % p == 0 {
      TenDivides(m, m / p, Pow10(d.places - 1));
    }
  }

  lemma {:induction false} TenDivides(m: int, q: int, p: int)
    requires m == (10 * p) * q
    ensures m % 10 == 0
  {
    assert m == 10 * (p * q);
  }

  /** A number equal to a whole one is written as that whole number. */
  lemma {:induction false} WholeWorth(d: Decimal, n: int)
    requires Normal(d)
    ensures Worth(d) == n as real <==> d == Decimal(n, 0)
  {
    var p := Pow10(d.places);
    DivCancel(d.mantissa as real, p as real);
    if Worth(d) == n as real {
      assert d.mantissa as real == n as real * p as real;
      Casts(n, p);
      ModIsZero(n, p);
      WholeMeans(d);
    }
    hide Normal;
  }

  lemma {:induction false} ModIsZero(n: int, p: int)
    requires p > 0
    ensures (n * p) % p == 0
  {
    var m := n * p;
    var q, r := m / p, m % p;
    assert m == p * q + r;
    assert p * (n - q) == r;
    if n - q > 0 {
      Grows(p, n - q);
    } else if n - q < 0 {
      Grows(p, q - n);
    }
  }

  lemma {:induction false} Grows(p: int, k: int)
    requires p > 0 && k > 0
    ensures p * k >= p
  {}

  // ----- ranges -----

  predicate DotsAt(val: string, k: int) {
    0 <= k && k + 1 < |val| && val[k] == '.' && val[k + 1] == '.'
  }

  /** The first two dots in a row. */
  ghost predicate FirstDots(val: string, k: nat) {
    DotsAt(val, k) && forall j :: 0 <= j < k ==> !DotsAt(val, j)
  }

  lemma {:induction false} DotsFound(val: string)
    ensures var k := FindDots(val);
      if k < |val| then FirstDots(val, k) else forall j :: !DotsAt(val, j)
  {
    if val != "" && !DotsAt(val, 0) {
      var rest := val[1..];
      DotsFound(rest);
      forall j | 1 <= j ensures DotsAt(val, j) <==> DotsAt(rest, j - 1) {}
    }
  }

  lemma {:induction false} DotsAreFirst(val: string, k: nat)
    requires FirstDots(val, k)
    ensures FindDots(val) == k && k + 1 < |val|
  {
    DotsFound(val);
    hide FindDots;
  }

  lemma {:induction false} NoDots(val: string)
    requires forall j :: !DotsAt(val, j)
    ensures FindDots(val) == |val|
  {
    DotsFound(val);
    hide FindDots;
  }

  /** Two numbers around two dots are a range from the first to the second, unless either is no number or the first
      is the larger. */
  lemma {:induction false} DotsGiveBoth(key: Key, before: Option<Value>, val: string, k: nat)
    requires key in {MarketCap, Price, Volume, Beta, Dividend} && FirstDots(val, k)
    ensures var lo, hi := ParseNumber(Strip(val[..k])), ParseNumber(Strip(val[k + 2..]));
      if lo.None? || hi.None? then ParseValue(key, val, before) == Err(BadEnds)
      else if Worth(lo.value) > Worth(hi.value) then ParseValue(key, val, before) == Err(InvertedRange)
      else ParseValue(key, val, before) == Ok(Range(lo, hi))
  {
    hide *;
    DotsAreFirst(val, k);
    DotsParse(key, before, val, k);
    OnlyIfLarger(ParseNumber(Strip(val[..k])), ParseNumber(Strip(val[k + 2..])));
  }

  lemma {:induction false} DotsParse(key: Key, before: Option<Value>, val: string, k: nat)
    requires key in {MarketCap, Price, Volume, Beta, Dividend} && FindDots(val) == k && k + 1 < |val|
    ensures var lo, hi := ParseNumber(Strip(val[..k])), ParseNumber(Strip(val[k + 2..]));
      if lo.None? || hi.None? then ParseValue(key, val, before) == Err(BadEnds)
      else if !AtMost(lo.value, hi.value) then ParseValue(key, val, before) == Err(InvertedRange)
      else ParseValue(key, val, before) == Ok(Range(lo, hi))
  {
    hide FindDots, ParseNumber, Strip, AtMost;
  }

  lemma {:induction false} OnlyIfLarger(lo: Option<Decimal>, hi: Option<Decimal>)
    ensures lo.Some? && hi.Some? ==> (AtMost(lo.value, hi.value) <==> Worth(lo.value) <= Worth(hi.value))
  {
    if lo.Some? && hi.Some? {
      AtMostMeans(lo.value, hi.value);
    }
    hide AtMost, Pow10;
  }

  /** Without two dots, `>=` sets the lower bound and `<=` the upper one; a bare `>` or `<` is refused as strict
      and anything else as no range. */
  lemma {:induction false} SignGivesOne(key: Key, before: Option<Value>, val: string)
    requires key in {MarketCap, Price, Volume, Beta, Dividend} && forall j :: !DotsAt(val, j)
    ensures |val| >= 2 && val[0] == '>' && val[1] == '=' ==>
      var n := ParseNumber(Strip(val[2..]));
      ParseValue(key, val, before) == if n.Some? then Ok(Range(n, None)) else Err(BadBound)
    ensures |val| >= 2 && val[0] == '<' && val[1] == '=' ==>
      var n := ParseNumber(Strip(val[2..]));
      ParseValue(key, val, before) == if n.Some? then Ok(Range(None, n)) else Err(BadBound)
    ensures val != "" && val[0] in {'<', '>'} && (|val| == 1 || val[1] != '=') ==> ParseValue(key, val, before) == Err(StrictBound)
    ensures val == "" || val[0] !in {'<', '>'} ==> ParseValue(key, val, before) == Err(NoRange)
  {
    NoDots(val);
    Prefixes(val);
    hide FindDots, ParseNumber, Strip, AtMost, StartsWith;
  }

  lemma {:induction false} Prefixes(val: string)
    ensures StartsWith(val, ">=") <==> |val| >= 2 && val[0] == '>' && val[1] == '='
    ensures StartsWith(val, "<=") <==> |val| >= 2 && val[0] == '<' && val[1] == '='
    ensures StartsWith(val, ">") <==> val != "" && val[0] == '>'
    ensures StartsWith(val, "<") <==> val != "" && val[0] == '<'
  {}

  // ----- texts, flags, windows -----

  ghost predicate TwoLetters(val: string) {
    |val| == 2 && forall k :: 0 <= k < 2 ==> 'a' <= val[k] <= 'z' || 'A' <= val[k] <= 'Z'
  }

  /** A text is kept as it is, a country as two capitals; a list, a long text and any other country are refused. */
  lemma {:induction false} TextMeans(key: Key, before: Option<Value>, val: string)
    requires key in {Sector, Industry, Exchange, Country}
    ensures '|' in val || ',' in val ==> ParseValue(key, val, before) == Err(ManyValues)
    ensures '|' !in val && ',' !in val && |val| > 64 ==> ParseValue(key, val, before) == Err(TooLong)
    ensures '|' !in val && ',' !in val && |val| <= 64 ==>
      if key != Country then ParseValue(key, val, before) == Ok(Text(val))
      else if !TwoLetters(val) then ParseValue(key, val, before) == Err(BadCountry)
      else ParseValue(key, val, before).Ok? && ParseValue(key, val, before).value.Text? && Capitals(val, ParseValue(key, val, before).value.s)
  {
    if IsCountry(val) {
      assert TwoLetters(val);
      assert Capitals(val, Upper(val));
    }
    if TwoLetters(val) {
      assert IsLetter(val[0]) && IsLetter(val[1]);
    }
    hide Upper;
  }

  ghost predicate Capitals(val: string, r: string) {
    |r| == |val| && forall k :: 0 <= k < |val| ==>
      r[k] as int == if 'a' <= val[k] <= 'z' then val[k] as int - 32 else val[k] as int
  }

  /** Spelled in any mixture of capitals. */
  ghost predicate Spells(val: string, word: string) {
    |val| == |word| && forall k :: 0 <= k < |val| ==> val[k] == word[k] || val[k] as int == word[k] as int - 32
  }

  lemma {:induction false} LowerSpells(val: string, word: string)
    requires forall k :: 0 <= k < |word| ==> 'a' <= word[k] <= 'z'
    ensures Lower(val) == word <==> Spells(val, word)
  {
    var l := Lower(val);
    assert l == word <==> |val| == |word| && forall k :: 0 <= k < |val| ==> l[k] == word[k];
    hide Lower;
  }

  lemma {:induction false} FlagMeans(before: Option<Value>, val: string)
    ensures ParseValue(Etf, val, before) == if Spells(val, "true") then Ok(Flag(true)) else if Spells(val, "false") then Ok(Flag(false)) else Err(BadFlag)
  {
    LowerSpells(val, "true");
    LowerSpells(val, "false");
    hide Lower, Spells;
  }

  function WindowsOf(before: Option<Value>): seq<int> {
    if before.Some? && before.value.Windows? then before.value.ws else []
  }

  /** A window is fifty or two hundred days; each may be given once, and both come in order. */
  lemma {:induction false} WindowMeans(key: Key, before: Option<Value>, val: string)
    requires key in {AboveSma, SmaRising}
    ensures var d, ws, r := ParseNumber(val), WindowsOf(before), ParseValue(key, val, before);
      && (r == Err(BadWindow) <==> d.None? || (Worth(d.value) != 50.0 && Worth(d.value) != 200.0))
      && (d.Some? && Worth(d.value) == 50.0 ==>
            r == if 50 in ws then Err(DuplicateWindow) else Ok(Windows(if 200 in ws then [50, 200] else [50])))
      && (d.Some? && Worth(d.value) == 200.0 ==>
            r == if 200 in ws then Err(DuplicateWindow) else Ok(Windows(if 50 in ws then [50, 200] else [200])))
  {
    hide *;
    IsOneOf(ParseNumber(val));
    WindowsParse(key, before, val);
  }

  lemma {:induction false} IsOneOf(d: Option<Decimal>)
    requires d.Some? ==> Normal(d.value)
    ensures d == Some(Decimal(50, 0)) <==> d.Some? && Worth(d.value) == 50.0
    ensures d == Some(Decimal(200, 0)) <==> d.Some? && Worth(d.value) == 200.0
  {
    hide Worth, Normal;
    if d.Some? {
      WholeWorth(d.value, 50);
      WholeWorth(d.value, 200);
    }
  }

  lemma {:induction false} WindowsParse(key: Key, before: Option<Value>, val: string)
    requires key in {AboveSma, SmaRising}
    ensures var d, ws, r := ParseNumber(val), WindowsOf(before), ParseValue(key, val, before);
      if d == Some(Decimal(50, 0)) then
        r == if 50 in ws then Err(DuplicateWindow) else Ok(Windows(if 200 in ws then [50, 200] else [50]))
      else if d == Some(Decimal(200, 0)) then
        r == if 200 in ws then Err(DuplicateWindow) else Ok(Windows(if 50 in ws then [50, 200] else [200]))
      else r == Err(BadWindow)
  {
    hide ParseNumber, WithWindow;
    Together(WindowsOf(before));
  }

  lemma {:induction false} Together(ws: seq<int>)
    ensures WithWindow(ws, 50) == if 200 in ws then [50, 200] else [50]
    ensures WithWindow(ws, 200) == if 50 in ws then [50, 200] else [200]
  {}

  // ----- percentages, histories, limits -----

  /** A percentage from one to a hundred, with or without its sign. */
  lemma {:induction false} PercentMeans(before: Option<Value>, val: string)
    ensures var d := ParseNumber(if val != "" && val[|val| - 1] == '%' then Strip(val[..|val| - 1]) else val);
      if d.None? then ParseValue(NearHigh, val, before) == Err(BadPercent)
      else if 1.0 <= Worth(d.value) <= 100.0 then ParseValue(NearHigh, val, before) == Ok(Number(d.value))
      else ParseValue(NearHigh, val, before) == Err(PercentOutOfRange)
  {
    hide *;
    var d := ParseNumber(if val != "" && val[|val| - 1] == '%' then Strip(val[..|val| - 1]) else val);
    PercentParse(before, val);
    OnlyIfLarger(Some(Decimal(1, 0)), d);
    OnlyIfLarger(d, Some(Decimal(100, 0)));
    OneAndHundred();
  }

  lemma {:induction false} OneAndHundred()
    ensures Worth(Decimal(1, 0)) == 1.0 && Worth(Decimal(100, 0)) == 100.0
  {}

  lemma {:induction false} PercentParse(before: Option<Value>, val: string)
    ensures var d := ParseNumber(if val != "" && val[|val| - 1] == '%' then Strip(val[..|val| - 1]) else val);
      if d.None? then ParseValue(NearHigh, val, before) == Err(BadPercent)
      else if AtMost(Decimal(1, 0), d.value) && AtMost(d.value, Decimal(100, 0)) then ParseValue(NearHigh, val, before) == Ok(Number(d.value))
      else ParseValue(NearHigh, val, before) == Err(PercentOutOfRange)
  {
    hide ParseNumber, Strip, AtMost;
  }

  /** A whole number from one to two thousand. */
  lemma {:induction false} HistoryMeans(before: Option<Value>, val: string, n: int)
    ensures ParseValue(MinHistory, val, before) == Ok(Count(n)) <==> 1 <= n <= 2000 && Reads(val, Decimal(n, 0))
    ensures ParseValue(MinHistory, val, before).Err? ==> ParseValue(MinHistory, val, before) == Err(BadHistory)
    ensures ParseValue(MinHistory, val, before).Ok? ==> ParseValue(MinHistory, val, before).value.Count?
  {
    hide ParseNumber;
  }

  /** A whole number, brought to a hundred if it is more and to one if it is less. */
  lemma {:induction false} LimitMeans(before: Option<Value>, val: string, m: int)
    requires Reads(val, Decimal(m, 0))
    ensures ParseValue(Limit, val, before) == Ok(Count(if m > 100 then 100 else if m < 1 then 1 else m))
  {
    hide ParseNumber;
  }

  /** Anything else is refused. */
  lemma {:induction false} LimitRefuses(before: Option<Value>, val: string)
    ensures ParseValue(Limit, val, before).Err? <==> forall m :: !Reads(val, Decimal(m, 0))
    ensures ParseValue(Limit, val, before).Err? ==> ParseValue(Limit, val, before) == Err(BadLimit)
  {
    hide *;
    var n := ParseNumber(val);
    LimitParse(before, val);
    ReadsWhole(n, val);
  }

  lemma {:induction false} ReadsWhole(n: Option<Decimal>, val: string)
    requires n == ParseNumber(val)
    ensures (exists m :: Reads(val, Decimal(m, 0))) <==> n.Some? && n.value.places == 0
  {
    hide ParseNumber;
    if n.Some? && n.value.places == 0 {
      assert Reads(val, Decimal(n.value.mantissa, 0));
    }
  }

  lemma {:induction false} LimitParse(before: Option<Value>, val: string)
    ensures var n := ParseNumber(val);
      if n.Some? && n.value.places == 0 then ParseValue(Limit, val, before).Ok? else ParseValue(Limit, val, before) == Err(BadLimit)
  {
    hide ParseNumber, Clamped;
  }

  // ----- the text as a whole -----

  /** A mark at the very front is dropped, once. */
  lemma {:induction false} MarkMeans(text: string)
    ensures text != "" && text[0] as int == 65279 ==> text == [text[0]] + WithoutMark(text)
    ensures text == "" || text[0] as int != 65279 ==> WithoutMark(text) == text
  {}

  /** A character takes one to four bytes, and a text as many as its parts. */
  lemma {:induction false} SizeMeans(a: string, b: string, c: char)
    ensures Utf8Size([c]) == if c as int <= 127 then 1 else if c as int <= 2047 then 2 else if c as int <= 65535 then 3 else 4
    ensures Utf8Size(a + b) == Utf8Size(a) + Utf8Size(b)
    decreases |b|
  {
    assert [c][..0] == "" && Utf8Size("") == 0;
    if b == "" {
      assert a + b == a;
    } else {
      var k := |b| - 1;
      SizeMeans(a, b[..k], c);
      assert (a + b)[..|a + b| - 1] == a + b[..k];
    }
  }
}
