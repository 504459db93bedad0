/** Accepted `[screen]` criteria written out again, and read back as themselves
    (`screener/criteria.py`): a plain notation for every value, one line for every key in the order of
    `KEYS`, and the proof, line by line, that the body parser makes the same criteria of it. Beside that,
    what accepted criteria send to the vendor and to the local enrichment, and the parser as the loop it
    is. */
module ScreenRender {
  import opened Prelude
  import opened ScreenText
  import opened Screen

  // ----- what accepted criteria look like -----

  ghost predicate NumberOk(d: Decimal) {
    Normal(d) && !TooLarge(d)
  }

  ghost predicate ValueOk(key: Key, v: Value) {
    if IsRange(key) then
      && v.Range? && (v.gte.Some? || v.lte.Some?)
      && (v.gte.Some? ==> NumberOk(v.gte.value)) && (v.lte.Some? ==> NumberOk(v.lte.value))
      && (v.gte.Some? && v.lte.Some? ==> AtMost(v.gte.value, v.lte.value))
    else if IsText(key) then
      && v.Text? && v.s != "" && Trimmed(v.s) && OneValue(v.s) && |v.s| <= MAX_STRING_LEN
      && (key == Country ==> IsCountry(v.s) && Upper(v.s) == v.s)
    else if key == Etf then v.Flag?
    else if IsWindow(key) then v.Windows? && (v.ws == [50] || v.ws == [200] || v.ws == [50, 200])
    else if key == NearHigh then v.Number? && NumberOk(v.d) && AtMost(Decimal(1, 0), v.d) && AtMost(v.d, Decimal(100, 0))
    else if key == MinHistory then v.Count? && 1 <= v.n <= MIN_HISTORY_MAX
    else v.Count? && LIMIT_MIN <= v.n <= LIMIT_MAX
  }

  ghost predicate CriteriaOk(c: Criteria) {
    forall key :: key in c ==> ValueOk(key, c[key])
  }

  lemma {:induction false} CountryUpper(val: string)
    requires IsCountry(val)
    ensures IsCountry(Upper(val)) && Upper(Upper(val)) == Upper(val) && Trimmed(Upper(val)) && OneValue(Upper(val))
  {}

  lemma {:induction false} ParsedRangeOk(val: string)
    ensures ParseRange(val).Ok? ==> ValueOk(Price, ParseRange(val).value)
  {
    hide ParseNumber, FindDots, Strip, AtMost, TooLarge, Normal;
  }

  lemma {:induction false} ParsedTextOk(key: Key, val: string)
    requires IsText(key) && val != "" && Trimmed(val)
    ensures ParseText(key, val).Ok? ==> ValueOk(key, ParseText(key, val).value)
  {
    if key == Country && IsCountry(val) {
      CountryUpper(val);
    }
    hide Upper, Trimmed, OneValue;
  }

  /** What a line gives its key is always an acceptable value. */
  lemma {:induction false} ParsedValueOk(key: Key, val: string, before: Option<Value>)
    requires val != "" && Trimmed(val) && (before.Some? ==> ValueOk(key, before.value))
    ensures ParseValue(key, val, before).Ok? ==> ValueOk(key, ParseValue(key, val, before).value)
  {
    if IsRange(key) {
      ParsedRangeOk(val);
      hide ParseRange;
    } else if IsText(key) {
      ParsedTextOk(key, val);
      hide ParseText;
    } else {
      ParsedOtherOk(key, val, before);
      hide *;
    }
  }

  lemma {:induction false} ParsedOtherOk(key: Key, val: string, before: Option<Value>)
    requires !IsRange(key) && !IsText(key) && (before.Some? ==> ValueOk(key, before.value))
    ensures ParseValue(key, val, before).Ok? ==> ValueOk(key, ParseValue(key, val, before).value)
  {
    hide ParseNumber, Strip, AtMost, TooLarge, Normal, Lower;
  }

  lemma {:induction false} EntryIsTrimmed(raw: string)
    ensures Classify(raw).Entry? ==> Classify(raw).text != "" && Trimmed(Classify(raw).text)
  {
    hide Strip, StripReturns, Find, KeyOf, Lower, Trimmed;
    var line := Strip(StripReturns(raw));
    if line != "" && Find(line, ':') < |line| {
      StripTrims(line[Find(line, ':') + 1..]);
    }
  }

  lemma {:induction false} LinesKeepCriteriaOk(b: Body, lines: seq<string>, first: nat)
    requires CriteriaOk(b.criteria)
    ensures CriteriaOk(FoldLines(b, lines, first).criteria)
  {
    if lines != [] {
      var k := |lines| - 1;
      var before := FoldLines(b, lines[..k], first);
      LinesKeepCriteriaOk(b, lines[..k], first);
      EntryIsTrimmed(lines[k]);
      var line := Classify(lines[k]);
      if line.Entry? {
        ParsedValueOk(line.key, line.text, At(before.criteria, line.key));
      }
      hide Classify, ParseValue, ValueOk, Trimmed;
    }
  }

  /** What goes to the vendor: a limit between one and a hundred, whatever the author asked for. */
  lemma {:induction false} LimitIsBounded(lines: seq<string>, first: nat)
    ensures var screened := ParseBody(lines, first).0;
      screened.Some? ==> 1 <= screened.value.limit <= 100 && screened.value.vendor[VendorLimit] == Count(screened.value.limit)
  {
    assert CriteriaOk(EMPTY.criteria);
    hide FoldLines, MoreThanPart, LowerThanPart, TextPart, Derived, ValueOk, CriteriaOk;
    LinesKeepCriteriaOk(EMPTY, lines, first);
    LimitOk(FoldLines(EMPTY, lines, first).criteria);
  }

  lemma {:induction false} LimitOk(c: Criteria)
    requires CriteriaOk(c)
    ensures LIMIT_MIN <= LimitOf(c) <= LIMIT_MAX
    ensures Build(c).limit == LimitOf(c) && Build(c).vendor[VendorLimit] == Count(LimitOf(c))
  {
    assert Limit in c ==> ValueOk(Limit, c[Limit]);
    hide CriteriaOk, MoreThanPart, LowerThanPart, TextPart, Derived;
  }

  /** Each half of a range reaches the vendor as its own parameter, and a parameter is there only for a bound
      the author gave. */
  lemma {:induction false} RangesReachTheVendor(c: Criteria, key: Key)
    requires CriteriaOk(c) && IsRange(key)
    ensures var vendor := Build(c).vendor;
      && (MoreThan(key) in vendor <==> key in c && c[key].gte.Some?)
      && (MoreThan(key) in vendor ==> vendor[MoreThan(key)] == Number(c[key].gte.value))
      && (LowerThan(key) in vendor <==> key in c && c[key].lte.Some?)
      && (LowerThan(key) in vendor ==> vendor[LowerThan(key)] == Number(c[key].lte.value))
  {
    hide *;
    var wanted := BuildParts(c, key);
    MoreThanBound(wanted, key);
    LowerThanBound(wanted, key);
    OthersKeepRanges(wanted, key);
    Merged(MoreThanPart(wanted), LowerThanPart(wanted), TextPart(wanted), FixedPart(wanted), MoreThan(key));
    Merged(MoreThanPart(wanted), LowerThanPart(wanted), TextPart(wanted), FixedPart(wanted), LowerThan(key));
  }

  lemma {:induction false} BuildParts(c: Criteria, key: Key) returns (wanted: Criteria)
    requires CriteriaOk(c) && IsRange(key)
    ensures Build(c).vendor == MoreThanPart(wanted) + LowerThanPart(wanted) + TextPart(wanted) + FixedPart(wanted)
    ensures (key in wanted <==> key in c) && (key in c ==> wanted[key] == c[key] && c[key].Range?)
  {
    hide MoreThanPart, LowerThanPart, TextPart, FixedPart, Derived, LimitOf;
    wanted := c[Limit := Count(LimitOf(c))];
    assert key in c ==> ValueOk(key, c[key]);
  }

  lemma {:induction false} Merged(a: map<Param, Value>, b: map<Param, Value>, c: map<Param, Value>, d: map<Param, Value>, p: Param)
    requires p !in c && p !in d
    ensures p in a + b + c + d <==> p in a || p in b
    ensures p in b ==> (a + b + c + d)[p] == b[p]
    ensures p !in b && p in a ==> (a + b + c + d)[p] == a[p]
  {}

  lemma {:induction false} MoreThanBound(c: Criteria, key: Key)
    requires IsRange(key) && (key in c ==> c[key].Range?)
    ensures MoreThan(key) in MoreThanPart(c) <==> key in c && c[key].gte.Some?
    ensures MoreThan(key) in MoreThanPart(c) ==> MoreThanPart(c)[MoreThan(key)] == Number(c[key].gte.value)
    ensures LowerThan(key) !in MoreThanPart(c)
  {}

  lemma {:induction false} LowerThanBound(c: Criteria, key: Key)
    requires IsRange(key) && (key in c ==> c[key].Range?)
    ensures LowerThan(key) in LowerThanPart(c) <==> key in c && c[key].lte.Some?
    ensures LowerThan(key) in LowerThanPart(c) ==> LowerThanPart(c)[LowerThan(key)] == Number(c[key].lte.value)
    ensures MoreThan(key) !in LowerThanPart(c)
  {}

  lemma {:induction false} OthersKeepRanges(c: Criteria, key: Key)
    ensures MoreThan(key) !in TextPart(c) && LowerThan(key) !in TextPart(c)
    ensures MoreThan(key) !in FixedPart(c) && LowerThan(key) !in FixedPart(c)
  {}

  /** The enrichment gets exactly the derived keys the author gave, and a history length if and only if it
      has any of them or the author asked for one. */
  lemma {:induction false} DerivedSet(c: Criteria, key: Key)
    ensures var derived := Build(c).derived;
      && (IsDerived(key) ==> (key in derived <==> key in c) && (key in derived ==> derived[key] == c[key]))
      && (MinHistory in derived <==> MinHistory in c || exists k :: k in c && IsDerived(k))
      && (MinHistory in derived && MinHistory !in c ==> derived[MinHistory] == Count(MIN_HISTORY_DEFAULT))
      && (key in derived ==> IsDerived(key) || key == MinHistory)
  {
    hide VendorParams, LimitOf;
    var d := c[Limit := Count(LimitOf(c))];
    var own := map k | k in d && IsDerived(k) :: d[k];
    assert (exists k :: k in c && IsDerived(k)) <==> own != map[] by {
      if k :| k in c && IsDerived(k) {
        assert k in own;
      }
      if own != map[] {
        var k :| k in own;
        assert k in c && IsDerived(k);
      }
    }
  }

  // ----- rendering -----

  function RenderValue(v: Value): seq<string> {
    match v
    case Range(gte, lte) =>
      if gte.Some? && lte.Some? then [RenderNumber(gte.value) + ".." + RenderNumber(lte.value)]
      else if gte.Some? then [">= " + RenderNumber(gte.value)]
      else if lte.Some? then ["<= " + RenderNumber(lte.value)]
      else []
    case Text(s) => [s]
    case Flag(b) => [if b then "true" else "false"]
    case Windows(ws) => seq(|ws|, k requires 0 <= k < |ws| => RenderNumber(Decimal(ws[k], 0)))
    case Number(d) => [RenderNumber(d) + "%"]
    case Count(n) => [RenderNumber(Decimal(n, 0))]
  }

  function RenderLine(key: Key, text: string): string {
    KeyText(key) + ": " + text
  }

  function RenderKey(key: Key, texts: seq<string>): (lines: seq<string>)
    ensures |lines| == |texts| && forall k :: 0 <= k < |texts| ==> lines[k] == RenderLine(key, texts[k])
  {
    seq(|texts|, k requires 0 <= k < |texts| => RenderLine(key, texts[k]))
  }

  /** One line for each value, keys in their fixed order. */
  function Render(c: Criteria, keys: seq<Key>): seq<string> {
    if keys == [] then []
    else
      var k := |keys| - 1;
      Render(c, keys[..k]) + if keys[k] in c then RenderKey(keys[k], RenderValue(c[keys[k]])) else []
  }

  // ----- texts of numbers -----

  ghost predicate NumberText(s: string) {
    s != "" && Plain(if s[0] == '-' then s[1..] else s)
  }

  lemma {:induction false} RenderedNumber(d: Decimal)
    requires NumberOk(d)
    ensures ParseNumber(RenderNumber(d)) == Some(d) && NumberText(RenderNumber(d))
  {
    hide ParseNumber, RenderNumber;
    NumberRoundTrip(d);
    var s := RenderNumber(d);
    if d.mantissa >= 0 {
      PlainEnds(s);
    }
    hide Plain;
  }

  ghost predicate NoTwoDots(s: string) {
    forall k :: 0 <= k < |s| - 1 ==> !(s[k] == '.' && s[k + 1] == '.')
  }

  lemma {:induction false} PlainNoTwoDots(u: string)
    requires Plain(u)
    ensures NoTwoDots(u) && u[0] != '.'
  {
    forall k | 0 <= k < |u| - 1 && u[k] == '.' ensures u[k + 1] != '.' {
      assert PlainAt(u, k);
    }
    assert IsDigit(u[0]);
  }

  lemma {:induction false} PrefixNoTwoDots(prefix: string, u: string)
    requires NoTwoDots(prefix) && NoTwoDots(u) && (prefix != "" ==> prefix[|prefix| - 1] != '.')
    ensures NoTwoDots(prefix + u)
  {
    var s, n := prefix + u, |prefix|;
    forall k | 0 <= k < |s| - 1 ensures !(s[k] == '.' && s[k + 1] == '.') {
      if k >= n {
        assert s[k] == u[k - n] && s[k + 1] == u[k + 1 - n];
      } else {
        assert s[k] == prefix[k] && (k + 1 < n ==> s[k + 1] == prefix[k + 1]);
      }
    }
  }

  /** No blanks at the ends, no two dots in a row, a digit last. */
  lemma {:induction false} NumberTextShape(s: string)
    requires NumberText(s)
    ensures s != "" && Trimmed(s) && IsDigit(s[|s| - 1]) && NoTwoDots(s)
  {
    var u := if s[0] == '-' then s[1..] else s;
    PlainNoTwoDots(u);
    assert u != "" && s[|s| - 1] == u[|u| - 1] && IsDigit(u[|u| - 1]) && (s[0] == '-' || IsDigit(s[0]));
    hide Plain;
    if s[0] == '-' {
      assert s == "-" + u;
      PrefixNoTwoDots("-", u);
    }
  }

  lemma {:induction false} NoDots(s: string)
    requires NoTwoDots(s)
    ensures FindDots(s) == |s|
  {
    if s != "" {
      NoDots(s[1..]);
    }
  }

  lemma {:induction false} DotsAfter(a: string, rest: string)
    requires NoTwoDots(a) && (a != "" ==> a[|a| - 1] != '.')
    ensures FindDots(a + ".." + rest) == |a|
  {
    var s := a + ".." + rest;
    if a == "" {
      assert s[0] == '.' && s[1] == '.';
    } else {
      DotsAfter(a[1..], rest);
      assert s[1..] == a[1..] + ".." + rest;
      assert s[0] == a[0] && (|a| > 1 ==> s[1] == a[1]);
    }
  }

  lemma {:induction false} StripBlankBefore(s: string)
    requires s != "" && Trimmed(s)
    ensures Strip(" " + s) == s
  {
    assert (" " + s)[1..] == s;
    StripTrims(s);
    assert StripLeft(" " + s) == StripLeft(s);
  }

  // ----- reading one value back -----

  lemma {:induction false} RangeBack(v: Value)
    requires ValueOk(Price, v)
    ensures var texts := RenderValue(v);
      |texts| == 1 && texts[0] != "" && Trimmed(texts[0]) && ParseRange(texts[0]) == Ok(v)
  {
    hide ParseRange, RenderNumber, Trimmed, NumberOk;
    if v.gte.Some? && v.lte.Some? {
      BothEndsBack(v.gte.value, v.lte.value);
    } else if v.gte.Some? {
      BoundBack(">=", v.gte.value);
      assert ">=" + " " == ">= ";
    } else {
      BoundBack("<=", v.lte.value);
      assert "<=" + " " == "<= ";
    }
  }

  lemma {:induction false} ParseEnds(s: string, lo: Decimal, hi: Decimal)
    requires var dots := FindDots(s);
      && dots < |s| && ParseNumber(Strip(s[..dots])) == Some(lo) && ParseNumber(Strip(s[dots + 2..])) == Some(hi)
    requires AtMost(lo, hi)
    ensures ParseRange(s) == Ok(Range(Some(lo), Some(hi)))
  {
    hide ParseNumber, Strip, AtMost, FindDots;
  }

  lemma {:induction false} Around(a: string, middle: string, b: string)
    requires a != "" && b != "" && Trimmed(a) && Trimmed(b)
    ensures var s := a + middle + b;
      s != "" && Trimmed(s) && s[..|a|] == a && s[|a| + |middle|..] == b
  {
    hide IsSpace;
    var s := a + middle + b;
    assert s[0] == a[0] && s[|s| - 1] == b[|b| - 1];
  }

  lemma {:induction false} BothEndsBack(lo: Decimal, hi: Decimal)
    requires NumberOk(lo) && NumberOk(hi) && AtMost(lo, hi)
    ensures var s := RenderNumber(lo) + ".." + RenderNumber(hi);
      s != "" && Trimmed(s) && ParseRange(s) == Ok(Range(Some(lo), Some(hi)))
  {
    hide *;
    var a, b := RenderNumber(lo), RenderNumber(hi);
    RenderedNumber(lo);
    RenderedNumber(hi);
    NumberTextShape(a);
    NumberTextShape(b);
    DigitIsNoDot(a[|a| - 1]);
    DotsAfter(a, b);
    StripTrims(a);
    StripTrims(b);
    Around(a, "..", b);
    ParseEnds(a + ".." + b, lo, hi);
  }

  lemma {:induction false} DigitIsNoDot(c: char)
    requires IsDigit(c)
    ensures c != '.'
  {}

  lemma {:induction false} ParseBound(s: string, d: Decimal)
    requires FindDots(s) == |s| && |s| >= 2 && ParseNumber(Strip(s[2..])) == Some(d)
    ensures s[..2] == ">=" ==> ParseRange(s) == Ok(Range(Some(d), None))
    ensures s[..2] == "<=" ==> ParseRange(s) == Ok(Range(None, Some(d)))
  {
    hide ParseNumber, Strip, AtMost, FindDots;
    assert s[..2] == "<=" ==> s[0] == '<';
    assert s[..2] == ">=" ==> s[0] == '>';
  }

  lemma {:induction false} BoundBack(op: string, d: Decimal)
    requires NumberOk(d) && (op == ">=" || op == "<=")
    ensures var s := op + " " + RenderNumber(d);
      s != "" && Trimmed(s) && ParseRange(s) == Ok(if op == ">=" then Range(Some(d), None) else Range(None, Some(d)))
  {
    hide *;
    var a := RenderNumber(d);
    RenderedNumber(d);
    NumberTextShape(a);
    StripBlankBefore(a);
    BoundText(op, a);
    ParseBound(op + " " + a, d);
  }

  lemma {:induction false} BoundText(op: string, a: string)
    requires (op == ">=" || op == "<=") && a != "" && Trimmed(a) && NoTwoDots(a)
    ensures var s := op + " " + a;
      s != "" && |s| >= 2 && Trimmed(s) && s[..2] == op && s[2..] == " " + a && FindDots(s) == |s|
  {
    var s := op + " " + a;
    assert Trimmed(op) && NoTwoDots(op + " ");
    Around(op, " ", a);
    hide Trimmed, FindDots, NoTwoDots;
    assert s == op + (" " + a);
    PrefixNoTwoDots(op + " ", a);
    NoDots(s);
  }

  lemma {:induction false} PercentBack(d: Decimal)
    requires ValueOk(NearHigh, Number(d))
    ensures var s := RenderNumber(d) + "%";
      s != "" && Trimmed(s) && ParsePercent(s) == Ok(Number(d))
  {
    var a := RenderNumber(d);
    hide RenderNumber, ParseNumber, NumberText, Strip, AtMost, NumberOk;
    RenderedNumber(d);
    NumberTextShape(a);
    StripTrims(a);
    Around(a, "", "%");
    assert a + "" + "%" == a + "%";
    PercentCut(a);
    hide Trimmed, PercentText;
  }

  lemma {:induction false} PercentCut(a: string)
    ensures PercentText(a + "%") == Strip(a)
  {
    assert (a + "%")[..|a|] == a;
  }

  lemma {:induction false} CountBack(n: int)
    requires 1 <= n <= MIN_HISTORY_MAX
    ensures var s := RenderNumber(Decimal(n, 0));
      && s != "" && Trimmed(s)
      && ParseHistory(s) == Ok(Count(n))
      && (n <= LIMIT_MAX ==> ParseLimit(s) == Ok(Count(n)))
      && (n == 50 || n == 200 ==> ParseWindow(s) == Some(n))
  {
    Pow10One();
    RenderedNumber(Decimal(n, 0));
    NumberTextShape(RenderNumber(Decimal(n, 0)));
    hide RenderNumber, ParseNumber, NumberText, Trimmed;
  }

  lemma {:induction false} FlagBack(b: bool)
    ensures var s := if b then "true" else "false";
      s != "" && Trimmed(s) && ParseFlag(s) == Ok(Flag(b))
  {
    assert Lower("true") == "true" && Lower("false") == "false";
  }

  lemma {:induction false} TextBack(key: Key, v: Value)
    requires IsText(key) && ValueOk(key, v)
    ensures v.Text? && v.s != "" && Trimmed(v.s) && ParseText(key, v.s) == Ok(v)
  {
    hide Upper, Trimmed, OneValue;
  }

  // ----- reading one line back -----

  predicate KeyChar(c: char) {
    'a' <= c <= 'z' || c == '_' || c == '5' || c == '2'
  }

  ghost predicate KeyLike(s: string) {
    s != "" && forall k :: 0 <= k < |s| ==> KeyChar(s[k])
  }

  lemma {:induction false} RangeKeysLike(key: Key)
    requires IsRange(key)
    ensures KeyLike(KeyText(key))
  {}

  lemma {:induction false} TextKeysLike(key: Key)
    requires IsText(key) || key == Etf
    ensures KeyLike(KeyText(key))
  {}

  lemma {:induction false} OtherKeysLike(key: Key)
    requires !IsRange(key) && !IsText(key) && key != Etf
    ensures KeyLike(KeyText(key))
  {}

  lemma {:induction false} KeyTextShape(key: Key)
    ensures var s := KeyText(key);
      && s != "" && Trimmed(s) && s[0] != '#' && ':' !in s && Lower(s) == s
  {
    hide KeyText;
    if IsRange(key) {
      RangeKeysLike(key);
    } else if IsText(key) || key == Etf {
      TextKeysLike(key);
    } else {
      OtherKeysLike(key);
    }
    var s := KeyText(key);
    assert KeyLike(s);
    assert Lower(s) == s;
  }

  lemma {:induction false} KeyAmongFinds(keys: seq<Key>, key: Key)
    requires key in keys
    requires forall k :: 0 <= k < |keys| && keys[k] != key ==> KeyText(keys[k]) != KeyText(key)
    ensures KeyAmong(keys, KeyText(key)) == Some(key)
  {
    hide KeyText;
    if keys[0] != key {
      KeyAmongFinds(keys[1..], key);
    }
  }

  /** Length and first letter tell the keys apart. */
  function Code(text: string): (int, char)
    requires text != ""
  {
    (|text|, text[0])
  }

  function CodeOf(key: Key): (int, char) {
    match key
    case MarketCap => (10, 'm')
    case Price => (5, 'p')
    case Volume => (6, 'v')
    case Beta => (4, 'b')
    case Dividend => (8, 'd')
    case Sector => (6, 's')
    case Industry => (8, 'i')
    case Exchange => (8, 'e')
    case Country => (7, 'c')
    case Etf => (3, 'e')
    case AboveSma => (9, 'a')
    case SmaRising => (10, 's')
    case NearHigh => (13, 'n')
    case MinHistory => (11, 'm')
    case Limit => (5, 'l')
  }

  lemma {:induction false} CodeIs(key: Key)
    ensures KeyText(key) != "" && Code(KeyText(key)) == CodeOf(key)
  {}

  lemma {:induction false} KeyTextsDiffer(a: Key, b: Key)
    ensures KeyText(a) == KeyText(b) ==> a == b
  {
    CodeIs(a);
    CodeIs(b);
    hide KeyText;
  }

  lemma {:induction false} KeyBack(key: Key)
    ensures KeyOf(KeyText(key)) == Some(key)
  {
    forall k | 0 <= k < |KEYS| && KEYS[k] != key ensures KeyText(KEYS[k]) != KeyText(key) {
      KeyTextsDiffer(KEYS[k], key);
    }
    EveryKeyListed(key);
    hide KeyText, KeyAmong;
    KeyAmongFinds(KEYS, key);
  }

  lemma {:induction false} EveryKeyListed(key: Key)
    ensures key in KEYS
  {
    assert KEYS[0] == MarketCap && KEYS[1] == Price && KEYS[2] == Volume && KEYS[3] == Beta && KEYS[4] == Dividend;
    assert KEYS[5] == Sector && KEYS[6] == Industry && KEYS[7] == Exchange && KEYS[8] == Country && KEYS[9] == Etf;
    assert KEYS[10] == AboveSma && KEYS[11] == SmaRising && KEYS[12] == NearHigh && KEYS[13] == MinHistory && KEYS[14] == Limit;
  }

  lemma {:induction false} LineBack(key: Key, text: string)
    requires text != "" && Trimmed(text)
    ensures Classify(RenderLine(key, text)) == Entry(key, text)
  {
    var name := KeyText(key);
    KeyTextShape(key);
    KeyBack(key);
    hide *;
    LineShape(name, text);
    var line := name + ": " + text;
    StripTrims(line);
    StripTrims(name);
    StripBlankBefore(text);
    ClassifyAs(RenderLine(key, text), line, |name|, key, text) by {
      RenderLineIs(key, text);
    }
  }

  lemma {:induction false} RenderLineIs(key: Key, text: string)
    ensures RenderLine(key, text) == KeyText(key) + ": " + text
  {}

  lemma {:induction false} LineShape(name: string, text: string)
    requires name != "" && Trimmed(name) && name[0] != '#' && ':' !in name && text != "" && Trimmed(text)
    ensures var line := name + ": " + text;
      && line != "" && Trimmed(line) && line[0] != '#' && StripReturns(line) == line
      && Find(line, ':') == |name| < |line| && line[..|name|] == name && line[|name| + 1..] == " " + text
  {
    var line := name + ": " + text;
    Around(name, ": ", text);
    assert line[|line| - 1] == text[|text| - 1] && line[|name|] == ':';
    FindUnique(line, ':', |name|);
    hide Find;
  }

  lemma {:induction false} ClassifyAs(raw: string, line: string, colon: nat, key: Key, text: string)
    requires Strip(StripReturns(raw)) == line && line != "" && line[0] != '#' && Find(line, ':') == colon < |line|
    requires KeyOf(Lower(Strip(line[..colon]))) == Some(key) && Strip(line[colon + 1..]) == text && text != ""
    ensures Classify(raw) == Entry(key, text)
  {
    hide Strip, StripReturns, KeyOf, Lower, Find;
  }

  // ----- reading everything back -----

  lemma {:induction false} FoldConcat<S>(step: (S, string, nat) -> S, s: S, lines: seq<string>, more: seq<string>, first: nat)
    ensures Fold(step, s, lines + more, first) == Fold(step, Fold(step, s, lines, first), more, first + |lines|)
    decreases |more|
  {
    if more == [] {
      assert lines + more == lines;
    } else {
      var k := |more| - 1;
      FoldConcat(step, s, lines, more[..k], first);
      assert (lines + more)[..|lines| + k] == lines + more[..k];
    }
  }

  lemma {:induction false} FoldOne(b: Body, line: string, first: nat)
    ensures FoldLines(b, [line], first) == StepLine(b, line, first)
  {
    hide StepLine;
    assert FoldLines(b, [line][..0], first) == b;
  }

  lemma {:induction false} StepEntry(b: Body, raw: string, key: Key, text: string, v: Value, line: nat)
    requires Classify(raw) == Entry(key, text) && (IsWindow(key) || key !in b.seen)
    requires ParseValue(key, text, At(b.criteria, key)) == Ok(v)
    ensures StepLine(b, raw, line)
         == b.(criteria := b.criteria[key := v], seen := if IsWindow(key) then b.seen else b.seen + {key})
  {
    hide Classify, ParseValue;
  }

  /** The single text of a value that is not a list of windows. */
  lemma {:induction false} ValueBack(key: Key, v: Value)
    requires ValueOk(key, v) && !IsWindow(key)
    ensures var texts := RenderValue(v);
      |texts| == 1 && texts[0] != "" && Trimmed(texts[0]) && ParseValue(key, texts[0], None) == Ok(v)
  {
    if IsRange(key) {
      RangeBack(v);
      hide RenderValue, ParseRange;
    } else if IsText(key) {
      TextBack(key, v);
      hide ParseText;
    } else if key == Etf {
      FlagBack(v.b);
      hide ParseFlag;
    } else if key == NearHigh {
      PercentBack(v.d);
      hide ParsePercent, RenderNumber;
    } else {
      CountBack(v.n);
      hide ParseHistory, ParseLimit, RenderNumber;
    }
    hide Trimmed, NumberOk, AtMost;
  }

  /** What the windows are after one more. */
  function MoreWindows(before: Option<Value>, w: int): Value {
    Windows(if before.Some? then [50, 200] else [w])
  }

  lemma {:induction false} ParseWindowsBack(key: Key, before: Option<Value>, w: int, text: string)
    requires IsWindow(key) && ParseWindow(text) == Some(w) && (w == 50 || w == 200)
    requires before.Some? ==> before.value == Windows([50]) && w == 200
    ensures ParseValue(key, text, before) == Ok(MoreWindows(before, w))
  {
    hide ParseWindow;
    assert [50] + [200] == [50, 200] && [50] + [] == [50] && [] + [200] == [200];
  }

  lemma {:induction false} WindowStep(b: Body, key: Key, w: int, line: nat)
    requires IsWindow(key) && (w == 50 || w == 200)
    requires key in b.criteria ==> b.criteria[key] == Windows([50]) && w == 200
    ensures StepLine(b, RenderLine(key, RenderNumber(Decimal(w, 0))), line)
         == b.(criteria := b.criteria[key := MoreWindows(At(b.criteria, key), w)])
  {
    var text, before := RenderNumber(Decimal(w, 0)), At(b.criteria, key);
    hide MoreWindows, ParseWindow, ParseHistory, ParseLimit, ParseValue, RenderNumber, Trimmed, RenderLine, StepLine, Classify;
    CountBack(w);
    LineBack(key, text);
    ParseWindowsBack(key, before, w, text);
    StepEntry(b, RenderLine(key, text), key, text, MoreWindows(before, w), line);
  }

  lemma {:induction false} WindowTexts(key: Key, ws: seq<int>)
    requires ws == [50] || ws == [200] || ws == [50, 200]
    ensures RenderKey(key, RenderValue(Windows(ws))) ==
      if |ws| == 1 then [RenderLine(key, RenderNumber(Decimal(ws[0], 0)))]
      else [RenderLine(key, RenderNumber(Decimal(50, 0)))] + [RenderLine(key, RenderNumber(Decimal(200, 0)))]
  {
    hide RenderNumber, RenderLine;
  }

  lemma {:induction false} WindowsBack(b: Body, key: Key, v: Value, first: nat)
    requires IsWindow(key) && ValueOk(key, v) && key !in b.criteria
    ensures FoldLines(b, RenderKey(key, RenderValue(v)), first) == b.(criteria := b.criteria[key := v])
  {
    hide StepLine, RenderNumber, RenderLine, RenderKey, RenderValue, Fold;
    var w := v.ws[0];
    var line := RenderLine(key, RenderNumber(Decimal(w, 0)));
    WindowTexts(key, v.ws);
    WindowStep(b, key, w, first);
    FoldOne(b, line, first);
    if |v.ws| > 1 {
      var mid := b.(criteria := b.criteria[key := Windows([50])]);
      var next := RenderLine(key, RenderNumber(Decimal(200, 0)));
      WindowStep(mid, key, 200, first + 1);
      FoldOne(mid, next, first + 1);
      FoldConcat(StepLine, b, [line], [next], first);
    }
  }

  /** The rendered lines of one key put its value back. */
  lemma {:induction false} KeyLinesBack(b: Body, key: Key, v: Value, first: nat)
    requires ValueOk(key, v) && key !in b.criteria && key !in b.seen
    ensures FoldLines(b, RenderKey(key, RenderValue(v)), first)
         == b.(criteria := b.criteria[key := v], seen := if IsWindow(key) then b.seen else b.seen + {key})
  {
    if IsWindow(key) {
      WindowsBack(b, key, v, first);
    } else {
      ValueBack(key, v);
      hide ValueOk, RenderValue, FoldLines, StepLine, ParseValue, Trimmed;
      var lines := RenderKey(key, RenderValue(v));
      assert lines == [RenderLine(key, RenderValue(v)[0])];
      hide RenderLine, Classify;
      LineBack(key, RenderValue(v)[0]);
      StepEntry(b, lines[0], key, RenderValue(v)[0], v, first);
      FoldOne(b, lines[0], first);
    }
  }

  function Only(c: Criteria, keys: seq<Key>): Criteria {
    map key | key in c && key in keys :: c[key]
  }

  ghost predicate NoRepeats(keys: seq<Key>) {
    forall i, j :: 0 <= i < j < |keys| ==> keys[i] != keys[j]
  }

  lemma {:induction false} RenderBack(c: Criteria, keys: seq<Key>, first: nat)
    requires CriteriaOk(c) && NoRepeats(keys)
    ensures var b := FoldLines(EMPTY, Render(c, keys), first);
      b.criteria == Only(c, keys) && b.errors == [] && forall key :: key in b.seen ==> key in keys
  {
    hide Only, Render, Fold, CriteriaOk, RenderKey, RenderValue, StepLine;
    if keys == [] {
      NothingRendered(c, first);
    } else {
      var k := |keys| - 1;
      var front, key := keys[..k], keys[k];
      RenderEnds(c, keys);
      RenderBack(c, front, first);
      if key in c {
        var lines := RenderKey(key, RenderValue(c[key]));
        var before := FoldLines(EMPTY, Render(c, front), first);
        OkAt(c, key);
        FoldConcat(StepLine, EMPTY, Render(c, front), lines, first);
        KeyLinesBack(before, key, c[key], first + |Render(c, front)|);
      }
    }
  }

  lemma {:induction false} NothingRendered(c: Criteria, first: nat)
    ensures FoldLines(EMPTY, Render(c, []), first) == Body(map[], {}, []) && Only(c, []) == map[]
  {}

  lemma {:induction false} OkAt(c: Criteria, key: Key)
    requires CriteriaOk(c) && key in c
    ensures ValueOk(key, c[key])
  {}

  lemma {:induction false} RenderEnds(c: Criteria, keys: seq<Key>)
    requires keys != [] && NoRepeats(keys)
    ensures var front, key := keys[..|keys| - 1], keys[|keys| - 1];
      && NoRepeats(front) && key !in front && (forall k :: k in keys <==> k in front || k == key)
      && key !in Only(c, front)
      && Only(c, keys) == (if key in c then Only(c, front)[key := c[key]] else Only(c, front))
      && Render(c, keys) == (if key in c then Render(c, front) + RenderKey(key, RenderValue(c[key])) else Render(c, front))
  {
    hide RenderKey, RenderValue;
    var front, key := keys[..|keys| - 1], keys[|keys| - 1];
    assert keys == front + [key];
  }

  lemma {:induction false} BuildAgain(c: Criteria)
    ensures Build(Build(c).criteria) == Build(c)
  {
    hide VendorParams, Derived;
    var d := c[Limit := Count(LimitOf(c))];
    assert d[Limit := Count(LimitOf(d))] == d;
  }

  lemma {:induction false} OkUpdate(c: Criteria, key: Key, v: Value)
    requires CriteriaOk(c) && ValueOk(key, v)
    ensures CriteriaOk(c[key := v])
  {
    hide ValueOk;
  }

  lemma {:induction false} BuildIs(c: Criteria)
    requires CriteriaOk(c)
    ensures ValueOk(Limit, Count(LimitOf(c))) && Build(c).criteria == c[Limit := Count(LimitOf(c))]
  {
    hide VendorParams, Derived, LimitOf, CriteriaOk;
    LimitOk(c);
    CountIsOk(LimitOf(c));
    hide ValueOk;
  }

  lemma {:induction false} CountIsOk(n: int)
    requires LIMIT_MIN <= n <= LIMIT_MAX
    ensures ValueOk(Limit, Count(n))
  {}

  lemma {:induction false} BuildKeepsOk(c: Criteria)
    requires CriteriaOk(c)
    ensures CriteriaOk(Build(c).criteria)
  {
    hide *;
    BuildIs(c);
    OkUpdate(c, Limit, Count(LimitOf(c)));
  }

  /** Accepted criteria, written out in plain form and read by the body parser again, give the same
      criteria, the same vendor parameters and the same derived set. */
  lemma {:induction false} RenderRoundTrip(lines: seq<string>, first: nat, again: nat)
    ensures var screened := ParseBody(lines, first).0;
      screened.Some? ==> ParseBody(Render(screened.value.criteria, KEYS), again) == (screened, [])
  {
    hide *;
    if ParseBody(lines, first).0.None? {
      return;
    }
    var c := AcceptedCriteria(lines, first);
    BuildKeepsOk(c);
    BuildAgain(c);
    var full := Build(c).criteria;
    KeysDiffer();
    RenderBack(full, KEYS, again);
    AllKeys(full);
    ReadAs(Render(full, KEYS), again, full);
  }

  lemma {:induction false} AcceptedCriteria(lines: seq<string>, first: nat) returns (c: Criteria)
    requires ParseBody(lines, first).0.Some?
    ensures CriteriaOk(c) && ParseBody(lines, first).0 == Some(Build(c))
  {
    hide *;
    AcceptedHasNoErrors(lines, first);
    c := FoldLines(EMPTY, lines, first).criteria;
    ReadAs(lines, first, c);
    NothingIsOk();
    LinesKeepCriteriaOk(EMPTY, lines, first);
  }

  lemma {:induction false} AcceptedHasNoErrors(lines: seq<string>, first: nat)
    ensures ParseBody(lines, first).0.Some? ==> FoldLines(EMPTY, lines, first).errors == []
  {
    hide FoldLines, Build;
  }

  lemma {:induction false} NothingIsOk()
    ensures CriteriaOk(EMPTY.criteria)
  {}

  function Rank(key: Key): nat {
    match key
    case MarketCap => 0
    case Price => 1
    case Volume => 2
    case Beta => 3
    case Dividend => 4
    case Sector => 5
    case Industry => 6
    case Exchange => 7
    case Country => 8
    case Etf => 9
    case AboveSma => 10
    case SmaRising => 11
    case NearHigh => 12
    case MinHistory => 13
    case Limit => 14
  }

  lemma {:induction false} RankOf(k: nat)
    requires k < |KEYS|
    ensures Rank(KEYS[k]) == k
  {}

  lemma {:induction false} KeysDiffer()
    ensures NoRepeats(KEYS)
  {
    hide Rank;
    forall i, j | 0 <= i < j < |KEYS| ensures KEYS[i] != KEYS[j] {
      RankOf(i);
      RankOf(j);
    }
  }

  lemma {:induction false} ReadAs(lines: seq<string>, first: nat, c: Criteria)
    requires FoldLines(EMPTY, lines, first).criteria == c && FoldLines(EMPTY, lines, first).errors == []
    ensures ParseBody(lines, first) == (Some(Build(c)), [])
  {
    hide FoldLines, Build;
  }

  lemma {:induction false} AllKeys(c: Criteria)
    ensures Only(c, KEYS) == c
  {
    forall key ensures key in KEYS {
      EveryKeyListed(key);
    }
  }

  // ----- the parser as a loop -----

  lemma {:induction false} FoldNext<S>(step: (S, string, nat) -> S, s: S, lines: seq<string>, k: nat, first: nat)
    requires k < |lines|
    ensures Fold(step, s, lines[..k + 1], first) == step(Fold(step, s, lines[..k], first), lines[k], first + k)
  {
    assert lines[..k + 1][..k] == lines[..k];
  }

  /** One line folded into what has been read so far. */
  method ReadLine(criteria: Criteria, seen: set<Key>, errors: seq<Error>, raw: string, lineNo: nat)
    returns (criteria': Criteria, seen': set<Key>, errors': seq<Error>)
    ensures Body(criteria', seen', errors') == StepLine(Body(criteria, seen, errors), raw, lineNo)
  {
    hide Classify, ParseValue;
    criteria', seen', errors' := criteria, seen, errors;
    var line := Classify(raw);
    match line {
      case Skip =>
      case Bad(problem) => errors' := errors + [Error(lineNo, problem)];
      case Entry(key, text) =>
        if !IsWindow(key) && key in seen {
          errors' := errors + [Error(lineNo, DuplicateKey)];
          return;
        }
        if !IsWindow(key) {
          seen' := seen + {key};
        }
        var value := ParseValue(key, text, At(criteria, key));
        if value.Err? {
          errors' := errors + [Error(lineNo, value.error)];
        } else {
          criteria' := criteria[key := value.value];
        }
    }
  }

  /** The body, line by line, with what has been read so far in local variables. */
  method ReadBody(rawLines: seq<string>, firstLine: nat) returns (screened: Option<Screened>, errors: seq<Error>)
    ensures (screened, errors) == ParseBody(rawLines, firstLine)
  {
    NothingRead(rawLines, firstLine);
    hide Fold, StepLine;
    var criteria: Criteria := map[];
    var seenScalar: set<Key> := {};
    errors := [];
    var offset := 0;
    while offset < |rawLines|
      invariant 0 <= offset <= |rawLines|
      invariant Body(criteria, seenScalar, errors) == FoldLines(EMPTY, rawLines[..offset], firstLine)
    {
      FoldNext(StepLine, EMPTY, rawLines, offset, firstLine);
      criteria, seenScalar, errors := ReadLine(criteria, seenScalar, errors, rawLines[offset], firstLine + offset);
      offset := offset + 1;
    }
    assert rawLines[..|rawLines|] == rawLines;
    if errors != [] {
      return None, errors;
    }
    screened := Some(Build(criteria));
  }

  lemma {:induction false} NothingRead(lines: seq<string>, first: nat)
    ensures FoldLines(EMPTY, lines[..0], first) == Body(map[], {}, [])
  {}
}
