/** The `[screen]` block in plain terms (`screener/criteria.py`): what a number is and what it is worth, which
    keys there are, how a line is read, what an accepted value of each key looks like, what the vendor is sent
    under which parameter, and what stays for the local enrichment. */
module ScreenPlain {
  import opened Prelude
  import opened ScreenText
  import opened Screen
  import opened ScreenRender

  // ----- numbers -----

  ghost predicate OneDot(s: string) {
    forall i, j :: 0 <= i < j < |s| ==> !(s[i] == '.' && s[j] == '.')
  }

  /** Digits, with at most one dot among them and digits on both sides of it. */
  ghost predicate Numeral(s: string) {
    Plain(s) && OneDot(s)
  }

  lemma {:induction false} NoDotIsDigits(s: string)
    requires s != "" && forall k :: 0 <= k < |s| ==> s[k] != '.'
    ensures Numeral(s) <==> AllDigits(s)
  {
    hide IsDigit;
    if AllDigits(s) {
      assert IsDigit(s[0]) && IsDigit(s[|s| - 1]);
    }
    if Numeral(s) {
      forall k | 0 <= k < |s| ensures IsDigit(s[k]) {
        assert PlainAt(s, k);
      }
    }
  }

  lemma {:induction false} DottedIsNumeral(s: string, dot: nat)
    requires dot < |s| && s[dot] == '.' && forall k :: 0 <= k < dot ==> s[k] != '.'
    ensures Numeral(s) <==> s[..dot] != "" && s[dot + 1..] != "" && AllDigits(s[..dot]) && AllDigits(s[dot + 1..])
  {
    var whole, fraction := s[..dot], s[dot + 1..];
    assert !IsDigit('.');
    hide IsDigit;
    if Numeral(s) {
      assert whole != "" && fraction != "";
      forall k | 0 <= k < |whole| ensures IsDigit(whole[k]) {
        assert PlainAt(s, k) && whole[k] == s[k];
      }
      forall k | 0 <= k < |fraction| ensures IsDigit(fraction[k]) {
        assert PlainAt(s, dot + 1 + k) && fraction[k] == s[dot + 1 + k];
        assert s[dot] == '.';
      }
    }
    if whole != "" && fraction != "" && AllDigits(whole) && AllDigits(fraction) {
      forall k | 0 <= k < |s| ensures k != dot ==> IsDigit(s[k]) {
        assert k < dot ==> s[k] == whole[k];
        assert k > dot ==> s[k] == fraction[k - dot - 1];
      }
    }
  }

  lemma {:induction false} DigitsAreNumeral(s: string)
    ensures ParseDigits(s).Some? <==> Numeral(s)
  {
    var dot := Find(s, '.');
    if s != "" {
      if dot == |s| {
        NoDotIsDigits(s);
      } else {
        DottedIsNumeral(s, dot);
      }
    }
    hide AllDigits, Find;
  }

  /** The powers of ten that a last letter stands for. */
  function PowerOf(c: char): nat {
    if c in {'k', 'K'} then 3 else if c in {'m', 'M'} then 6 else if c in {'b', 'B'} then 9 else if c in {'t', 'T'} then 12 else 0
  }

  lemma {:induction false} MagnitudeIs(c: char)
    ensures Magnitude(c) == if PowerOf(c) == 0 then None else Some(PowerOf(c))
  {}

  /** A token without its sign and its letter. */
  function Unsigned(token: string): string {
    if token != "" && token[0] == '-' then token[1..] else token
  }

  function Bare(token: string): string {
    var u := Unsigned(token);
    if u != "" && PowerOf(u[|u| - 1]) > 0 then u[..|u| - 1] else u
  }

  function LetterPower(token: string): nat {
    var u := Unsigned(token);
    if u == "" then 0 else PowerOf(u[|u| - 1])
  }

  lemma {:induction false} Pow10Adds(a: nat, b: nat)
    ensures Pow10(a + b) == Pow10(a) * Pow10(b)
  {
    if a > 0 {
      Pow10Adds(a - 1, b);
      assert 10 * (Pow10(a - 1) * Pow10(b)) == (10 * Pow10(a - 1)) * Pow10(b);
    }
  }

  lemma {:induction false} ReduceKeeps(m: int, places: nat)
    ensures var x := Reduce(m, places);
      x.mantissa * Pow10(places) == m * Pow10(x.places)
    decreases places
  {
    if places > 0 && m % 10 == 0 {
      ReduceKeeps(m / 10, places - 1);
      var x := Reduce(m / 10, places - 1);
      TenTimes(x.mantissa, Pow10(places - 1), m / 10, Pow10(x.places));
    }
  }

  lemma {:induction false} TenTimes(a: int, p: int, b: int, q: int)
    requires a * p == b * q
    ensures a * (10 * p) == (b * 10) * q
  {
    assert a * (10 * p) == 10 * (a * p) && (b * 10) * q == 10 * (b * q);
  }

  lemma {:induction false} ScaledKeeps(m: int, places: nat, power: nat)
    ensures var x := Scaled(m, places, power);
      x.mantissa * Pow10(places) == (m * Pow10(power)) * Pow10(x.places)
  {
    var x := Scaled(m, places, power);
    if power >= places {
      Pow10Adds(power - places, places);
      Regroup(m, Pow10(power - places), Pow10(places));
      assert Pow10(0) == 1;
    } else {
      ReduceKeeps(m, places - power);
      Pow10Adds(places - power, power);
      Regroup(x.mantissa, Pow10(places - power), Pow10(power));
      Swapped(m, Pow10(x.places), Pow10(power));
    }
    hide Pow10, Reduce, Scaled;
  }

  lemma {:induction false} Regroup(a: int, p: int, q: int)
    ensures (a * p) * q == a * (p * q)
  {}

  lemma {:induction false} Swapped(a: int, p: int, q: int)
    ensures (a * p) * q == (a * q) * p
  {}

  /** The value of a numeral under its sign and letter. */
  function Denotes(token: string): Decimal
    requires ParseDigits(Bare(token)).Some?
  {
    var (digits, places) := ParseDigits(Bare(token)).value;
    var m: int := DigitsValue(digits);
    Scaled(if token != "" && token[0] == '-' then -m else m, places, LetterPower(token))
  }

  lemma {:induction false} ParseIs(token: string)
    ensures ParseNumber(token) ==
      if ParseDigits(Bare(token)).None? || TooLarge(Denotes(token)) then None else Some(Denotes(token))
  {
    var u := Unsigned(token);
    if u != "" {
      MagnitudeIs(u[|u| - 1]);
    }
    hide Magnitude, ParseDigits, DigitsValue, Scaled, PowerOf, TooLarge;
  }

  lemma {:induction false} DenotesMeans(token: string)
    requires ParseDigits(Bare(token)).Some?
    ensures var (digits, places) := ParseDigits(Bare(token)).value;
      var m: int := if token != "" && token[0] == '-' then -(DigitsValue(digits) as int) else DigitsValue(digits);
      Denotes(token).mantissa * Pow10(places) == (m * Pow10(LetterPower(token))) * Pow10(Denotes(token).places)
  {
    var (digits, places) := ParseDigits(Bare(token)).value;
    var m: int := DigitsValue(digits);
    hide ParseDigits, DigitsValue, Scaled, Pow10, LetterPower, Bare;
    ScaledKeeps(if token != "" && token[0] == '-' then -m else m, places, LetterPower(token));
  }

  /** What a token is as a number: nothing unless it is a numeral with an optional sign before and an optional
      K, M, B or T, in either case, after it; otherwise the digits, the dot and the letter give its value, which
      may be at most ten to the eighteenth. */
  lemma {:induction false} NumberMeans(token: string)
    ensures ParseDigits(Bare(token)).Some? <==> Numeral(Bare(token))
    ensures !Numeral(Bare(token)) ==> ParseNumber(token) == None
    ensures Numeral(Bare(token)) ==>
      var (digits, places) := ParseDigits(Bare(token)).value;
      var m: int := if token != "" && token[0] == '-' then -(DigitsValue(digits) as int) else DigitsValue(digits);
      var x := Denotes(token);
      && x.mantissa * Pow10(places) == (m * Pow10(LetterPower(token))) * Pow10(x.places)
      && ParseNumber(token) == (if AbsInt(x.mantissa) > 1_000_000_000_000_000_000 * Pow10(x.places) then None else Some(x))
  {
    DigitsAreNumeral(Bare(token));
    ParseIs(token);
    if ParseDigits(Bare(token)).Some? {
      DenotesMeans(token);
      assert TooLarge(Denotes(token)) <==> AbsInt(Denotes(token).mantissa) > 1_000_000_000_000_000_000 * Pow10(Denotes(token).places);
    }
    hide *;
  }

  lemma {:induction false} Quotients(a: real, p: real, b: real, q: real)
    requires p > 0.0 && q > 0.0
    ensures a / p <= b / q <==> a * q <= b * p
  {
    var x, y := a / p, b / q;
    DivCancel(a, p);
    DivCancel(b, q);
    MulPositive(p, q);
    assert a * q == x * (p * q) && b * p == y * (p * q);
    if x <= y {
      MulMono(x, y, p * q);
    } else {
      MulStrict(y, x, p * q);
    }
  }

  lemma {:induction false} Casts(a: int, b: int)
    ensures (a * b) as real == a as real * b as real
  {}

  /** Comparing two numbers is comparing what they stand for. */
  lemma {:induction false} AtMostMeans(a: Decimal, b: Decimal)
    ensures AtMost(a, b) <==> a.mantissa as real / Pow10(a.places) as real <= b.mantissa as real / Pow10(b.places) as real
  {
    Quotients(a.mantissa as real, Pow10(a.places) as real, b.mantissa as real, Pow10(b.places) as real);
    Casts(a.mantissa, Pow10(b.places));
    Casts(b.mantissa, Pow10(a.places));
    hide Pow10;
  }

  // ----- keys -----

  /** The fifteen keys and their names. */
  lemma {:induction false} KeysByName()
    ensures KeyOf("market_cap") == Some(MarketCap) && KeyOf("price") == Some(Price) && KeyOf("volume") == Some(Volume)
    ensures KeyOf("beta") == Some(Beta) && KeyOf("dividend") == Some(Dividend)
    ensures KeyOf("sector") == Some(Sector) && KeyOf("industry") == Some(Industry) && KeyOf("exchange") == Some(Exchange)
    ensures KeyOf("country") == Some(Country) && KeyOf("etf") == Some(Etf)
    ensures KeyOf("above_sma") == Some(AboveSma) && KeyOf("sma_rising") == Some(SmaRising) && KeyOf("near_52w_high") == Some(NearHigh)
    ensures KeyOf("min_history") == Some(MinHistory) && KeyOf("limit") == Some(Limit)
  {
    hide KeyOf;
    forall key ensures KeyOf(KeyText(key)) == Some(key) {
      KeyBack(key);
    }
    assert KeyText(MarketCap) == "market_cap" && KeyText(Price) == "price" && KeyText(Volume) == "volume";
    assert KeyText(Beta) == "beta" && KeyText(Dividend) == "dividend";
    assert KeyText(Sector) == "sector" && KeyText(Industry) == "industry" && KeyText(Exchange) == "exchange";
    assert KeyText(Country) == "country" && KeyText(Etf) == "etf";
    assert KeyText(AboveSma) == "above_sma" && KeyText(SmaRising) == "sma_rising" && KeyText(NearHigh) == "near_52w_high";
    assert KeyText(MinHistory) == "min_history" && KeyText(Limit) == "limit";
  }

  /** And no other name is a key. */
  lemma {:induction false} OnlyKeys(text: string)
    ensures KeyOf(text).Some? ==> text == KeyText(KeyOf(text).value)
  {
    AmongKeys(KEYS, text);
  }

  lemma {:induction false} AmongKeys(keys: seq<Key>, text: string)
    ensures KeyAmong(keys, text).Some? ==> text == KeyText(KeyAmong(keys, text).value)
  {
    hide KeyText;
    if keys != [] && KeyText(keys[0]) != text {
      AmongKeys(keys[1..], text);
    }
  }

  // ----- accepted values -----

  function Worth(d: Decimal): real {
    d.mantissa as real / Pow10(d.places) as real
  }

  /** What an accepted value of each key is. */
  ghost predicate Acceptable(key: Key, v: Value) {
    match key
    case MarketCap => Bounds(v)
    case Price => Bounds(v)
    case Volume => Bounds(v)
    case Beta => Bounds(v)
    case Dividend => Bounds(v)
    case Sector => Name(v)
    case Industry => Name(v)
    case Exchange => Name(v)
    case Country => Name(v) && |v.s| == 2 && 'A' <= v.s[0] <= 'Z' && 'A' <= v.s[1] <= 'Z'
    case Etf => v.Flag?
    case AboveSma => v == Windows([50]) || v == Windows([200]) || v == Windows([50, 200])
    case SmaRising => v == Windows([50]) || v == Windows([200]) || v == Windows([50, 200])
    case NearHigh => v.Number? && 1.0 <= Worth(v.d) <= 100.0
    case MinHistory => v.Count? && 1 <= v.n <= 2000
    case Limit => v.Count? && 1 <= v.n <= 100
  }

  /** One bound at least, and the lower one not above the upper. */
  ghost predicate Bounds(v: Value) {
    v.Range? && (v.gte.Some? || v.lte.Some?) && (v.gte.Some? && v.lte.Some? ==> Worth(v.gte.value) <= Worth(v.lte.value))
  }

  /** A single text of at most sixty-four characters, no list. */
  ghost predicate Name(v: Value) {
    v.Text? && 0 < |v.s| <= 64 && '|' !in v.s && ',' !in v.s
  }

  lemma {:induction false} OkIsAcceptable(key: Key, v: Value)
    requires ValueOk(key, v)
    ensures Acceptable(key, v)
  {
    if v.Range? && v.gte.Some? && v.lte.Some? {
      AtMostMeans(v.gte.value, v.lte.value);
    }
    if v.Number? {
      AtMostMeans(Decimal(1, 0), v.d);
      AtMostMeans(v.d, Decimal(100, 0));
      assert Worth(Decimal(1, 0)) == 1.0 && Worth(Decimal(100, 0)) == 100.0;
    }
    if key == Country {
      assert Upper(v.s) == v.s && UpperChar(v.s[0]) == v.s[0] && UpperChar(v.s[1]) == v.s[1];
    }
    hide AtMost, Pow10, Normal, TooLarge, Trimmed, Upper;
  }

  /** Every value of a block that parses is acceptable for its key. */
  lemma {:induction false} AcceptedIsAcceptable(lines: seq<string>, first: nat, key: Key)
    ensures var screened := ParseBody(lines, first).0;
      screened.Some? && key in screened.value.criteria ==> Acceptable(key, screened.value.criteria[key])
  {
    hide *;
    if ParseBody(lines, first).0.Some? {
      var c := AcceptedCriteria(lines, first);
      BuildKeepsOk(c);
      BuiltOk(c, key);
    }
  }

  lemma {:induction false} BuiltOk(c: Criteria, key: Key)
    requires CriteriaOk(Build(c).criteria)
    ensures key in Build(c).criteria ==> Acceptable(key, Build(c).criteria[key])
  {
    hide Build, Acceptable, ValueOk;
    if key in Build(c).criteria {
      OkIsAcceptable(key, Build(c).criteria[key]);
    }
  }

  // ----- what is sent, and what stays here -----

  /** What the vendor is sent under each parameter, if anything. */
  function Sent(c: Criteria, p: Param): Option<Value> {
    match p
    case MoreThan(key) =>
      if key in {MarketCap, Price, Volume, Beta, Dividend} && key in c && c[key].Range? && c[key].gte.Some? then Some(Number(c[key].gte.value)) else None
    case LowerThan(key) =>
      if key in {MarketCap, Price, Volume, Beta, Dividend} && key in c && c[key].Range? && c[key].lte.Some? then Some(Number(c[key].lte.value)) else None
    case Same(key) => if key in {Sector, Industry, Exchange, Country} && key in c then Some(c[key]) else None
    case IsActivelyTrading => Some(Flag(true))
    case IsEtf => Some(Flag(Etf in c && c[Etf] == Flag(true)))
    case VendorLimit => Some(Count(if Limit in c && c[Limit].Count? then c[Limit].n else 50))
  }

  predicate Has(m: map<Param, Value>, p: Param, v: Option<Value>) {
    if v.None? then p !in m else p in m && m[p] == v.value
  }

  lemma {:induction false} PartsHave(c: Criteria, p: Param)
    ensures p.MoreThan? ==> Has(MoreThanPart(c), p, Sent(c, p)) && p !in LowerThanPart(c) && p !in TextPart(c) && p !in FixedPart(c)
    ensures p.LowerThan? ==> Has(LowerThanPart(c), p, Sent(c, p)) && p !in TextPart(c) && p !in FixedPart(c) && p !in MoreThanPart(c)
    ensures p.Same? ==> Has(TextPart(c), p, Sent(c, p)) && p !in FixedPart(c) && p !in MoreThanPart(c) && p !in LowerThanPart(c)
    ensures p.IsActivelyTrading? || p.IsEtf? || p.VendorLimit? ==> Has(FixedPart(c), p, Sent(c, p))
  {}

  lemma {:induction false} LastWins(a: map<Param, Value>, b: map<Param, Value>, c: map<Param, Value>, d: map<Param, Value>, p: Param, v: Option<Value>)
    ensures Has(d, p, v) && v.Some? ==> Has(a + b + c + d, p, v)
    ensures Has(c, p, v) && p !in d && p !in a && p !in b ==> Has(a + b + c + d, p, v)
    ensures Has(b, p, v) && p !in c && p !in d && p !in a ==> Has(a + b + c + d, p, v)
    ensures Has(a, p, v) && p !in b && p !in c && p !in d ==> Has(a + b + c + d, p, v)
  {}

  lemma {:induction false} LimitSame(c: Criteria, p: Param)
    ensures Sent(c[Limit := Count(LimitOf(c))], p) == Sent(c, p)
  {}

  lemma {:induction false} BuiltVendor(c: Criteria)
    ensures var d := c[Limit := Count(LimitOf(c))];
      Build(c).vendor == MoreThanPart(d) + LowerThanPart(d) + TextPart(d) + FixedPart(d)
  {
    hide MoreThanPart, LowerThanPart, TextPart, FixedPart, Derived, LimitOf;
  }

  /** Each bound, each text, the flag and the limit are sent under their own parameter, and nothing else is. */
  lemma {:induction false} VendorGets(c: Criteria, p: Param)
    ensures Has(Build(c).vendor, p, Sent(c, p))
  {
    hide *;
    var d := c[Limit := Count(LimitOf(c))];
    LimitSame(c, p);
    BuiltVendor(c);
    PartsHave(d, p);
    AlwaysSent(c, p);
    LastWins(MoreThanPart(d), LowerThanPart(d), TextPart(d), FixedPart(d), p, Sent(c, p));
  }

  lemma {:induction false} AlwaysSent(c: Criteria, p: Param)
    ensures p.IsActivelyTrading? || p.IsEtf? || p.VendorLimit? ==> Sent(c, p).Some?
  {}

  /** What stays for the local enrichment: the moving-average and high filters that were given, and with any of
      them, or on request, a history of the length asked for or two hundred and sixty days. */
  lemma {:induction false} EnrichmentGets(c: Criteria, key: Key)
    ensures var derived := Build(c).derived;
      var filtered := AboveSma in c || SmaRising in c || NearHigh in c;
      if key in {AboveSma, SmaRising, NearHigh} then key in derived <==> key in c
      else if key == MinHistory then key in derived <==> filtered || MinHistory in c
      else key !in derived
    ensures var derived := Build(c).derived;
      && (key in {AboveSma, SmaRising, NearHigh} && key in c ==> key in derived && derived[key] == c[key])
      && (key == MinHistory && key in derived ==> derived[key] == if MinHistory in c then c[MinHistory] else Count(260))
  {
    DerivedSet(c, key);
    forall k ensures IsDerived(k) <==> k in {AboveSma, SmaRising, NearHigh} {}
    HistoryIs(c);
    hide Build, IsDerived;
  }

  lemma {:induction false} HistoryIs(c: Criteria)
    ensures MinHistory in Build(c).derived && MinHistory in c ==> Build(c).derived[MinHistory] == c[MinHistory]
    ensures MinHistory in Build(c).derived && MinHistory !in c ==> Build(c).derived[MinHistory] == Count(260)
  {
    hide VendorParams, LimitOf;
  }

  // ----- lines -----

  /** How a line is read: returns and blanks around it do not count; an empty one or one that begins with `#` is
      skipped; without a colon it is no line; before the first colon stands the key, in any mixture of capitals,
      and after it the value, blanks aside. */
  lemma {:induction false} LineMeans(raw: string)
    ensures var line := Strip(StripReturns(raw));
      var colon := Find(line, ':');
      if line == "" || line[0] == '#' then Classify(raw) == Skip
      else if ':' !in line then Classify(raw) == Bad(NoColon)
      else
        && colon < |line| && line[colon] == ':' && ':' !in line[..colon]
        && var name, text := Lower(Strip(line[..colon])), Strip(line[colon + 1..]);
        && (KeyOf(name).None? <==> Classify(raw) == Bad(UnknownKey))
        && (KeyOf(name).Some? && text == "" <==> Classify(raw) == Bad(NoValue))
        && (KeyOf(name).Some? && text != "" ==> Classify(raw) == Entry(KeyOf(name).value, text))
  {
    hide Strip, StripReturns, KeyOf, Lower;
  }

  /** The two letter cases are the same to a key: capitals become small letters and nothing else changes. */
  lemma {:induction false} CaseFolds(s: string, k: nat)
    requires k < |s|
    ensures |Lower(s)| == |s|
    ensures 'A' <= s[k] <= 'Z' ==> Lower(s)[k] as int == s[k] as int + 32
    ensures !('A' <= s[k] <= 'Z') ==> Lower(s)[k] == s[k]
  {}
}
