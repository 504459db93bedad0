/** The `[screen]` block parser (`screener/criteria.py`): locating the block, reading its lines into
    criteria or line-numbered errors, and folding criteria into what goes to the vendor. A block has one
    opening tag at the start of a line and ends at the first closing tag; each of its lines gives one key
    a value or one error. */
module Screen {
  import opened Prelude
  import opened ScreenText

  const MAX_BLOCK_BYTES := 4096
  const MAX_BLOCK_LINES := 40
  const LIMIT_MIN := 1
  const LIMIT_MAX := 100
  const LIMIT_DEFAULT := 50
  const MIN_HISTORY_DEFAULT := 260
  const MIN_HISTORY_MAX := 2000
  const MAX_STRING_LEN := 64

  datatype Key =
    | MarketCap | Price | Volume | Beta | Dividend
    | Sector | Industry | Exchange | Country
    | Etf | AboveSma | SmaRising | NearHigh | MinHistory | Limit

  function KeyText(key: Key): string {
    match key
    case MarketCap => "market_cap"
    case Price => "price"
    case Volume => "volume"
    case Beta => "beta"
    case Dividend => "dividend"
    case Sector => "sector"
    case Industry => "industry"
    case Exchange => "exchange"
    case Country => "country"
    case Etf => "etf"
    case AboveSma => "above_sma"
    case SmaRising => "sma_rising"
    case NearHigh => "near_52w_high"
    case MinHistory => "min_history"
    case Limit => "limit"
  }

  const KEYS: seq<Key> := [MarketCap, Price, Volume, Beta, Dividend, Sector, Industry, Exchange, Country,
                           Etf, AboveSma, SmaRising, NearHigh, MinHistory, Limit]

  function KeyAmong(keys: seq<Key>, text: string): Option<Key> {
    if keys == [] then None
    else if KeyText(keys[0]) == text then Some(keys[0])
    else KeyAmong(keys[1..], text)
  }

  function KeyOf(text: string): Option<Key> {
    KeyAmong(KEYS, text)
  }

  predicate IsRange(key: Key) {
    key in {MarketCap, Price, Volume, Beta, Dividend}
  }

  predicate IsText(key: Key) {
    key in {Sector, Industry, Exchange, Country}
  }

  predicate IsWindow(key: Key) {
    key == AboveSma || key == SmaRising
  }

  datatype Value =
    | Range(gte: Option<Decimal>, lte: Option<Decimal>)
    | Text(s: string)
    | Flag(b: bool)
    | Windows(ws: seq<int>)
    | Number(d: Decimal)
    | Count(n: int)

  type Criteria = map<Key, Value>

  datatype Problem =
    | DuplicateBlock | Unclosed | TooManyBytes | TooManyLines
    | NoColon | UnknownKey | NoValue | DuplicateKey
    | BadEnds | InvertedRange | BadBound | StrictBound | NoRange
    | ManyValues | TooLong | BadCountry | BadFlag | BadWindow | DuplicateWindow
    | BadPercent | PercentOutOfRange | BadHistory | BadLimit

  /** `line` counts from one within the whole description. */
  datatype Error = Error(line: nat, problem: Problem)

  // ----- values -----

  predicate StartsWith(s: string, prefix: string) {
    prefix <= s
  }

  function ParseRange(val: string): Result<Value, Problem> {
    var dots := FindDots(val);
    if dots < |val| then
      var lo, hi := ParseNumber(Strip(val[..dots])), ParseNumber(Strip(val[dots + 2..]));
      if lo.None? || hi.None? then Err(BadEnds)
      else if !AtMost(lo.value, hi.value) then Err(InvertedRange)
      else Ok(Range(lo, hi))
    else if StartsWith(val, ">=") then
      var n := ParseNumber(Strip(val[2..]));
      if n.None? then Err(BadBound) else Ok(Range(n, None))
    else if StartsWith(val, "<=") then
      var n := ParseNumber(Strip(val[2..]));
      if n.None? then Err(BadBound) else Ok(Range(None, n))
    else if StartsWith(val, ">") || StartsWith(val, "<") then Err(StrictBound)
    else Err(NoRange)
  }

  predicate OneValue(val: string) {
    '|' !in val && ',' !in val
  }

  predicate IsCountry(val: string) {
    |val| == 2 && IsLetter(val[0]) && IsLetter(val[1])
  }

  function ParseText(key: Key, val: string): Result<Value, Problem> {
    if !OneValue(val) then Err(ManyValues)
    else if |val| > MAX_STRING_LEN then Err(TooLong)
    else if key == Country then (if IsCountry(val) then Ok(Text(Upper(val))) else Err(BadCountry))
    else Ok(Text(val))
  }

  function ParseFlag(val: string): Result<Value, Problem> {
    if Lower(val) == "true" then Ok(Flag(true))
    else if Lower(val) == "false" then Ok(Flag(false))
    else Err(BadFlag)
  }

  /** Fifty or two hundred days. */
  function ParseWindow(val: string): Option<int> {
    var n := ParseNumber(val);
    if n == Some(Decimal(50, 0)) then Some(50) else if n == Some(Decimal(200, 0)) then Some(200) else None
  }

  function WithWindow(ws: seq<int>, w: int): seq<int> {
    (if 50 in ws || w == 50 then [50] else []) + (if 200 in ws || w == 200 then [200] else [])
  }

  function PercentText(val: string): string {
    if val != "" && val[|val| - 1] == '%' then Strip(val[..|val| - 1]) else val
  }

  function ParsePercent(val: string): Result<Value, Problem> {
    var n := ParseNumber(PercentText(val));
    if n.None? then Err(BadPercent)
    else if !(AtMost(Decimal(1, 0), n.value) && AtMost(n.value, Decimal(100, 0))) then Err(PercentOutOfRange)
    else Ok(Number(n.value))
  }

  function ParseHistory(val: string): Result<Value, Problem> {
    var n := ParseNumber(val);
    if n.None? || !Whole(n.value) || !(1 <= n.value.mantissa <= MIN_HISTORY_MAX) then Err(BadHistory)
    else Ok(Count(n.value.mantissa))
  }

  function Clamped(n: int): int {
    if n < LIMIT_MIN then LIMIT_MIN else if n > LIMIT_MAX then LIMIT_MAX else n
  }

  /** Out of range clamps, it does not fail. */
  function ParseLimit(val: string): Result<Value, Problem> {
    var n := ParseNumber(val);
    if n.None? || !Whole(n.value) then Err(BadLimit) else Ok(Count(Clamped(n.value.mantissa)))
  }

  function ParseWindows(old_: Option<Value>, val: string): Result<Value, Problem> {
    var ws := if old_.Some? && old_.value.Windows? then old_.value.ws else [];
    var w := ParseWindow(val);
    if w.None? then Err(BadWindow)
    else if w.value in ws then Err(DuplicateWindow)
    else Ok(Windows(WithWindow(ws, w.value)))
  }

  function At(criteria: Criteria, key: Key): Option<Value> {
    if key in criteria then Some(criteria[key]) else None
  }

  /** The value one line gives its key, on top of what the key has. */
  function ParseValue(key: Key, val: string, old_: Option<Value>): Result<Value, Problem> {
    if IsRange(key) then ParseRange(val)
    else if IsText(key) then ParseText(key, val)
    else if key == Etf then ParseFlag(val)
    else if IsWindow(key) then ParseWindows(old_, val)
    else if key == NearHigh then ParsePercent(val)
    else if key == MinHistory then ParseHistory(val)
    else ParseLimit(val)
  }

  // ----- lines -----

  datatype Line = Skip | Bad(problem: Problem) | Entry(key: Key, text: string)

  function Classify(raw: string): Line {
    var line := Strip(StripReturns(raw));
    if line == "" || line[0] == '#' then Skip
    else
      var colon := Find(line, ':');
      if colon == |line| then Bad(NoColon)
      else
        var key, text := KeyOf(Lower(Strip(line[..colon]))), Strip(line[colon + 1..]);
        if key.None? then Bad(UnknownKey)
        else if text == "" then Bad(NoValue)
        else Entry(key.value, text)
  }

  datatype Body = Body(criteria: Criteria, seen: set<Key>, errors: seq<Error>)

  const EMPTY := Body(map[], {}, [])

  function Failed(b: Body, line: nat, problem: Problem): Body {
    b.(errors := b.errors + [Error(line, problem)])
  }

  function StepLine(b: Body, raw: string, line: nat): Body {
    match Classify(raw)
    case Skip => b
    case Bad(problem) => Failed(b, line, problem)
    case Entry(key, text) =>
      if !IsWindow(key) && key in b.seen then Failed(b, line, DuplicateKey)
      else
        var marked := if IsWindow(key) then b else b.(seen := b.seen + {key});
        match ParseValue(key, text, At(b.criteria, key))
        case Ok(value) => marked.(criteria := b.criteria[key := value])
        case Err(problem) => Failed(marked, line, problem)
  }

  function Fold<S>(step: (S, string, nat) -> S, s: S, lines: seq<string>, first: nat): S {
    if lines == [] then s
    else
      var k := |lines| - 1;
      step(Fold(step, s, lines[..k], first), lines[k], first + k)
  }

  function FoldLines(b: Body, lines: seq<string>, first: nat): Body {
    Fold(StepLine, b, lines, first)
  }

  // ----- the vendor side -----

  datatype Param = MoreThan(key: Key) | LowerThan(key: Key) | Same(key: Key) | IsActivelyTrading | IsEtf | VendorLimit

  datatype Screened = Screened(criteria: Criteria, vendor: map<Param, Value>, derived: map<Key, Value>, limit: int)

  function LimitOf(criteria: Criteria): int {
    if Limit in criteria && criteria[Limit].Count? then criteria[Limit].n else LIMIT_DEFAULT
  }

  function MoreThanPart(c: Criteria): map<Param, Value> {
    map p | p in (set key | key in c && IsRange(key) && c[key].Range? && c[key].gte.Some? :: MoreThan(key)) :: Number(c[p.key].gte.value)
  }

  function LowerThanPart(c: Criteria): map<Param, Value> {
    map p | p in (set key | key in c && IsRange(key) && c[key].Range? && c[key].lte.Some? :: LowerThan(key)) :: Number(c[p.key].lte.value)
  }

  function TextPart(c: Criteria): map<Param, Value> {
    map p | p in (set key | key in c && IsText(key) :: Same(key)) :: c[p.key]
  }

  /** Always sent. */
  function FixedPart(c: Criteria): map<Param, Value> {
    map[IsActivelyTrading := Flag(true), IsEtf := Flag(Etf in c && c[Etf] == Flag(true)), VendorLimit := Count(LimitOf(c))]
  }

  function VendorParams(c: Criteria): map<Param, Value> {
    MoreThanPart(c) + LowerThanPart(c) + TextPart(c) + FixedPart(c)
  }

  predicate IsDerived(key: Key) {
    key in {AboveSma, SmaRising, NearHigh}
  }

  /** What the local enrichment applies; a history length comes along with any of it. */
  function Derived(c: Criteria): map<Key, Value> {
    var own := map key | key in c && IsDerived(key) :: c[key];
    if own != map[] || MinHistory in c then own[MinHistory := if MinHistory in c then c[MinHistory] else Count(MIN_HISTORY_DEFAULT)]
    else own
  }

  function Build(criteria: Criteria): Screened {
    var c := criteria[Limit := Count(LimitOf(criteria))];
    Screened(c, VendorParams(c), Derived(c), LimitOf(criteria))
  }

  function Verdict(b: Body): (Option<Screened>, seq<Error>) {
    if b.errors != [] then (None, b.errors) else (Some(Build(b.criteria)), [])
  }

  function ParseBody(lines: seq<string>, first: nat): (Option<Screened>, seq<Error>) {
    Verdict(FoldLines(EMPTY, lines, first))
  }

  // ----- locating the block -----

  function SkipBlanks(s: string, i: nat): (j: nat)
    requires i <= |s|
    ensures i <= j <= |s|
    ensures forall k :: i <= k < j ==> s[k] in {' ', '\t'}
    decreases |s| - i
  {
    if i < |s| && s[i] in {' ', '\t'} then SkipBlanks(s, i + 1) else i
  }

  predicate TagAt(s: string, i: nat, tag: string) {
    i + |tag| <= |s| && Lower(s[i..i + |tag|]) == tag
  }

  const OPEN_TAG := "[screen]"
  const CLOSE_TAG := "[/screen]"

  predicate LineStart(s: string, i: nat)
    requires i <= |s|
  {
    i == 0 || s[i - 1] == '\n'
  }

  /** An opening tag begins its line, blanks aside; `i` is where that line begins. */
  predicate OpensAt(s: string, i: nat)
    requires i <= |s|
  {
    LineStart(s, i) && TagAt(s, SkipBlanks(s, i), OPEN_TAG)
  }

  function Opens(s: string, i: nat): (opens: seq<nat>)
    requires i <= |s|
    ensures forall k :: 0 <= k < |opens| ==> i <= opens[k] <= |s| && OpensAt(s, opens[k])
    decreases |s| - i
  {
    (if OpensAt(s, i) then [i] else []) + if i < |s| then Opens(s, i + 1) else []
  }

  /** Position of the first closing tag from `i` on. */
  function FindClose(s: string, i: nat): (close: Option<nat>)
    requires i <= |s|
    ensures close.Some? ==> i <= close.value && TagAt(s, close.value, CLOSE_TAG)
    ensures forall j :: i <= j < (if close.Some? then close.value else |s| + 1) ==> !TagAt(s, j, CLOSE_TAG)
    decreases |s| - i
  {
    if TagAt(s, i, CLOSE_TAG) then Some(i) else if i < |s| then FindClose(s, i + 1) else None
  }

  function LineOf(s: string, i: nat): nat
    requires i <= |s|
  {
    Occurrences(s[..i], '\n') + 1
  }

  datatype Block = NoBlock | BadBlock(error: Error) | Found(body: string, firstLine: nat)

  function ExtractBlock(s: string): Block {
    var opens := Opens(s, 0);
    if opens == [] then NoBlock
    else if |opens| > 1 then BadBlock(Error(LineOf(s, opens[1]), DuplicateBlock))
    else
      var start := SkipBlanks(s, opens[0]) + |OPEN_TAG|;
      var close := FindClose(s, start);
      if close.None? then BadBlock(Error(LineOf(s, opens[0]), Unclosed))
      else Found(s[start..close.value], LineOf(s, start))
  }

  function Utf8Size(s: string): nat {
    if s == "" then 0
    else
      var c := s[|s| - 1] as int;
      Utf8Size(s[..|s| - 1]) + if c < 0x80 then 1 else if c < 0x800 then 2 else if c < 0x10000 then 3 else 4
  }

  const BYTE_ORDER_MARK := '\U{FEFF}'

  function WithoutMark(s: string): string {
    if s != "" && s[0] == BYTE_ORDER_MARK then s[1..] else s
  }

  /** A whole description: no block, errors, or criteria. */
  function Parse(text: string): (Option<Screened>, seq<Error>) {
    match ExtractBlock(WithoutMark(text))
    case NoBlock => (None, [])
    case BadBlock(error) => (None, [error])
    case Found(body, first) =>
      if Utf8Size(body) > MAX_BLOCK_BYTES then (None, [Error(first, TooManyBytes)])
      else if |Lines(body)| > MAX_BLOCK_LINES then (None, [Error(first, TooManyLines)])
      else ParseBody(Lines(body), first)
  }

  // ----- what parsing promises -----

  ghost predicate Ascending(errors: seq<Error>) {
    forall i, j :: 0 <= i < j < |errors| ==> errors[i].line < errors[j].line
  }

  ghost predicate Within(errors: seq<Error>, first: nat, last: nat) {
    forall k :: 0 <= k < |errors| ==> first <= errors[k].line < last
  }

  /** What is wrong with a line, given what was read before it. */
  function ProblemIn(b: Body, raw: string): Option<Problem> {
    match Classify(raw)
    case Skip => None
    case Bad(problem) => Some(problem)
    case Entry(key, text) =>
      if !IsWindow(key) && key in b.seen then Some(DuplicateKey)
      else
        match ParseValue(key, text, At(b.criteria, key))
        case Ok(_) => None
        case Err(problem) => Some(problem)
  }

  lemma {:induction false} StepErrors(b: Body, raw: string, line: nat)
    ensures StepLine(b, raw, line).errors
         == if ProblemIn(b, raw).Some? then b.errors + [Error(line, ProblemIn(b, raw).value)] else b.errors
  {
    hide Classify, ParseValue;
  }

  lemma {:induction false} AscendingSnoc(errors: seq<Error>, e: Error, first: nat)
    requires Ascending(errors) && Within(errors, first, e.line) && first <= e.line
    ensures Ascending(errors + [e]) && Within(errors + [e], first, e.line + 1)
  {}

  /** One error per line at most, each on its own line, in order. */
  lemma {:induction false} BodyErrorsAscend(b: Body, lines: seq<string>, first: nat)
    requires b.errors == []
    ensures var errors := FoldLines(b, lines, first).errors;
      Ascending(errors) && Within(errors, first, first + |lines|)
  {
    hide *;
    FoldEnds(b, lines, first);
    if lines == [] {
      NoErrors(first);
    } else {
      var k := |lines| - 1;
      BodyErrorsAscend(b, lines[..k], first);
      var before := FoldLines(b, lines[..k], first);
      StepErrors(before, lines[k], first + k);
      Widened(before.errors, first, first + k);
      if ProblemIn(before, lines[k]).Some? {
        AscendingSnoc(before.errors, Error(first + k, ProblemIn(before, lines[k]).value), first);
      }
    }
  }

  lemma {:induction false} FoldEnds(b: Body, lines: seq<string>, first: nat)
    ensures lines == [] ==> FoldLines(b, lines, first) == b
    ensures lines != [] ==>
      var k := |lines| - 1;
      FoldLines(b, lines, first) == StepLine(FoldLines(b, lines[..k], first), lines[k], first + k)
  {
    hide StepLine;
  }

  lemma {:induction false} NoErrors(first: nat)
    ensures Ascending([]) && Within([], first, first)
  {}

  lemma {:induction false} Widened(errors: seq<Error>, first: nat, last: nat)
    requires Within(errors, first, last)
    ensures Within(errors, first, last + 1)
  {}

  lemma {:induction false} BodyNeverBoth(lines: seq<string>, first: nat)
    ensures var (screened, errors) := ParseBody(lines, first);
      (screened.Some? ==> errors == []) && Ascending(errors)
  {
    BodyErrorsAscend(EMPTY, lines, first);
    hide FoldLines, Build, Within;
  }

  /** Parsing is total and never returns both criteria and errors; errors come in strictly increasing lines. */
  lemma {:induction false} NeverBoth(text: string)
    ensures var (screened, errors) := Parse(text);
      (screened.Some? ==> errors == []) && Ascending(errors)
  {
    hide ExtractBlock, ParseBody, Utf8Size, Lines, WithoutMark;
    var block := ExtractBlock(WithoutMark(text));
    if block.Found? {
      BodyNeverBoth(Lines(block.body), block.firstLine);
    }
  }

  predicate Opener(s: string, i: nat) {
    i <= |s| && OpensAt(s, i)
  }

  lemma {:induction false} OpensAtExactly(s: string, i: nat, j: nat)
    requires i <= |s|
    ensures j in Opens(s, i) <==> i <= j && Opener(s, j)
    decreases |s| - i
  {
    hide OpensAt;
    var rest := if i < |s| then Opens(s, i + 1) else [];
    assert Opens(s, i) == (if OpensAt(s, i) then [i] else []) + rest;
    hide Opens;
    if i < |s| {
      OpensAtExactly(s, i + 1, j);
    }
  }

  lemma {:induction false} OpensExact(s: string, i: nat)
    requires i <= |s|
    ensures forall j: nat :: j in Opens(s, i) <==> i <= j && Opener(s, j)
  {
    hide Opens, Opener;
    forall j: nat ensures j in Opens(s, i) <==> i <= j && Opener(s, j) {
      OpensAtExactly(s, i, j);
    }
  }

  lemma {:induction false} OpensDistinct(s: string, i: nat)
    requires i <= |s|
    ensures forall m, n :: 0 <= m < n < |Opens(s, i)| ==> Opens(s, i)[m] < Opens(s, i)[n]
    decreases |s| - i
  {
    if i < |s| {
      OpensDistinct(s, i + 1);
    }
    hide OpensAt;
  }

  /** A tag inside a line of prose opens nothing: there is a block, good or bad, exactly if some line begins
      with the tag, blanks aside; and it is a duplicate exactly if two do. */
  lemma {:induction false} BlockIffALineOpens(s: string)
    ensures ExtractBlock(s).NoBlock? <==> forall j: nat :: !Opener(s, j)
    ensures ExtractBlock(s).BadBlock? && ExtractBlock(s).error.problem == DuplicateBlock <==>
      exists i: nat, j: nat :: i < j && Opener(s, i) && Opener(s, j)
  {
    SeveralOpen(s);
    hide Opens, Opener, SkipBlanks, LineOf, FindClose;
  }

  lemma {:induction false} SeveralOpen(s: string)
    ensures Opens(s, 0) == [] <==> forall j: nat :: !Opener(s, j)
    ensures |Opens(s, 0)| > 1 <==> exists i: nat, j: nat :: i < j && Opener(s, i) && Opener(s, j)
  {
    hide Opens, Opener;
    OpensExact(s, 0);
    OpensDistinct(s, 0);
    var opens := Opens(s, 0);
    if |opens| > 1 {
      assert opens[0] in opens && opens[1] in opens && opens[0] < opens[1];
    }
    if i: nat, j: nat :| i < j && Opener(s, i) && Opener(s, j) {
      assert i in opens && j in opens;
    }
    if opens != [] {
      assert opens[0] in opens;
    }
  }

  lemma {:induction false} TagFits(s: string, i: nat, tag: string)
    requires TagAt(s, i, tag)
    ensures i + |tag| <= |s|
  {}

  lemma {:induction false} OpenerFits(s: string, i: nat)
    requires Opener(s, i)
    ensures i <= |s| && SkipBlanks(s, i) + |OPEN_TAG| <= |s|
  {
    hide SkipBlanks, Lower, LineStart;
  }

  lemma {:induction false} FoundHasOne(s: string)
    requires ExtractBlock(s).Found?
    ensures |Opens(s, 0)| == 1
  {
    hide Opens, SkipBlanks, LineOf, FindClose;
  }

  lemma {:induction false} OneOpener(s: string, i: nat)
    requires ExtractBlock(s).Found? && Opener(s, i)
    ensures Opens(s, 0) == [i] && i <= |s| && SkipBlanks(s, i) + |OPEN_TAG| <= |s|
  {
    hide *;
    OpenerFits(s, i);
    FoundHasOne(s);
    OpensAtExactly(s, 0, i);
    assert Opens(s, 0)[0] == i;
  }

  /** The body runs from the tag of the one line that opens it to the first closing tag. */
  lemma {:induction false} BodyEndsAtFirstClose(s: string, i: nat)
    requires ExtractBlock(s).Found? && Opener(s, i)
    ensures var start, body := SkipBlanks(s, i) + |OPEN_TAG|, ExtractBlock(s).body;
      && start + |body| <= |s| && body == s[start..start + |body|] && ExtractBlock(s).firstLine == LineOf(s, start)
      && TagAt(s, start + |body|, CLOSE_TAG) && forall j :: start <= j < start + |body| ==> !TagAt(s, j, CLOSE_TAG)
  {
    hide Opens, Opener, OpensAt, SkipBlanks, LineOf, Lower, FindClose, TagAt;
    OneOpener(s, i);
    var start := SkipBlanks(s, i) + |OPEN_TAG|;
    TagFits(s, FindClose(s, start).value, CLOSE_TAG);
  }

  lemma {:induction false} FoundBlock(s: string) returns (start: nat, end: nat)
    requires ExtractBlock(s).Found?
    ensures start <= end <= |s| && ExtractBlock(s) == Found(s[start..end], LineOf(s, start))
  {
    var opens := Opens(s, 0);
    start := SkipBlanks(s, opens[0]) + |OPEN_TAG|;
    end := FindClose(s, start).value;
    hide Opens, FindClose, SkipBlanks, LineOf;
  }

  /** A line of the body is a line of the description: line `k` of the body, counted from its first line. */
  lemma {:induction false} BodyLineIsTextLine(s: string, start: nat, end: nat, k: nat)
    requires start <= end <= |s| && k < |Lines(s[start..end])|
    ensures var body, all := Lines(s[start..end]), Lines(s);
      var n := LineOf(s, start) - 1 + k;
      && n < |all|
      && (exists before, after :: all[n] == before + body[k] + after)
      && (0 < k < |body| - 1 ==> all[n] == body[k])
  {
    hide *;
    var a, b, c := s[..start], s[start..end], s[end..];
    assert s == (a + b) + c;
    LinesConcat(a, b);
    LinesConcat(a + b, c);
    LineNumber(s, start);
    ThreeParts(Lines(a), Lines(b), Lines(c), k);
  }

  lemma {:induction false} LineNumber(s: string, i: nat)
    requires i <= |s|
    ensures LineOf(s, i) == |Lines(s[..i])|
  {
    LinesCount(s[..i]);
    hide Lines, Occurrences;
  }

  lemma {:induction false} ThreeParts(a: seq<string>, b: seq<string>, c: seq<string>, k: nat)
    requires |a| > 0 && |b| > 0 && |c| > 0 && k < |b|
    ensures var all := Joined(Joined(a, b), c);
      var n := |a| - 1 + k;
      && n < |all|
      && (exists before, after :: all[n] == before + b[k] + after)
      && (0 < k < |b| - 1 ==> all[n] == b[k])
  {
    var all, n := Joined(Joined(a, b), c), |a| - 1 + k;
    var before := if k == 0 then a[|a| - 1] else "";
    var after := if k == |b| - 1 then c[0] else "";
    assert all[n] == before + b[k] + after;
    if 0 < k < |b| - 1 {
      assert before + b[k] + after == b[k];
    }
  }
}
