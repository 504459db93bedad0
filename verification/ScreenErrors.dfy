/** What the errors of a `[screen]` block say (`screener/criteria.py`): which lines, and why. */
module ScreenErrors {
  import opened Prelude
  import opened ScreenText
  import opened Screen

  // ----- the body, line by line -----

  /** Line `k` of the body, read after the lines before it, has this problem. */
  predicate Offends(lines: seq<string>, first: nat, k: nat, problem: Problem)
    requires k < |lines|
  {
    ProblemIn(FoldLines(EMPTY, lines[..k], first), lines[k]) == Some(problem)
  }

  predicate NamesOffence(lines: seq<string>, first: nat, e: Error) {
    first <= e.line < first + |lines| && Offends(lines, first, e.line - first, e.problem)
  }

  lemma {:induction false} OffencesFront(lines: seq<string>, first: nat, e: Error)
    requires lines != []
    ensures var k := |lines| - 1;
      NamesOffence(lines, first, e) <==>
        NamesOffence(lines[..k], first, e) || (e.line == first + k && Offends(lines, first, k, e.problem))
  {
    hide FoldLines, ProblemIn;
    var k := |lines| - 1;
    if first <= e.line < first + k {
      assert lines[..k][..e.line - first] == lines[..e.line - first];
    }
  }

  /** The errors are the offences: each error names an offending line with its problem, and every offending
      line has its error. */
  lemma {:induction false} ErrorIffOffence(lines: seq<string>, first: nat, e: Error)
    ensures e in FoldLines(EMPTY, lines, first).errors <==> NamesOffence(lines, first, e)
  {
    hide FoldLines, StepLine, ProblemIn;
    FoldEnds(EMPTY, lines, first);
    if lines != [] {
      var k := |lines| - 1;
      ErrorIffOffence(lines[..k], first, e);
      StepErrors(FoldLines(EMPTY, lines[..k], first), lines[k], first + k);
      OffencesFront(lines, first, e);
    }
  }

  // ----- the description as a whole -----

  /** The one block was found and is within the caps. */
  predicate Readable(block: Block) {
    block.Found? && Utf8Size(block.body) <= MAX_BLOCK_BYTES && |Lines(block.body)| <= MAX_BLOCK_LINES
  }

  /** Line `n` of the description, counted from one, holds this text. */
  ghost predicate Holds(text: string, n: nat, part: string) {
    1 <= n <= |Lines(text)| && exists before, after :: Lines(text)[n - 1] == before + part + after
  }

  lemma {:induction false} BodyLineHeld(s: string, k: nat)
    requires ExtractBlock(s).Found? && k < |Lines(ExtractBlock(s).body)|
    ensures Holds(s, ExtractBlock(s).firstLine + k, Lines(ExtractBlock(s).body)[k])
  {
    hide *;
    var start, end := FoundBlock(s);
    LineNumber(s, start);
    LinesSome(s[..start]);
    BodyLineIsTextLine(s, start, end, k);
    LineHolds(s, LineOf(s, start) + k, Lines(s[start..end])[k]);
  }

  lemma {:induction false} LineHolds(text: string, n: nat, part: string)
    requires 1 <= n <= |Lines(text)| && exists before, after :: Lines(text)[n - 1] == before + part + after
    ensures Holds(text, n, part)
  {
    hide Lines;
  }

  lemma {:induction false} LinesSome(s: string)
    ensures |Lines(s)| >= 1
  {
    LinesCount(s);
    hide Lines;
  }

  lemma {:induction false} ParsedErrors(text: string)
    requires Readable(ExtractBlock(WithoutMark(text)))
    ensures var block := ExtractBlock(WithoutMark(text));
      Parse(text).1 == FoldLines(EMPTY, Lines(block.body), block.firstLine).errors
  {
    hide ExtractBlock, Lines, FoldLines, Utf8Size, Build, WithoutMark;
  }

  /** The errors of a readable block are exactly its offending lines, each with its own problem, and the line
      an error names is the line of the description that holds the offending text. */
  lemma {:induction false} ErrorsNameTheirLine(text: string, e: Error)
    requires Readable(ExtractBlock(WithoutMark(text)))
    ensures var s := WithoutMark(text);
      var lines, first := Lines(ExtractBlock(s).body), ExtractBlock(s).firstLine;
      && (e in Parse(text).1 <==> NamesOffence(lines, first, e))
      && (NamesOffence(lines, first, e) ==> Holds(s, e.line, lines[e.line - first]))
  {
    hide *;
    var s := WithoutMark(text);
    ReadableIsFound(ExtractBlock(s));
    var lines, first := Lines(ExtractBlock(s).body), ExtractBlock(s).firstLine;
    ParsedErrors(text);
    ErrorIffOffence(lines, first, e);
    OffenceInBody(lines, first, e);
    if NamesOffence(lines, first, e) {
      BodyLineHeld(s, e.line - first);
    }
  }

  lemma {:induction false} ReadableIsFound(block: Block)
    requires Readable(block)
    ensures block.Found?
  {}

  lemma {:induction false} OffenceInBody(lines: seq<string>, first: nat, e: Error)
    ensures NamesOffence(lines, first, e) ==> first <= e.line < first + |lines|
  {}

  // ----- errors about the block itself -----

  /** `i` is where the first line that opens a block begins. */
  ghost predicate FirstOpener(s: string, i: nat) {
    Opener(s, i) && forall m: nat :: Opener(s, m) ==> i <= m
  }

  /** And `j` where the second one does. */
  ghost predicate SecondOpener(s: string, i: nat, j: nat) {
    i < j && Opener(s, j) && forall m: nat :: Opener(s, m) ==> m <= i || j <= m
  }

  ghost predicate OnlyOpener(s: string, i: nat) {
    Opener(s, i) && forall m: nat :: Opener(s, m) ==> m == i
  }

  function TagEnd(s: string, i: nat): nat
    requires i <= |s|
  {
    SkipBlanks(s, i) + |OPEN_TAG|
  }

  /** The text stands at this place, in any mixture of capitals. */
  predicate SpelledAt(s: string, i: nat, text: string) {
    i + |text| <= |s| && forall k :: 0 <= k < |text| ==> LowerChar(s[i + k]) == text[k]
  }

  lemma {:induction false} SpelledIsTag(s: string, i: nat, text: string)
    ensures SpelledAt(s, i, text) <==> TagAt(s, i, text)
  {
    if i + |text| <= |s| {
      var part := Lower(s[i..i + |text|]);
      assert forall k :: 0 <= k < |text| ==> part[k] == LowerChar(s[i + k]);
      assert part == text <==> forall k :: 0 <= k < |text| ==> part[k] == text[k];
    }
    hide Lower, LowerChar;
  }

  lemma {:induction false} BlanksEnd(s: string, i: nat, n: nat)
    requires i + n < |s| && s[i + n] !in {' ', '\t'} && forall k :: i <= k < i + n ==> s[k] in {' ', '\t'}
    ensures SkipBlanks(s, i) == i + n
  {
    var j := SkipBlanks(s, i);
    SkipStops(s, i);
    hide SkipBlanks;
  }

  lemma {:induction false} SkipStops(s: string, i: nat)
    requires i <= |s|
    ensures SkipBlanks(s, i) < |s| ==> s[SkipBlanks(s, i)] !in {' ', '\t'}
    decreases |s| - i
  {
    if i < |s| && s[i] in {' ', '\t'} {
      SkipStops(s, i + 1);
    }
  }

  /** Where a line begins and, after blanks at most, the opening tag stands. */
  ghost predicate OpensLine(s: string, i: nat, n: nat) {
    && i <= |s| && (i == 0 || s[i - 1] == '\n')
    && i + n <= |s| && (forall k :: i <= k < i + n ==> s[k] in {' ', '\t'})
    && SpelledAt(s, i + n, "[screen]")
  }

  lemma {:induction false} OpenerMeans(s: string, i: nat)
    ensures Opener(s, i) <==> exists n: nat :: OpensLine(s, i, n)
    ensures Opener(s, i) ==> i <= |s| && OpensLine(s, i, TagEnd(s, i) - 8 - i)
  {
    if i <= |s| {
      SpelledIsTag(s, SkipBlanks(s, i), "[screen]");
      if Opener(s, i) {
        assert OpensLine(s, i, SkipBlanks(s, i) - i);
      }
      if n: nat :| OpensLine(s, i, n) {
        assert LowerChar(s[i + n + 0]) == "[screen]"[0] == '[';
        BlanksEnd(s, i, n);
      }
    }
    hide SkipBlanks, Lower;
  }

  ghost predicate ClosesAfter(s: string, start: nat) {
    exists m: nat :: start <= m && SpelledAt(s, m, "[/screen]")
  }

  ghost predicate Increasing(xs: seq<nat>) {
    forall m, n :: 0 <= m < n < |xs| ==> xs[m] < xs[n]
  }

  lemma {:induction false} OpensAre(s: string)
    ensures Increasing(Opens(s, 0)) && forall m: nat :: m in Opens(s, 0) <==> Opener(s, m)
  {
    hide Opens, Opener;
    OpensDistinct(s, 0);
    OpensExact(s, 0);
  }

  lemma {:induction false} SecondOf(xs: seq<nat>, i: nat, j: nat)
    requires Increasing(xs) && i in xs && j in xs && i < j
    requires forall m :: m in xs ==> m == i || j <= m
    ensures |xs| > 1 && xs[1] == j
  {
    var a :| 0 <= a < |xs| && xs[a] == i;
    var b :| 0 <= b < |xs| && xs[b] == j;
    assert a < b;
    assert xs[0] in xs && xs[1] in xs;
    assert xs[0] < xs[1] <= xs[b];
  }

  lemma {:induction false} SingleOf(xs: seq<nat>, i: nat)
    requires Increasing(xs) && i in xs && forall m :: m in xs ==> m == i
    ensures xs == [i]
  {
    var n := |xs| - 1;
    assert xs[0] in xs && xs[n] in xs;
    assert xs[0] == xs[n] == i;
  }

  lemma {:induction false} FirstTwo(s: string, i: nat, j: nat)
    requires FirstOpener(s, i) && SecondOpener(s, i, j)
    ensures |Opens(s, 0)| > 1 && Opens(s, 0)[1] == j
  {
    hide Opens, Opener, Increasing;
    OpensAre(s);
    SecondOf(Opens(s, 0), i, j);
  }

  lemma {:induction false} JustOne(s: string, i: nat)
    requires OnlyOpener(s, i)
    ensures Opens(s, 0) == [i] && i <= |s| && TagEnd(s, i) <= |s|
  {
    OpenerFits(s, i);
    hide Opens, Opener, Increasing, SkipBlanks;
    OpensAre(s);
    SingleOf(Opens(s, 0), i);
  }

  /** Parsing says nothing at all, neither criteria nor errors, exactly when no line opens a block. */
  lemma {:induction false} SilentIffNoBlock(text: string)
    ensures Parse(text) == (None, []) <==> forall j: nat :: !Opener(WithoutMark(text), j)
  {
    BlockIffALineOpens(WithoutMark(text));
    hide ExtractBlock, Opener, Lines, Utf8Size, FoldLines, Build, WithoutMark;
  }

  /** Where a second line opens a block, that is the one error, and it names that line. */
  lemma {:induction false} DuplicateNamesSecondOpener(text: string, i: nat, j: nat)
    requires FirstOpener(WithoutMark(text), i) && SecondOpener(WithoutMark(text), i, j)
    ensures j <= |WithoutMark(text)| && Parse(text) == (None, [Error(LineOf(WithoutMark(text), j), DuplicateBlock)])
  {
    FirstTwo(WithoutMark(text), i, j);
    hide Opens, FirstOpener, SecondOpener, Lines, LineOf, FindClose, WithoutMark, ParseBody;
  }

  lemma {:induction false} CloseFound(s: string, start: nat)
    requires start <= |s|
    ensures FindClose(s, start).Some? <==> ClosesAfter(s, start)
  {
    forall m: nat ensures SpelledAt(s, m, "[/screen]") <==> TagAt(s, m, CLOSE_TAG) {
      SpelledIsTag(s, m, "[/screen]");
    }
    hide TagAt, SpelledAt, FindClose;
    if m: nat :| start <= m && SpelledAt(s, m, "[/screen]") {
      TagFits(s, m, CLOSE_TAG);
    }
    var close := FindClose(s, start);
    assert close.Some? ==> SpelledAt(s, close.value, "[/screen]");
  }

  /** A block that nothing closes is the one error, and it names the line that opens it; the caps name the line
      on which the opening tag ends; and otherwise the block is readable. */
  lemma {:induction false} BlockErrorsNameOpener(text: string, i: nat)
    requires OnlyOpener(WithoutMark(text), i)
    ensures i <= |WithoutMark(text)| && TagEnd(WithoutMark(text), i) <= |WithoutMark(text)|
    ensures var s := WithoutMark(text);
      var start, block := TagEnd(s, i), ExtractBlock(s);
      if !ClosesAfter(s, start) then Parse(text) == (None, [Error(LineOf(s, i), Unclosed)])
      else
        && block.Found? && block.firstLine == LineOf(s, start)
        && (if Utf8Size(block.body) > 4096 then Parse(text) == (None, [Error(LineOf(s, start), TooManyBytes)])
            else if |Lines(block.body)| > 40 then Parse(text) == (None, [Error(LineOf(s, start), TooManyLines)])
            else Readable(block))
  {
    hide *;
    var s := WithoutMark(text);
    JustOne(s, i);
    CloseFound(s, TagEnd(s, i));
    ExtractsOne(s, i);
    ParsesBlock(text);
  }

  lemma {:induction false} ExtractsOne(s: string, i: nat)
    requires Opens(s, 0) == [i] && i <= |s| && TagEnd(s, i) <= |s|
    ensures var start := TagEnd(s, i);
      if FindClose(s, start).None? then ExtractBlock(s) == BadBlock(Error(LineOf(s, i), Unclosed))
      else ExtractBlock(s).Found? && ExtractBlock(s).firstLine == LineOf(s, start)
  {
    hide Opens, SkipBlanks, LineOf, FindClose;
  }

  lemma {:induction false} ParsesBlock(text: string)
    ensures var block := ExtractBlock(WithoutMark(text));
      match block
      case NoBlock => Parse(text) == (None, [])
      case BadBlock(error) => Parse(text) == (None, [error])
      case Found(body, first) =>
        if Utf8Size(body) > 4096 then Parse(text) == (None, [Error(first, TooManyBytes)])
        else if |Lines(body)| > 40 then Parse(text) == (None, [Error(first, TooManyLines)])
        else Readable(block)
  {
    hide ExtractBlock, Utf8Size, Lines, ParseBody, WithoutMark;
  }

  // ----- a key given twice -----

  predicate Gives(raw: string, key: Key) {
    Classify(raw).Entry? && Classify(raw).key == key
  }

  ghost predicate GivenIn(lines: seq<string>, key: Key) {
    exists i :: 0 <= i < |lines| && Gives(lines[i], key)
  }

  lemma {:induction false} GivenSnoc(lines: seq<string>, key: Key)
    requires lines != []
    ensures GivenIn(lines, key) <==> GivenIn(lines[..|lines| - 1], key) || Gives(lines[|lines| - 1], key)
  {
    hide Gives;
    var front := lines[..|lines| - 1];
    if i :| 0 <= i < |lines| && Gives(lines[i], key) {
      assert i < |front| ==> front[i] == lines[i];
    }
    if i :| 0 <= i < |front| && Gives(front[i], key) {
      assert lines[i] == front[i];
    }
  }

  lemma {:induction false} StepSeen(b: Body, raw: string, line: nat, key: Key)
    ensures key in StepLine(b, raw, line).seen <==> key in b.seen || (Gives(raw, key) && !IsWindow(key))
  {
    hide Classify, ParseValue;
  }

  /** A line counts as having given its key whether or not its value was any good. */
  lemma {:induction false} SeenIffGiven(lines: seq<string>, first: nat, key: Key)
    ensures key in FoldLines(EMPTY, lines, first).seen <==> GivenIn(lines, key) && !IsWindow(key)
  {
    hide FoldLines, StepLine, Gives, GivenIn, IsWindow;
    FoldEnds(EMPTY, lines, first);
    if lines == [] {
      NothingGiven(key);
    } else {
      var k := |lines| - 1;
      SeenIffGiven(lines[..k], first, key);
      StepSeen(FoldLines(EMPTY, lines[..k], first), lines[k], first + k, key);
      GivenSnoc(lines, key);
    }
  }

  lemma {:induction false} NothingGiven(key: Key)
    ensures !GivenIn([], key)
  {}

  lemma {:induction false} ValueIsNoDuplicate(key: Key, val: string, before: Option<Value>)
    ensures ParseValue(key, val, before) != Err(DuplicateKey)
  {
    hide ParseNumber, Strip, AtMost, Normal, Lower, Upper, FindDots;
  }

  lemma {:induction false} LineIsNoDuplicate(raw: string)
    ensures Classify(raw) != Bad(DuplicateKey)
  {
    hide Strip, StripReturns, Find, KeyOf, Lower;
  }

  /** A duplicate is a key, not one of the two repeatable ones, that an earlier line gave. */
  lemma {:induction false} DuplicateIffGivenEarlier(lines: seq<string>, first: nat, k: nat)
    requires k < |lines|
    ensures Offends(lines, first, k, DuplicateKey) <==>
      exists key :: !IsWindow(key) && Gives(lines[k], key) && GivenIn(lines[..k], key)
  {
    var b := FoldLines(EMPTY, lines[..k], first);
    LineIsNoDuplicate(lines[k]);
    var line := Classify(lines[k]);
    if line.Entry? {
      SeenIffGiven(lines[..k], first, line.key);
      ValueIsNoDuplicate(line.key, line.text, At(b.criteria, line.key));
      assert Gives(lines[k], line.key);
    }
    hide FoldLines, Classify, ParseValue, GivenIn, IsWindow;
  }
}
