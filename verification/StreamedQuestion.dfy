/** Spoken equals persisted: the token stream that is cut, line by line and sentence by
    sentence, into speech agrees with the batch parser that produces the stored text. */
module StreamedQuestion {
  import opened Extractor
  import opened QuestionParser
  import opened QuestionText
  import opened Segmenter
  import opened Text
  import opened Wrappers

  const MIN_CHARS := 60
  const MAX_CHARS := 200

  /** Every segment a whole question text gives to the speech worker. */
  function SpokenSegments(text: string): seq<string> {
    SpeakAll(Extracted(text), MIN_CHARS, MAX_CHARS)
  }

  /** The segments already given while the last line is still unfinished. */
  function EarlySegments(text: string): seq<string> {
    FeedAll([], Passed(text), MIN_CHARS, MAX_CHARS).segments
  }

  lemma FeedAllCons(buf: string, chunk: string, rest: seq<string>, min: int, max: int)
    requires Bounded(min, max)
    ensures var step := AfterFeed(buf, chunk, min, max);
            FeedAll(buf, [chunk] + rest, min, max) == AfterSegments(step.segments, FeedAll(step.rest, rest, min, max))
  {
    assert ([chunk] + rest)[1..] == rest;
  }

  lemma SegmentsAssociate(a: seq<string>, b: seq<string>, d: Drained)
    ensures AfterSegments(a, AfterSegments(b, d)) == AfterSegments(a + b, d)
  {
    assert a + (b + d.segments) == (a + b) + d.segments;
  }

  lemma {:induction false} FeedAllAppend(buf: string, a: seq<string>, b: seq<string>, min: int, max: int)
    requires Bounded(min, max)
    ensures var first := FeedAll(buf, a, min, max);
            FeedAll(buf, a + b, min, max) == AfterSegments(first.segments, FeedAll(first.rest, b, min, max))
    decreases |a|
  {
    if a == [] {
      assert a + b == b;
    } else {
      var step, rest := AfterFeed(buf, a[0], min, max), a[1..];
      assert a == [a[0]] + rest && a + b == [a[0]] + (rest + b);
      FeedAllCons(buf, a[0], rest, min, max);
      FeedAllCons(buf, a[0], rest + b, min, max);
      FeedAllAppend(step.rest, rest, b, min, max);
      var first := FeedAll(step.rest, rest, min, max);
      SegmentsAssociate(step.segments, first.segments, FeedAll(first.rest, b, min, max));
    }
  }

  lemma FeedAllNext(all: seq<string>, i: nat, min: int, max: int)
    requires Bounded(min, max) && i < |all|
    ensures var first := FeedAll([], all[..i], min, max);
            FeedAll([], all[..i + 1], min, max)
            == AfterSegments(first.segments, AfterFeed(first.rest, all[i], min, max))
  {
    var first := FeedAll([], all[..i], min, max);
    assert all[..i + 1] == all[..i] + [all[i]];
    FeedAllAppend([], all[..i], [all[i]], min, max);
    FeedAllOne(first.rest, all[i], min, max);
  }

  lemma FeedAllOne(buf: string, chunk: string, min: int, max: int)
    requires Bounded(min, max)
    ensures FeedAll(buf, [chunk], min, max) == AfterFeed(buf, chunk, min, max)
  {
    FeedAllCons(buf, chunk, [], min, max);
    assert [chunk] + [] == [chunk];
  }

  /** The segmenter has taken exactly what the extractor has let through. */
  ghost predicate InStep(segmenter: TextSegmenter, passed: seq<string>, segments: seq<string>)
    reads segmenter
  {
    && segmenter.Valid() && segmenter.minChars == MIN_CHARS && segmenter.maxChars == MAX_CHARS
    && FeedAll([], passed, MIN_CHARS, MAX_CHARS) == Drained(segments, segmenter.buf)
  }

  lemma InStepNext(segmenter: TextSegmenter, before: seq<string>, piece: string, segments: seq<string>, more: seq<string>,
                   was: string)
    requires segmenter.Valid() && segmenter.minChars == MIN_CHARS && segmenter.maxChars == MAX_CHARS
    requires FeedAll([], before, MIN_CHARS, MAX_CHARS) == Drained(segments, was)
    requires Drained(more, segmenter.buf) == AfterFeed(was, piece, MIN_CHARS, MAX_CHARS)
    ensures InStep(segmenter, before + [piece], segments + more)
  {
    var all := before + [piece];
    assert all[..|before|] == before && all[..|before| + 1] == all;
    FeedAllNext(all, |before|, MIN_CHARS, MAX_CHARS);
  }

  method FeedEach(segmenter: TextSegmenter, pieces: seq<string>, ghost passed: seq<string>, segments: seq<string>)
    returns (longer: seq<string>)
    requires InStep(segmenter, passed, segments)
    modifies segmenter
    ensures InStep(segmenter, passed + pieces, longer)
  {
    longer := segments;
    assert passed + pieces[..0] == passed;
    for i := 0 to |pieces|
      invariant InStep(segmenter, passed + pieces[..i], longer)
    {
      ghost var before, was := passed + pieces[..i], segmenter.buf;
      assert before + [pieces[i]] == passed + pieces[..i + 1];
      var more := segmenter.Feed(pieces[i]);
      InStepNext(segmenter, before, pieces[i], longer, more, was);
      longer := longer + more;
    }
    assert pieces[..|pieces|] == pieces;
  }

  /** The question pipeline: feed every token through the extractor and the segmenter as
      it arrives; when the model output has been parsed and stored, flush both. Whatever
      the tokens, the segments are a function of the text alone. */
  method SpeakQuestion(tokens: seq<string>, competency: string)
    returns (segments: seq<string>, question: Result<Question, string>)
    ensures question == Parsed(Concat(tokens), competency)
    ensures segments == if question.Ok? then SpokenSegments(Concat(tokens)) else EarlySegments(Concat(tokens))
  {
    var extractor := new QuestionStreamExtractor();
    var segmenter := new TextSegmenter();
    var text: string := [];
    segments := [];
    for i := 0 to |tokens|
      invariant text == Concat(tokens[..i]) == extractor.seen
      invariant extractor.Valid() && InStep(segmenter, extractor.passed, segments)
      invariant fresh(extractor) && fresh(segmenter)
    {
      assert tokens[..i + 1] == tokens[..i] + [tokens[i]];
      ConcatAppend(tokens[..i], [tokens[i]]);
      assert Concat([tokens[i]]) == tokens[i] + [] == tokens[i];
      text := text + tokens[i];
      ghost var passed := extractor.passed;
      var pieces := extractor.Feed(tokens[i]);
      segments := FeedEach(segmenter, pieces, passed, segments);
    }
    assert tokens[..|tokens|] == tokens;
    question := ParseQuestionOutput(text, competency);
    if question.Ok? {
      ghost var passed := extractor.passed;
      var pieces := extractor.Flush();
      segments := FeedEach(segmenter, pieces, passed, segments);
      var tail := segmenter.Flush();
      if tail != [] {
        segments := segments + [tail];
      }
    }
  }

  // -- agreement with the parser --------------------------------------------------

  lemma JustOne(s: string)
    ensures Concat([s]) == s
  {
    assert [s][1..] == [] && s + [] == s;
  }

  lemma SaidErases(s: string)
    ensures Erase(if Strip(s) == [] then [] else s) == Erase(s)
  {
    StripEmpty(s);
    EraseEmpty(s);
  }

  /** Slicing a line `n` characters in, when `k` characters of white space come first. */
  lemma SlicedLate(space: string, s: string, tail: string, n: nat) returns (kept: string)
    requires AllSpace(space) && AllSpace(tail) && n <= |s|
    ensures var k := |space|;
            kept == s[if k < n then n - k else 0..n]
            && Erase((space + s + tail)[n..]) == Erase(kept) + Erase(s[n..])
  {
    var k := |space|;
    var m := if k < n then n - k else 0;
    kept := s[m..n];
    var before := if k > n then space[n..] else [];
    assert (space + s + tail)[n..] == before + (s[m..] + tail);
    assert s[m..] == kept + s[n..];
    EraseConcat(kept, s[n..]);
    EraseEnds([], s[m..], tail);
    EraseEnds(before, s[m..] + tail, []);
  }

  lemma StripParts(line: string) returns (space: string, tail: string)
    ensures line == space + Strip(line) + tail && AllSpace(space) && AllSpace(tail)
    ensures Strip(line) != [] ==> (space == [] <==> !IsSpace(line[0]))
  {
    var l := LStrip(line);
    LStripFacts(line);
    RStripFacts(l);
    space, tail := line[..|line| - |l|], l[|Strip(line)|..];
    assert line == space + (Strip(line) + tail);
  }

  /** The slice of a header line, seen from its stripped form: an indented header keeps
      as many of the keyword's last characters as it has characters of white space. */
  lemma HeaderSlice(line: string) returns (kept: string)
    requires IsHeader(Strip(line))
    ensures var s := Strip(line);
            |line| >= |s| >= |HEADER| && Erase(line[|HEADER|..]) == kept + Erase(s[|HEADER|..])
    ensures kept == [] <==> !Indented(line)
  {
    var s, n := Strip(line), |HEADER|;
    HeaderIsNotMeta(s);
    var space, tail := StripParts(line);
    kept := SlicedLate(space, s, tail, n);
    KeywordIsSolid(s, if |space| < n then n - |space| else 0);
  }

  /** One side says at least what the other does, and exactly that when `clean`. */
  predicate Agrees(spoken: string, parsed: string, clean: bool) {
    && |spoken| >= |parsed|
    && (|spoken| == |parsed| ==> clean)
    && (clean ==> spoken == parsed)
  }

  lemma AgreesAppend(a: string, b: string, clean: bool, c: string, d: string, clear: bool)
    requires Agrees(a, b, clean) && Agrees(c, d, clear)
    ensures Agrees(a + c, b + d, clean && clear)
  {
  }

  lemma LineErases(line: string)
    requires !MetaLine(line)
    ensures Agrees(Erase(Concat(SpokenLine(line))), Erase(Concat(ParsedLine(line))), !Indented(line))
  {
    var s := Strip(line);
    EraseStrip(line);
    if IsHeader(s) {
      var kept := HeaderSlice(line);
      var rest, parsed := line[|HEADER|..], s[|HEADER|..];
      JustOne(rest);
      JustOne(Strip(parsed));
      SaidErases(rest);
      EraseStrip(parsed);
      assert Erase(Concat(ParsedLine(line))) == Erase(parsed);
    } else {
      JustOne(line);
      JustOne(s);
    }
  }

  predicate AnyIndented(lines: seq<string>) {
    exists i :: 0 <= i < |lines| && Indented(lines[i])
  }

  lemma AnyIndentedAppend(lines: seq<string>, line: string)
    ensures AnyIndented(lines + [line]) <==> AnyIndented(lines) || Indented(line)
  {
    var all := lines + [line];
    if AnyIndented(lines) {
      var i :| 0 <= i < |lines| && Indented(lines[i]);
      assert Indented(all[i]);
    }
    if Indented(line) {
      assert Indented(all[|lines|]);
    }
  }

  lemma LastSpoken(before: seq<string>, line: string)
    ensures SpokenLines(before + [line]) == SpokenLines(before) + SpokenLine(line)
  {
    SpokenLinesAppend(before, [line]);
    assert [line][1..] == [];
  }

  /** Line by line, speech has the parsed text's characters and, for each indented header, more. */
  lemma {:induction false} LinesErase(lines: seq<string>, n: nat)
    requires n <= |lines| && forall i :: 0 <= i < n ==> !MetaLine(lines[i])
    ensures Agrees(Erase(Concat(SpokenLines(lines[..n]))), Erase(Concat(ParsedLines(lines, n))), !AnyIndented(lines[..n]))
  {
    if n > 0 {
      var before, parsed, line := lines[..n - 1], ParsedLines(lines, n - 1), lines[n - 1];
      assert lines[..n] == before + [line];
      LinesErase(lines, n - 1);
      LineErases(line);
      LastSpoken(before, line);
      AnyIndentedAppend(before, line);
      ErasedParts(SpokenLines(before), SpokenLine(line));
      ErasedParts(parsed, ParsedLine(line));
      AgreesAppend(Erase(Concat(SpokenLines(before))), Erase(Concat(parsed)), !AnyIndented(before),
                   Erase(Concat(SpokenLine(line))), Erase(Concat(ParsedLine(line))), !Indented(line));
    }
  }

  lemma ErasedParts(a: seq<string>, b: seq<string>)
    ensures Erase(Concat(a + b)) == Erase(Concat(a)) + Erase(Concat(b))
  {
    ConcatAppend(a, b);
    EraseConcat(Concat(a), Concat(b));
  }

  /** The question's lines: what comes before the first metadata line. */
  function QuestionPart(text: string): seq<string> {
    Front(Lines(text))
  }

  /** What the parser makes of those lines. */
  function ParsedPart(text: string): seq<string> {
    ParsedLines(Lines(text), FrontCount(Lines(text)))
  }

  lemma SpokenErases(text: string)
    ensures Erase(Concat(SpokenSegments(text))) == Erase(Concat(SpokenLines(QuestionPart(text))))
  {
    SpokenIsTheText(Extracted(text), MIN_CHARS, MAX_CHARS);
    CoversErase(Concat(Extracted(text)), SpokenSegments(text));
  }

  lemma {:induction false} FrontOfSame(a: seq<string>, b: seq<string>)
    requires SameStripped(a, b)
    ensures |Front(a)| == |Front(b)|
  {
    if a != [] && !MetaLine(a[0]) {
      FrontOfSame(a[1..], b[1..]);
    }
  }

  lemma {:induction false} ParsedOfSame(a: seq<string>, b: seq<string>, n: nat)
    requires SameStripped(a, b) && n <= |a|
    ensures ParsedLines(a, n) == ParsedLines(b, n)
  {
    if n > 0 {
      ParsedOfSame(a, b, n - 1);
    }
  }

  lemma ParsedErases(text: string, competency: string)
    requires PlainEndings(text)
    ensures var written := Erase(Concat(ParsedPart(text)));
            && (Parsed(text, competency).Ok? <==> written != [])
            && (Parsed(text, competency).Ok? ==> Erase(Parsed(text, competency).value.text) == written)
  {
    SameLines(text);
    FrontFacts(Lines(text));
    FrontOfSame(SplitLines(text), Lines(text));
    ParsedOfSame(SplitLines(text), Lines(text), FrontCount(Lines(text)));
    var parts := ParsedPart(text);
    EraseJoin(parts);
    EraseStrip(Join(parts, " "));
    StripEmpty(Join(parts, " "));
    EraseEmpty(Join(parts, " "));
  }

  /** Spoken equals persisted, up to white space, exactly when no header before the
      metadata is indented - for every text whose lines end with a newline, alone or after a
      carriage return, however it arrives. */
  lemma SpokenIsPersisted(text: string, competency: string)
    requires PlainEndings(text) && Parsed(text, competency).Ok?
    ensures Erase(Concat(SpokenSegments(text))) == Erase(Parsed(text, competency).value.text)
            <==> !AnyIndented(QuestionPart(text))
  {
    QuestionPartErases(text);
    ParsedErases(text, competency);
  }

  lemma QuestionPartErases(text: string)
    ensures var spoken, parsed := Erase(Concat(SpokenSegments(text))), Erase(Concat(ParsedPart(text)));
            Agrees(spoken, parsed, !AnyIndented(QuestionPart(text)))
  {
    SpokenErases(text);
    FrontFacts(Lines(text));
    LinesErase(Lines(text), FrontCount(Lines(text)));
  }

  /** Nothing is spoken exactly when the parser rejects, unless a header is indented. */
  lemma SilentIsRejected(text: string, competency: string)
    requires PlainEndings(text) && !AnyIndented(QuestionPart(text))
    ensures SpokenSegments(text) == [] <==> Parsed(text, competency).Err?
    ensures Parsed(text, competency).Err? ==> EarlySegments(text) == []
  {
    QuestionPartErases(text);
    ParsedErases(text, competency);
    SegmentsAreSpeech(text);
    EarlyIsPrefix(text);
  }

  /** No segment is empty or blank. */
  lemma SegmentsAreSpeech(text: string)
    ensures SpokenSegments(text) == [] <==> Erase(Concat(SpokenSegments(text))) == []
  {
    var segments := SpokenSegments(text);
    SpokenIsTheText(Extracted(text), MIN_CHARS, MAX_CHARS);
    if segments != [] {
      var t := LStrip(Concat(Extracted(text)));
      LStripFacts(Concat(Extracted(text)));
      assert segments[0][0] == t[0];
      assert Erase(segments[0]) != [];
      EraseConcat(segments[0], Concat(segments[1..]));
    }
  }

  lemma EarlyIsPrefix(text: string)
    ensures EarlySegments(text) <= SpokenSegments(text)
  {
    var here, tail := Complete(text), if Partial(text) == [] then [] else [Partial(text)];
    FrontAppend(here, tail);
    SpokenLinesAppend(here, Front(tail));
    var rest := if HasMeta(here) then [] else SpokenLines(Front(tail));
    assert Extracted(text) == Passed(text) + rest;
    FeedAllAppend([], Passed(text), rest, MIN_CHARS, MAX_CHARS);
  }

  /** Metadata never reaches speech: nothing after the first metadata line has any effect. */
  lemma MetadataIsSilent(text: string, later: string)
    requires Ended(text)
    ensures SpokenSegments(text + later) == SpokenSegments(text)
  {
    MetadataEndsSpeech(text, later);
  }

  predicate OneLine(s: string) {
    forall i :: 0 <= i < |s| ==> !IsBreak(s[i])
  }

  lemma NoNewline(s: string)
    requires s != [] && forall i :: 0 <= i < |s| ==> s[i] != '\n'
    ensures Lines(s) == [s]
  {
    FindSkips(s, "\n", 0, |s|);
    SplitWhole(s, "\n");
  }

  lemma ExtractorLine(a: string, b: string)
    requires OneLine(a) && OneLine(b)
    requires var line := a + "\r" + b; !MetaLine(line) && !IsHeader(Strip(line))
    ensures var line := a + "\r" + b; QuestionPart(line) == [line] && SpokenLines([line]) == [line]
  {
    var line := a + "\r" + b;
    NoNewline(line);
    FrontAppend([line], []);
    assert [line][1..] == [] && [line] + [] == [line];
    assert !HasMeta([line]) && Front([line]) == [line];
  }

  lemma ParserLines(a: string, b: string)
    requires OneLine(a) && OneLine(b) && b != []
    ensures SplitLines(a + "\r" + b) == [a, b]
  {
    var text := a + "\r" + b;
    var j := FindBreak(text);
    assert text[|a|] == '\r';
    assert text[..j] == a && text[j + 1..] == b;
    assert FindBreak(b) == |b|;
    assert text[j + 1] == b[0];
  }

  lemma FrontOfTwo(a: string, b: string)
    requires !MetaLine(a) && MetaLine(b)
    ensures Front([a, b]) == [a]
  {
    assert [a, b][1..] == [b];
  }

  /** A bare carriage return ends a line for the parser but not for the extractor, so a
      metadata line behind one is spoken in full and never stored as question text. */
  lemma CarriageReturnSpeaksMetadata(a: string, b: string, competency: string)
    requires OneLine(a) && OneLine(b) && !MetaLine(a) && !IsHeader(Strip(a)) && !AllSpace(a) && MetaLine(b)
    requires var line := a + "\r" + b; !MetaLine(line) && !IsHeader(Strip(line))
    ensures var text := a + "\r" + b;
            && Erase(Concat(SpokenSegments(text))) == Erase(a) + Erase(b)
            && Parsed(text, competency).Ok? && Erase(Parsed(text, competency).value.text) == Erase(a)
            && Erase(b) != []
  {
    var text := a + "\r" + b;
    if AllSpace(b) {
      StripEmpty(b);
      BlankLine(b);
      assert false;
    }
    EraseEmpty(b);
    SpokenWhole(text, a, b);
    ParsedWhole(text, a, b, competency);
  }

  lemma SpokenWhole(text: string, a: string, b: string)
    requires text == a + "\r" + b && OneLine(a) && OneLine(b) && !MetaLine(text) && !IsHeader(Strip(text))
    ensures Erase(Concat(SpokenSegments(text))) == Erase(a) + Erase(b)
  {
    ExtractorLine(a, b);
    SpokenErases(text);
    JustOne(text);
    EraseConcat(a + "\r", b);
    EraseEnds([], a, "\r");
  }

  lemma ParsedWhole(text: string, a: string, b: string, competency: string)
    requires text == a + "\r" + b && OneLine(a) && OneLine(b) && b != []
    requires !MetaLine(a) && MetaLine(b) && !IsHeader(Strip(a)) && !AllSpace(a)
    ensures Parsed(text, competency).Ok? && Erase(Parsed(text, competency).value.text) == Erase(a)
  {
    ParserLines(a, b);
    FrontOfTwo(a, b);
    StripEmpty(a);
    assert ParsedLines([a, b], 0) == [] && ParsedLines([a, b], 1) == [Strip(a)];
    EraseStrip(a);
    EraseStrip(Strip(a));
    StripEmpty(Strip(a));
    EraseEmpty(a);
    EraseEmpty(Strip(a));
  }
}
