/** The line format of a streamed question, shared by the stream extractor and the
    batch parser: a `QUESTION:` header, then metadata keys. */
module QuestionText {
  import opened Text

  const META_PREFIXES :=
    ["TYPE:", "DIFFICULTY:", "RATIONALE:", "RATIONAL:", "TARGET:", "HINTS:", "CATEGORY:", "SOURCE:", "SOURCE_REF:"]
  const HEADER := "QUESTION:"

  /** `str.upper` on ASCII; other characters are left alone. */
  function UpperChar(c: char): char {
    if 'a' <= c <= 'z' then (c as int - 32) as char else c
  }

  function Upper(s: string): string {
    if s == [] then [] else [UpperChar(s[0])] + Upper(s[1..])
  }

  lemma {:induction false} UpperFacts(s: string)
    ensures |Upper(s)| == |s|
    ensures forall i :: 0 <= i < |s| ==> Upper(s)[i] == UpperChar(s[i])
  {
    if s != [] {
      UpperFacts(s[1..]);
    }
  }

  predicate IsMeta(stripped: string) {
    exists i :: 0 <= i < |META_PREFIXES| && META_PREFIXES[i] <= Upper(stripped)
  }

  predicate IsHeader(stripped: string) {
    HEADER <= Upper(stripped)
  }

  predicate MetaLine(line: string) {
    IsMeta(Strip(line))
  }

  /** A header line with white space in front of the keyword. */
  predicate Indented(line: string) {
    line != [] && IsSpace(line[0]) && IsHeader(Strip(line))
  }

  lemma HeaderIsNotMeta(stripped: string)
    requires IsHeader(stripped)
    ensures !IsMeta(stripped) && |stripped| >= |HEADER|
  {
    UpperFacts(stripped);
    forall i | 0 <= i < |META_PREFIXES|
      ensures !(META_PREFIXES[i] <= Upper(stripped))
    {
      assert Upper(stripped)[0] == HEADER[0];
      assert META_PREFIXES[i][0] != HEADER[0];
    }
  }

  /** The keyword of a header holds no white space. */
  lemma {:induction false} KeywordIsSolid(stripped: string, n: nat)
    requires IsHeader(stripped) && n <= |HEADER| <= |stripped|
    ensures Erase(stripped[n..|HEADER|]) == stripped[n..|HEADER|]
    decreases |HEADER| - n
  {
    if n < |HEADER| {
      KeywordIsSolid(stripped, n + 1);
      UpperFacts(stripped);
      assert Upper(stripped)[n] == HEADER[n];
      assert !IsSpace(stripped[n]);
      assert stripped[n..|HEADER|][1..] == stripped[n + 1..|HEADER|];
    }
  }

  // -- lines ----------------------------------------------------------------------

  /** The lines ended by a newline, and the unfinished last one if it is not empty. */
  function Complete(text: string): seq<string> {
    var parts := Split(text, "\n");
    parts[..|parts| - 1]
  }

  function Partial(text: string): string {
    var parts := Split(text, "\n");
    parts[|parts| - 1]
  }

  function Lines(text: string): seq<string> {
    Complete(text) + if Partial(text) == [] then [] else [Partial(text)]
  }

  lemma LinesResume(a: string, b: string)
    ensures Complete(a + b) == Complete(a) + Complete(Partial(a) + b)
    ensures Partial(a + b) == Partial(Partial(a) + b)
  {
    SplitResumes(a, b, "\n");
    var head, tail := Complete(a), Split(Partial(a) + b, "\n");
    assert (head + tail)[..|head + tail| - 1] == head + tail[..|tail| - 1];
  }

  /** The lines up to, and without, the first metadata line. */
  function Front(lines: seq<string>): seq<string> {
    if lines == [] || MetaLine(lines[0]) then [] else [lines[0]] + Front(lines[1..])
  }

  lemma {:induction false} FrontFacts(lines: seq<string>)
    ensures |Front(lines)| <= |lines| && Front(lines) == lines[..|Front(lines)|]
    ensures forall j :: 0 <= j < |Front(lines)| ==> !MetaLine(lines[j])
    ensures |Front(lines)| < |lines| ==> MetaLine(lines[|Front(lines)|])
  {
    if lines != [] && !MetaLine(lines[0]) {
      FrontFacts(lines[1..]);
      assert lines == [lines[0]] + lines[1..];
    }
  }

  predicate HasMeta(lines: seq<string>) {
    lines != [] && (MetaLine(lines[0]) || HasMeta(lines[1..]))
  }

  lemma FrontCons(line: string, rest: seq<string>)
    ensures HasMeta([line] + rest) <==> MetaLine(line) || HasMeta(rest)
    ensures Front([line] + rest) == if MetaLine(line) then [] else [line] + Front(rest)
  {
    assert ([line] + rest)[1..] == rest;
  }

  lemma {:induction false} HasMetaAppend(a: seq<string>, b: seq<string>)
    ensures HasMeta(a + b) <==> HasMeta(a) || HasMeta(b)
  {
    if a == [] {
      assert a + b == b;
    } else {
      HasMetaAppend(a[1..], b);
      assert a + b == [a[0]] + (a[1..] + b);
      FrontCons(a[0], a[1..] + b);
    }
  }

  lemma {:induction false} FrontOfAll(a: seq<string>)
    requires !HasMeta(a)
    ensures Front(a) == a
  {
    if a != [] {
      FrontOfAll(a[1..]);
      assert a == [a[0]] + a[1..];
    }
  }

  lemma {:induction false} FrontPast(a: seq<string>, b: seq<string>)
    ensures Front(a + b) == if HasMeta(a) then Front(a) else a + Front(b)
  {
    if a == [] {
      assert a + b == b;
    } else {
      var rest := a[1..];
      FrontPast(rest, b);
      assert a + b == [a[0]] + (rest + b);
      FrontCons(a[0], rest + b);
      assert !HasMeta(a) ==> [a[0]] + (rest + Front(b)) == a + Front(b);
    }
  }

  lemma FrontAppend(a: seq<string>, b: seq<string>)
    ensures HasMeta(a + b) <==> HasMeta(a) || HasMeta(b)
    ensures Front(a + b) == if HasMeta(a) then Front(a) else a + Front(b)
    ensures !HasMeta(a) ==> Front(a) == a
  {
    HasMetaAppend(a, b);
    FrontPast(a, b);
    if !HasMeta(a) {
      FrontOfAll(a);
    }
  }
}
