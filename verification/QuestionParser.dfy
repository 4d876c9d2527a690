/** The batch parser: it turns the whole model output into the persisted question. */
module QuestionParser {
  import opened QuestionText
  import opened Text
  import opened Wrappers

  datatype Question = Question(text: string, kind: string, difficulty: string, hints: seq<string>,
                               rationale: Option<string>, target: string, category: Option<string>,
                               source: Option<string>, sourceRef: Option<string>)

  // -- str.splitlines -------------------------------------------------------------

  predicate IsBreak(c: char) {
    var n := c as int;
    10 <= n <= 13 || 28 <= n <= 30 || n == 0x85 || n == 0x2028 || n == 0x2029
  }

  function FindBreak(s: string): (i: nat)
    ensures i <= |s| && (i < |s| ==> IsBreak(s[i]))
    ensures forall j :: 0 <= j < i ==> !IsBreak(s[j])
  {
    if s == [] || IsBreak(s[0]) then 0 else 1 + FindBreak(s[1..])
  }

  function SplitLines(s: string): seq<string>
    decreases |s|
  {
    var i := FindBreak(s);
    if s == [] then []
    else if i == |s| then [s]
    else if i + 1 < |s| && s[i] == '\r' && s[i + 1] == '\n' then [s[..i]] + SplitLines(s[i + 2..])
    else [s[..i]] + SplitLines(s[i + 1..])
  }

  /** Every line ends with a newline, or with a carriage return and a newline. */
  predicate PlainEndings(s: string) {
    forall i {:trigger EndsLine(s, i)} :: 0 <= i < |s| && IsBreak(s[i]) ==> EndsLine(s, i)
  }

  predicate EndsLine(s: string, i: nat)
    requires i < |s|
  {
    s[i] == '\n' || (s[i] == '\r' && i + 1 < |s| && s[i + 1] == '\n')
  }

  lemma EndingsOfRest(s: string, n: nat)
    requires PlainEndings(s) && n <= |s|
    ensures PlainEndings(s[n..])
  {
    forall i | 0 <= i < |s[n..]| && IsBreak(s[n..][i])
      ensures EndsLine(s[n..], i)
    {
      assert EndsLine(s, n + i);
    }
  }

  /** The first newline is the first break, or follows it. */
  lemma FirstNewline(s: string)
    requires PlainEndings(s)
    ensures var i := FindBreak(s);
            Find(s, "\n", 0) == if i < |s| && s[i] == '\r' then i + 1 else i
  {
    var i, j := FindBreak(s), Find(s, "\n", 0);
    FindFacts(s, "\n", 0);
    if i < |s| {
      assert EndsLine(s, i);
      var k := if s[i] == '\r' then i + 1 else i;
      assert s[k..k + 1] == "\n";
      assert OccursAt(s, "\n", k);
    }
    if j < |s| {
      assert s[j..j + 1][0] == '\n';
    }
  }

  lemma FirstLine(line: string, tail: seq<string>)
    requires tail != []
    ensures var parts := [line] + tail;
            parts[..|parts| - 1] == [line] + tail[..|tail| - 1] && parts[|parts| - 1] == tail[|tail| - 1]
  {
  }

  lemma PartsFound(s: string, i: nat)
    requires i == Find(s, "\n", 0) < |s|
    ensures Complete(s) == [s[..i]] + Complete(s[i + 1..]) && Partial(s) == Partial(s[i + 1..])
  {
    SplitAtFirst(s, "\n", i);
    FirstLine(s[..i], Split(s[i + 1..], "\n"));
  }

  lemma LinesFound(s: string, i: nat)
    requires i == Find(s, "\n", 0) < |s|
    ensures Lines(s) == [s[..i]] + Lines(s[i + 1..])
  {
    PartsFound(s, i);
    Associate([s[..i]], Complete(s[i + 1..]), if Partial(s) == [] then [] else [Partial(s)]);
  }

  lemma Associate(a: seq<string>, b: seq<string>, c: seq<string>)
    ensures (a + b) + c == a + (b + c)
  {
  }

  lemma BreaksFound(s: string, i: nat)
    requires i == FindBreak(s) < |s| && EndsLine(s, i)
    ensures SplitLines(s) == [s[..i]] + SplitLines(s[if s[i] == '\r' then i + 2 else i + 1..])
  {
  }

  /** Lines that differ at most in the white space around them. */
  predicate SameStripped(a: seq<string>, b: seq<string>) {
    |a| == |b| && forall i :: 0 <= i < |a| ==> Strip(a[i]) == Strip(b[i])
  }

  lemma StripReturn(line: string)
    ensures Strip(line + "\r") == Strip(line)
  {
    LStripConcat(line, "\r");
    var l := LStrip(line);
    assert (l + "\r")[..|l|] == l;
    LStripFacts(line);
  }

  lemma StrippedCons(a: string, b: string, more: seq<string>, same: seq<string>)
    requires Strip(a) == Strip(b) && SameStripped(more, same)
    ensures SameStripped([a] + more, [b] + same)
  {
  }

  /** With such line endings the parser sees the same lines as the extractor, but for a
      carriage return that both strip. */
  lemma {:induction false} SameLines(s: string)
    requires PlainEndings(s)
    ensures SameStripped(SplitLines(s), Lines(s))
    decreases |s|
  {
    var i := FindBreak(s);
    FirstNewline(s);
    if i == |s| {
      SplitWhole(s, "\n");
    } else {
      assert EndsLine(s, i);
      var k := if s[i] == '\r' then i + 1 else i;
      var rest := s[k + 1..];
      EndingsOfRest(s, k + 1);
      SameLines(rest);
      LinesFound(s, k);
      BreaksFound(s, i);
      if s[i] == '\r' {
        StripReturn(s[..i]);
        assert s[..k] == s[..i] + "\r";
      }
      StrippedCons(s[..i], s[..k], SplitLines(rest), Lines(rest));
    }
  }

  // -- the question text ----------------------------------------------------------

  /** What one line before the metadata adds to the persisted text. */
  function ParsedLine(line: string): seq<string> {
    var ln := Strip(line);
    if ln == [] then []
    else if IsHeader(ln) then
      var rest := if |ln| < |HEADER| then [] else Strip(ln[|HEADER|..]);
      if rest == [] then [] else [rest]
    else [ln]
  }

  /** What the first `n` lines add. */
  function ParsedLines(lines: seq<string>, n: nat): seq<string>
    requires n <= |lines|
  {
    if n == 0 then [] else ParsedLines(lines, n - 1) + ParsedLine(lines[n - 1])
  }

  // -- the metadata ---------------------------------------------------------------

  predicate StartsHints(line: string) {
    "HINTS:" <= Upper(Strip(line))
  }

  /** `partition(":")` of a stripped line: key and value, both stripped. */
  function KeyOf(ln: string): string {
    Upper(Strip(ln[..Find(ln, ":", 0)]))
  }

  function ValueOf(ln: string): string {
    var i := Find(ln, ":", 0);
    if i == |ln| then [] else Strip(ln[i + 1..])
  }

  function AddKey(kv: map<string, string>, ln: string): map<string, string> {
    if KeyOf(ln) + ":" in META_PREFIXES && ValueOf(ln) != [] then kv[KeyOf(ln) := ValueOf(ln)] else kv
  }

  function AddHint(hints: seq<string>, ln: string): seq<string> {
    if "-" <= ln && |ln| > 1 then hints + [Strip(ln[1..])] else hints
  }

  /** The pairs of the lines from `lo` to `hi`: a later line wins over an earlier one. */
  function KeyValues(lines: seq<string>, lo: nat, hi: nat): map<string, string>
    requires lo <= hi <= |lines|
  {
    if lo == hi then map[] else AddKey(KeyValues(lines, lo, hi - 1), Strip(lines[hi - 1]))
  }

  function HintLines(lines: seq<string>, lo: nat, hi: nat): seq<string>
    requires lo <= hi <= |lines|
  {
    if lo == hi then [] else AddHint(HintLines(lines, lo, hi - 1), Strip(lines[hi - 1]))
  }

  /** How many lines come before the first `HINTS:` line. */
  function KeyCount(lines: seq<string>): (n: nat)
    ensures n <= |lines|
  {
    if lines == [] || StartsHints(lines[0]) then 0 else 1 + KeyCount(lines[1..])
  }

  lemma {:induction false} KeyCountFacts(lines: seq<string>)
    ensures forall j :: 0 <= j < KeyCount(lines) ==> !StartsHints(lines[j])
    ensures KeyCount(lines) < |lines| ==> StartsHints(lines[KeyCount(lines)])
  {
    if lines != [] && !StartsHints(lines[0]) {
      KeyCountFacts(lines[1..]);
      assert forall j :: 1 <= j < |lines| ==> lines[j] == lines[1..][j - 1];
    }
  }

  function Lookup(kv: map<string, string>, key: string): Option<string> {
    if key in kv then Some(kv[key]) else None
  }

  function OrElse(o: Option<string>, default: string): string {
    if o.Some? then o.value else default
  }

  function Build(text: string, kv: map<string, string>, hints: seq<string>, competency: string): Question {
    Question(text, OrElse(Lookup(kv, "TYPE"), "general"), OrElse(Lookup(kv, "DIFFICULTY"), "medium"), hints,
             if "RATIONALE" in kv then Some(kv["RATIONALE"]) else Lookup(kv, "RATIONAL"),
             OrElse(Lookup(kv, "TARGET"), competency),
             Lookup(kv, "CATEGORY"), Lookup(kv, "SOURCE"), Lookup(kv, "SOURCE_REF"))
  }

  datatype Sections = Sections(questionLines: seq<string>, kv: map<string, string>, hints: seq<string>)

  /** The three sections of a model output: question, keys, hints. */
  function SectionsAt(lines: seq<string>, front: nat, keys: nat): Sections
    requires front <= keys <= |lines|
  {
    Sections(ParsedLines(lines, front), KeyValues(lines, front, keys),
             if keys < |lines| then HintLines(lines, keys + 1, |lines|) else [])
  }

  function FrontCount(lines: seq<string>): (n: nat)
    ensures n <= |lines|
  {
    FrontFacts(lines);
    |Front(lines)|
  }

  function SectionsOf(lines: seq<string>): Sections {
    var front := FrontCount(lines);
    SectionsAt(lines, front, front + KeyCount(lines[front..]))
  }

  /** The end of the parser: join the question lines, and refuse an empty question. */
  function Finish(found: Sections, competency: string): Result<Question, string> {
    var question := Strip(Join(found.questionLines, " "));
    if question == [] then Err("question generation returned no question text")
    else Ok(Build(question, found.kv, found.hints, competency))
  }

  function Parsed(text: string, competency: string): Result<Question, string> {
    Finish(SectionsOf(SplitLines(text)), competency)
  }

  datatype Mode = InQuestion | InKeys | InHints

  datatype Progress = Progress(mode: Mode, questionLines: seq<string>, kv: map<string, string>, hints: seq<string>)

  function OnKeyLine(p: Progress, line: string): Progress {
    var ln := Strip(line);
    if ln == [] then p
    else if StartsHints(line) then p.(mode := InHints)
    else p.(mode := InKeys, kv := AddKey(p.kv, ln))
  }

  function OnQuestionLine(p: Progress, line: string): Progress {
    if Strip(line) == [] then p
    else if !MetaLine(line) then p.(questionLines := p.questionLines + ParsedLine(line))
    else OnKeyLine(p, line)
  }

  function OnHintLine(p: Progress, line: string): Progress {
    var ln := Strip(line);
    if ln == [] then p else p.(hints := AddHint(p.hints, ln))
  }

  /** One turn of the loop. */
  function OnLine(p: Progress, line: string): Progress {
    match p.mode
    case InQuestion => OnQuestionLine(p, line)
    case InKeys => OnKeyLine(p, line)
    case InHints => OnHintLine(p, line)
  }

  /** The first `i` lines have been sorted into their sections; `front` and `keys` are
      where the question and the key section end. */
  ghost predicate Sorted(lines: seq<string>, i: nat, front: nat, keys: nat, p: Progress)
    requires front <= keys <= |lines| && i <= |lines|
  {
    match p.mode
    case InQuestion => i <= front && p == Progress(InQuestion, ParsedLines(lines, i), map[], [])
    case InKeys => front < i <= keys && p == Progress(InKeys, ParsedLines(lines, front), KeyValues(lines, front, i), [])
    case InHints =>
      keys < i && p == Progress(InHints, ParsedLines(lines, front), KeyValues(lines, front, keys),
                                HintLines(lines, keys + 1, i))
  }

  /** `front` is the first metadata line and `keys` the first `HINTS:` line from there. */
  predicate EndsAt(lines: seq<string>, front: nat, keys: nat) {
    && front <= keys <= |lines|
    && (forall j {:trigger MetaLine(lines[j])} :: 0 <= j < front ==> !MetaLine(lines[j]))
    && (front < |lines| ==> MetaLine(lines[front]))
    && (forall j {:trigger StartsHints(lines[j])} :: front <= j < keys ==> !StartsHints(lines[j]))
    && (keys < |lines| ==> StartsHints(lines[keys]))
  }

  lemma BlankLine(line: string)
    requires Strip(line) == []
    ensures !MetaLine(line) && !StartsHints(line) && ParsedLine(line) == []
  {
    assert Upper(Strip(line)) == [];
    assert forall i :: 0 <= i < |META_PREFIXES| ==> |META_PREFIXES[i]| > 0;
  }

  lemma BlankAdds(line: string, kv: map<string, string>, hints: seq<string>)
    requires Strip(line) == []
    ensures AddKey(kv, Strip(line)) == kv && AddHint(hints, Strip(line)) == hints
  {
    assert ValueOf(Strip(line)) == [];
  }

  lemma QuestionLineSorted(lines: seq<string>, i: nat, front: nat, keys: nat, p: Progress)
    requires EndsAt(lines, front, keys) && i < |lines| && p.mode.InQuestion? && Sorted(lines, i, front, keys, p)
    ensures Sorted(lines, i + 1, front, keys, OnQuestionLine(p, lines[i]))
  {
    var line := lines[i];
    if Strip(line) == [] {
      BlankLine(line);
    } else if MetaLine(line) {
      assert i == front && KeyValues(lines, front, front) == map[];
    }
  }

  lemma KeyLineSorted(lines: seq<string>, i: nat, front: nat, keys: nat, p: Progress)
    requires EndsAt(lines, front, keys) && i < |lines| && p.mode.InKeys? && Sorted(lines, i, front, keys, p)
    ensures Sorted(lines, i + 1, front, keys, OnKeyLine(p, lines[i]))
  {
    if Strip(lines[i]) == [] {
      BlankLine(lines[i]);
      BlankAdds(lines[i], p.kv, p.hints);
    }
  }

  lemma HintLineSorted(lines: seq<string>, i: nat, front: nat, keys: nat, p: Progress)
    requires EndsAt(lines, front, keys) && i < |lines| && p.mode.InHints? && Sorted(lines, i, front, keys, p)
    ensures Sorted(lines, i + 1, front, keys, OnHintLine(p, lines[i]))
  {
    if Strip(lines[i]) == [] {
      BlankAdds(lines[i], p.kv, p.hints);
    }
  }

  lemma LineSorted(lines: seq<string>, i: nat, front: nat, keys: nat, p: Progress)
    requires EndsAt(lines, front, keys) && i < |lines| && Sorted(lines, i, front, keys, p)
    ensures Sorted(lines, i + 1, front, keys, OnLine(p, lines[i]))
  {
    match p.mode
    case InQuestion => QuestionLineSorted(lines, i, front, keys, p);
    case InKeys => KeyLineSorted(lines, i, front, keys, p);
    case InHints => HintLineSorted(lines, i, front, keys, p);
  }

  lemma NextSorted(lines: seq<string>, i: nat, front: nat, keys: nat, p: Progress) returns (next: Progress)
    requires EndsAt(lines, front, keys) && i < |lines| && Sorted(lines, i, front, keys, p)
    ensures next == OnLine(p, lines[i]) && Sorted(lines, i + 1, front, keys, next)
  {
    next := OnLine(p, lines[i]);
    LineSorted(lines, i, front, keys, p);
  }

  lemma TheSections(lines: seq<string>) returns (front: nat, keys: nat)
    ensures front == FrontCount(lines) && keys == front + KeyCount(lines[front..])
    ensures EndsAt(lines, front, keys)
  {
    FrontFacts(lines);
    front := |Front(lines)|;
    keys := front + KeyCount(lines[front..]);
    KeyCountFacts(lines[front..]);
    assert forall j :: front <= j < |lines| ==> lines[j] == lines[front..][j - front];
  }

  lemma AllSorted(lines: seq<string>, front: nat, keys: nat, p: Progress)
    requires front <= keys <= |lines| && Sorted(lines, |lines|, front, keys, p)
    ensures Sections(p.questionLines, p.kv, p.hints) == SectionsAt(lines, front, keys)
  {
  }

  lemma SectionsOfIs(lines: seq<string>, front: nat, keys: nat)
    requires front == FrontCount(lines) && keys == front + KeyCount(lines[front..])
    ensures SectionsOf(lines) == SectionsAt(lines, front, keys)
  {
  }

  /** The body of the loop. */
  method TakeLine(line: string, mode: Mode, questionLines: seq<string>, kv: map<string, string>, hints: seq<string>)
    returns (mode': Mode, questionLines': seq<string>, kv': map<string, string>, hints': seq<string>)
    ensures Progress(mode', questionLines', kv', hints') == OnLine(Progress(mode, questionLines, kv, hints), line)
  {
    mode', questionLines', kv', hints' := mode, questionLines, kv, hints;
    var ln := Strip(line);
    if ln == [] {
      return;
    }
    if mode.InQuestion? {
      if IsHeader(ln) {
        HeaderIsNotMeta(ln);
        var rest := if |ln| < |HEADER| then [] else Strip(ln[|HEADER|..]);
        if rest != [] {
          questionLines' := questionLines + [rest];
        }
        return;
      }
      if !IsMeta(ln) {
        questionLines' := questionLines + [ln];
        return;
      }
      mode' := InKeys;
    }
    if mode'.InKeys? {
      if StartsHints(line) {
        mode' := InHints;
        return;
      }
      if KeyOf(ln) + ":" in META_PREFIXES && ValueOf(ln) != [] {
        kv' := kv[KeyOf(ln) := ValueOf(ln)];
      }
      return;
    }
    if "-" <= ln && |ln| > 1 {
      hints' := hints + [Strip(ln[1..])];
    }
  }

  method ParseQuestionOutput(text: string, competency: string := "general") returns (r: Result<Question, string>)
    ensures r == Parsed(text, competency)
  {
    var lines := SplitLines(text);
    var questionLines: seq<string>, kv: map<string, string>, hints: seq<string> := [], map[], [];
    var mode := InQuestion;
    ghost var front, keys := TheSections(lines);
    for i := 0 to |lines|
      invariant Sorted(lines, i, front, keys, Progress(mode, questionLines, kv, hints))
    {
      ghost var p := NextSorted(lines, i, front, keys, Progress(mode, questionLines, kv, hints));
      mode, questionLines, kv, hints := TakeLine(lines[i], mode, questionLines, kv, hints);
    }
    AllSorted(lines, front, keys, Progress(mode, questionLines, kv, hints));
    SectionsOfIs(lines, front, keys);
    var question := Strip(Join(questionLines, " "));
    if question == [] {
      return Err("question generation returned no question text");
    }
    return Ok(Build(question, kv, hints, competency));
  }
}
