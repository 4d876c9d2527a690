/** The output format that the question prompt asks for, printed and parsed back: a
    `QUESTION:` line, `KEY: value` lines, and a `HINTS:` section. */
module QuestionFormat {
  import opened QuestionParser
  import opened QuestionText
  import opened Text
  import opened Wrappers

  /** A metadata line to print. The key may be written in either case, and the value may
      be left out. */
  datatype Pair = Pair(key: string, value: string)

  /** A line of the hint section: a hint, or a line without the dash. */
  datatype Item = Item(text: string, dash: bool)

  predicate Known(key: string) {
    || key == "TYPE" || key == "DIFFICULTY" || key == "RATIONALE" || key == "RATIONAL"
    || key == "TARGET" || key == "CATEGORY" || key == "SOURCE" || key == "SOURCE_REF"
  }

  /** A text that is neither blank nor broken over lines, with no white space around it. */
  predicate OneLine(s: string) {
    s != [] && !IsSpace(s[0]) && !IsSpace(s[|s| - 1]) && forall i :: 0 <= i < |s| ==> !IsBreak(s[i])
  }

  predicate Printable(pair: Pair) {
    Known(Upper(pair.key)) && (pair.value == [] || OneLine(pair.value))
  }

  function PairLine(pair: Pair): string {
    pair.key + ":" + if pair.value == [] then [] else " " + pair.value
  }

  function PairLines(pairs: seq<Pair>): seq<string> {
    if pairs == [] then [] else [PairLine(pairs[0])] + PairLines(pairs[1..])
  }

  /** A further line of the question: not a header, and none of the metadata. */
  predicate Continues(line: string) {
    OneLine(line) && !MetaLine(line) && !IsHeader(line)
  }

  predicate Listable(item: Item) {
    OneLine(item.text) && (item.dash || item.text[0] != '-')
  }

  function ItemLine(item: Item): string {
    if item.dash then "- " + item.text else item.text
  }

  function ItemLines(items: seq<Item>): seq<string> {
    if items == [] then [] else ItemLines(items[..|items| - 1]) + [ItemLine(items[|items| - 1])]
  }

  /** The texts behind a dash. */
  function Hints(items: seq<Item>): seq<string> {
    if items == [] then []
    else Hints(items[..|items| - 1]) + if items[|items| - 1].dash then [items[|items| - 1].text] else []
  }

  /** The question, which may go on over more lines, the metadata and the hint section. */
  function OutputLines(question: string, more: seq<string>, pairs: seq<Pair>, items: seq<Item>): seq<string> {
    ["QUESTION: " + question] + more + PairLines(pairs) + if items == [] then [] else ["HINTS:"] + ItemLines(items)
  }

  function Print(lines: seq<string>): string {
    if lines == [] then [] else lines[0] + "\n" + Print(lines[1..])
  }

  /** The last value given for a key; a line without a value gives none. */
  function LastValue(pairs: seq<Pair>, key: string): Option<string> {
    if pairs == [] then None
    else if Upper(pairs[|pairs| - 1].key) == key && pairs[|pairs| - 1].value != [] then Some(pairs[|pairs| - 1].value)
    else LastValue(pairs[..|pairs| - 1], key)
  }

  // -- lines ----------------------------------------------------------------------

  predicate Unbroken(s: string) {
    forall i :: 0 <= i < |s| ==> !IsBreak(s[i])
  }

  lemma FirstBreak(line: string, rest: string)
    requires Unbroken(line)
    ensures FindBreak(line + "\n" + rest) == |line|
  {
    var s := line + "\n" + rest;
    assert s[|line|] == '\n' && forall i :: 0 <= i < |line| ==> s[i] == line[i];
  }

  /** Printed lines come back. */
  lemma {:induction false} PrintedLines(lines: seq<string>)
    requires forall i :: 0 <= i < |lines| ==> Unbroken(lines[i])
    ensures SplitLines(Print(lines)) == lines
  {
    if lines != [] {
      var rest := Print(lines[1..]);
      var s := lines[0] + "\n" + rest;
      PrintedLines(lines[1..]);
      FirstBreak(lines[0], rest);
      BreaksFound(s, |lines[0]|);
      assert s[..|lines[0]|] == lines[0] && s[|lines[0]| + 1..] == rest;
    }
  }

  lemma Stripped(s: string)
    requires s != [] && !IsSpace(s[0]) && !IsSpace(s[|s| - 1])
    ensures Strip(s) == s
  {
  }

  lemma {:induction false} UpperConcat(a: string, b: string)
    ensures Upper(a + b) == Upper(a) + Upper(b)
  {
    if a == [] {
      assert a + b == b;
    } else {
      assert (a + b)[1..] == a[1..] + b;
      UpperConcat(a[1..], b);
    }
  }

  // -- one line -------------------------------------------------------------------

  /** The header line is the question. */
  lemma HeaderRead(question: string)
    requires OneLine(question)
    ensures !MetaLine("QUESTION: " + question) && ParsedLine("QUESTION: " + question) == [question]
    ensures Unbroken("QUESTION: " + question)
  {
    var line := "QUESTION: " + question;
    assert line[|line| - 1] == question[|question| - 1];
    Stripped(line);
    UpperFacts(line);
    assert Upper(line)[..9] == HEADER;
    HeaderIsNotMeta(line);
    assert line[|HEADER|..] == " " + question;
    Spaced(question);
  }

  lemma Spaced(s: string)
    requires OneLine(s)
    ensures Strip(" " + s) == s
  {
    assert (" " + s)[1..] == s;
    Stripped(s);
  }

  predicate KeyChar(c: char) {
    'A' <= c <= 'Z' || c == '_'
  }

  predicate Letters(key: string) {
    |key| > 0 && key[0] != 'H' && forall i :: 0 <= i < |key| ==> KeyChar(key[i])
  }

  lemma KnownKeys(key: string)
    requires Known(key)
    ensures Letters(key)
  {
    if key == "TYPE" {
    } else if key == "DIFFICULTY" {
    } else if key == "RATIONALE" {
    } else if key == "RATIONAL" {
    } else if key == "TARGET" {
    } else if key == "CATEGORY" {
    } else if key == "SOURCE" {
    }
  }

  /** A character that stands for itself in a key. */
  predicate Solid(c: char) {
    !IsSpace(c) && !IsBreak(c) && c != ':'
  }

  lemma SolidChar(c: char)
    requires KeyChar(UpperChar(c))
    ensures Solid(c)
  {
  }

  lemma SolidKey(key: string)
    requires Letters(Upper(key))
    ensures |key| > 0 && forall i :: 0 <= i < |key| ==> Solid(key[i])
  {
    UpperFacts(key);
    forall i | 0 <= i < |key|
      ensures Solid(key[i])
    {
      assert KeyChar(Upper(key)[i]);
      SolidChar(key[i]);
    }
  }

  lemma KeyFacts(key: string)
    requires Known(Upper(key))
    ensures |key| > 0 && forall i :: 0 <= i < |key| ==> Solid(key[i])
  {
    KnownKeys(Upper(key));
    SolidKey(key);
  }

  lemma PairShape(pair: Pair)
    requires Printable(pair)
    ensures var line := PairLine(pair);
            && Unbroken(line) && Strip(line) == line && Find(line, ":", 0) == |pair.key|
            && line[..|pair.key|] == pair.key
            && line[|pair.key| + 1..] == if pair.value == [] then [] else " " + pair.value
  {
    var key, line := pair.key, PairLine(pair);
    KeyFacts(key);
    assert line[0] == key[0];
    assert line[|line| - 1] == if pair.value == [] then ':' else pair.value[|pair.value| - 1];
    Stripped(line);
    FindSkips(line, ":", 0, |key|);
    assert line[|key|..|key| + 1] == ":";
    assert OccursAt(line, ":", |key|);
  }

  lemma KnownIsMeta(key: string)
    requires Known(key)
    ensures exists i :: 0 <= i < |META_PREFIXES| && META_PREFIXES[i] == key + ":"
  {
    assert META_PREFIXES[0] == "TYPE" + ":" && META_PREFIXES[1] == "DIFFICULTY" + ":";
    assert META_PREFIXES[2] == "RATIONALE" + ":" && META_PREFIXES[3] == "RATIONAL" + ":";
    assert META_PREFIXES[4] == "TARGET" + ":" && META_PREFIXES[6] == "CATEGORY" + ":";
    assert META_PREFIXES[7] == "SOURCE" + ":" && META_PREFIXES[8] == "SOURCE_REF" + ":";
  }

  lemma PairUpper(pair: Pair)
    requires Printable(pair)
    ensures Upper(pair.key) + ":" <= Upper(PairLine(pair)) && !("HINTS:" <= Upper(PairLine(pair)))
  {
    var key, tail := Upper(pair.key), ":" + if pair.value == [] then [] else " " + pair.value;
    assert PairLine(pair) == pair.key + tail;
    UpperConcat(pair.key, tail);
    assert Upper(tail)[0] == ':';
    assert (key + Upper(tail))[..|key| + 1] == key + ":";
    KnownKeys(key);
    assert (key + Upper(tail))[0] != 'H';
  }

  /** A metadata line ends the question. */
  lemma PairIsMeta(pair: Pair)
    requires Printable(pair)
    ensures MetaLine(PairLine(pair)) && !StartsHints(PairLine(pair))
  {
    PairShape(pair);
    PairUpper(pair);
    KnownIsMeta(Upper(pair.key));
    var i :| 0 <= i < |META_PREFIXES| && META_PREFIXES[i] == Upper(pair.key) + ":";
    assert META_PREFIXES[i] <= Upper(PairLine(pair));
  }

  /** It sets its key, if it has a value. */
  lemma PairRead(pair: Pair, kv: map<string, string>)
    requires Printable(pair)
    ensures AddKey(kv, Strip(PairLine(pair))) == if pair.value == [] then kv else kv[Upper(pair.key) := pair.value]
  {
    KeyFacts(pair.key);
    PairShape(pair);
    Stripped(pair.key);
    if pair.value != [] {
      Spaced(pair.value);
    }
    KnownIsMeta(Upper(pair.key));
    assert Upper(pair.key) + ":" in META_PREFIXES;
  }

  lemma ItemRead(item: Item, hints: seq<string>)
    requires Listable(item)
    ensures AddHint(hints, Strip(ItemLine(item))) == hints + if item.dash then [item.text] else []
    ensures Unbroken(ItemLine(item))
  {
    var line := ItemLine(item);
    assert line[|line| - 1] == item.text[|item.text| - 1];
    Stripped(line);
    if item.dash {
      assert line[1..] == " " + item.text;
      Spaced(item.text);
    }
  }

  lemma HintsLineRead()
    ensures MetaLine("HINTS:") && StartsHints("HINTS:") && Unbroken("HINTS:")
  {
    Stripped("HINTS:");
    UpperFacts("HINTS:");
    assert Upper("HINTS:") == "HINTS:";
    assert META_PREFIXES[5] <= Upper("HINTS:");
  }

  // -- the sections ---------------------------------------------------------------

  lemma {:induction false} PairLinesFacts(pairs: seq<Pair>)
    ensures |PairLines(pairs)| == |pairs|
    ensures forall i :: 0 <= i < |pairs| ==> PairLines(pairs)[i] == PairLine(pairs[i])
  {
    if pairs != [] {
      PairLinesFacts(pairs[1..]);
    }
  }

  lemma {:induction false} ItemLinesFacts(items: seq<Item>)
    ensures |ItemLines(items)| == |items|
    ensures forall i :: 0 <= i < |items| ==> ItemLines(items)[i] == ItemLine(items[i])
  {
    if items != [] {
      ItemLinesFacts(items[..|items| - 1]);
    }
  }

  /** Where each part of an output stands among its lines: the question, the metadata from
      place `f` on, and the hint section from place `k` on. */
  ghost predicate Laid(lines: seq<string>, question: string, more: seq<string>, pairs: seq<Pair>, items: seq<Item>,
                       f: nat, k: nat)
  {
    && f == 1 + |more| && k == f + |pairs| && |lines| == k + (if items == [] then 0 else 1 + |items|)
    && lines[0] == "QUESTION: " + question && (items != [] ==> lines[k] == "HINTS:")
    && (forall i :: 0 <= i < |more| ==> lines[1 + i] == more[i])
    && (forall i :: 0 <= i < |pairs| ==> lines[f + i] == PairLine(pairs[i]))
    && (forall i :: 0 <= i < |items| ==> lines[k + 1 + i] == ItemLine(items[i]))
  }

  lemma OutputIsLaid(question: string, more: seq<string>, pairs: seq<Pair>, items: seq<Item>)
    ensures Laid(OutputLines(question, more, pairs, items), question, more, pairs, items,
                 1 + |more|, 1 + |more| + |pairs|)
  {
    PairLinesFacts(pairs);
    ItemLinesFacts(items);
  }

  ghost predicate AllPrintable(question: string, more: seq<string>, pairs: seq<Pair>, items: seq<Item>) {
    && OneLine(question) && (forall i :: 0 <= i < |more| ==> Continues(more[i]))
    && (forall i :: 0 <= i < |pairs| ==> Printable(pairs[i]))
    && forall i :: 0 <= i < |items| ==> Listable(items[i])
  }

  lemma LaidUnbroken(lines: seq<string>, question: string, more: seq<string>, pairs: seq<Pair>, items: seq<Item>,
                     f: nat, k: nat, i: nat)
    requires Laid(lines, question, more, pairs, items, f, k) && AllPrintable(question, more, pairs, items)
    requires i < |lines|
    ensures Unbroken(lines[i])
  {
    if i == 0 {
      HeaderRead(question);
    } else if i < f {
      assert lines[1 + (i - 1)] == more[i - 1] && Continues(more[i - 1]);
    } else if i < k {
      assert lines[f + (i - f)] == PairLine(pairs[i - f]);
      PairShape(pairs[i - f]);
    } else if i == k {
      HintsLineRead();
    } else {
      assert lines[k + 1 + (i - 1 - k)] == ItemLine(items[i - 1 - k]);
      ItemRead(items[i - 1 - k], []);
    }
  }

  /** The question ends before the first metadata line. */
  lemma FrontIs(lines: seq<string>, f: nat)
    requires f <= |lines| && (forall i :: 0 <= i < f ==> !MetaLine(lines[i]))
    requires f < |lines| ==> MetaLine(lines[f])
    ensures FrontCount(lines) == f
  {
    FrontFacts(lines);
  }

  lemma KeysEnd(lines: seq<string>, n: nat)
    requires n <= |lines| && (forall i :: 0 <= i < n ==> !StartsHints(lines[i]))
    requires n < |lines| ==> StartsHints(lines[n])
    ensures KeyCount(lines) == n
  {
    KeyCountFacts(lines);
  }

  /** A further line is added as it is. */
  lemma ContinuationRead(line: string)
    requires Continues(line)
    ensures ParsedLine(line) == [line]
  {
    Stripped(line);
  }

  lemma NextParsed(lines: seq<string>, n: nat, before: seq<string>, line: string)
    requires n < |lines| && ParsedLines(lines, n) == before && ParsedLine(lines[n]) == [line]
    ensures ParsedLines(lines, n + 1) == before + [line]
  {
  }

  /** Line `1 + i` of the question adds `more[i]`. */
  ghost predicate GoesOn(lines: seq<string>, more: seq<string>, i: nat) {
    i < |more| && 1 + i < |lines| && ParsedLine(lines[1 + i]) == [more[i]]
  }

  lemma {:induction false} QuestionRead(lines: seq<string>, question: string, more: seq<string>, n: nat)
    requires n <= |more| < |lines| && ParsedLine(lines[0]) == [question]
    requires forall i: nat :: i < |more| ==> GoesOn(lines, more, i)
    ensures ParsedLines(lines, 1 + n) == [question] + more[..n]
  {
    if n == 0 {
      NextParsed(lines, 0, [], question);
    } else {
      QuestionRead(lines, question, more, n - 1);
      assert GoesOn(lines, more, n - 1);
      NextParsed(lines, n, [question] + more[..n - 1], more[n - 1]);
      MoreRead(question, more, n);
    }
  }

  lemma MoreRead(question: string, more: seq<string>, n: nat)
    requires 0 < n <= |more|
    ensures [question] + more[..n - 1] + [more[n - 1]] == [question] + more[..n]
  {
    assert more[..n] == more[..n - 1] + [more[n - 1]];
  }

  /** Lines joined by single spaces need no stripping. */
  lemma {:induction false} JoinedEnds(lines: seq<string>)
    requires lines != [] && forall i :: 0 <= i < |lines| ==> OneLine(lines[i])
    ensures var text := Join(lines, " "); |text| > 0 && !IsSpace(text[0]) && !IsSpace(text[|text| - 1])
  {
    assert OneLine(lines[0]);
    if |lines| > 1 {
      JoinedEnds(lines[1..]);
    }
  }

  lemma QuestionIsStripped(question: string, more: seq<string>)
    requires OneLine(question) && forall i :: 0 <= i < |more| ==> Continues(more[i])
    ensures var text := Join([question] + more, " "); text != [] && Strip(text) == text
  {
    var lines := [question] + more;
    forall i | 0 <= i < |lines|
      ensures OneLine(lines[i])
    {
      if i > 0 {
        assert Continues(more[i - 1]);
      }
    }
    JoinedEnds(lines);
    Stripped(Join(lines, " "));
  }

  lemma {:induction false} PairsRead(lines: seq<string>, lo: nat, pairs: seq<Pair>, key: string)
    requires |lines| >= lo + |pairs| && forall i :: 0 <= i < |pairs| ==> lines[lo + i] == PairLine(pairs[i])
    requires forall i :: 0 <= i < |pairs| ==> Printable(pairs[i])
    ensures Lookup(KeyValues(lines, lo, lo + |pairs|), key) == LastValue(pairs, key)
    decreases |pairs|
  {
    if pairs != [] {
      var n := |pairs| - 1;
      PairsRead(lines, lo, pairs[..n], key);
      PairRead(pairs[n], KeyValues(lines, lo, lo + n));
    }
  }

  lemma HintStep(lines: seq<string>, lo: nat, hi: nat, item: Item)
    requires lo <= hi < |lines| && lines[hi] == ItemLine(item) && Listable(item)
    ensures HintLines(lines, lo, hi + 1) == HintLines(lines, lo, hi) + if item.dash then [item.text] else []
  {
    ItemRead(item, HintLines(lines, lo, hi));
  }

  lemma {:induction false} HintsRead(lines: seq<string>, lo: nat, items: seq<Item>, n: nat)
    requires |lines| >= lo + |items| && forall i :: 0 <= i < |items| ==> lines[lo + i] == ItemLine(items[i])
    requires n <= |items| && forall i :: 0 <= i < |items| ==> Listable(items[i])
    ensures HintLines(lines, lo, lo + n) == Hints(items[..n])
  {
    if n > 0 {
      HintsRead(lines, lo, items, n - 1);
      HintStep(lines, lo, lo + n - 1, items[n - 1]);
      assert items[..n][..n - 1] == items[..n - 1];
    }
  }

  lemma AllHintsRead(lines: seq<string>, lo: nat, hi: nat, items: seq<Item>)
    requires hi == lo + |items| <= |lines| && forall i :: 0 <= i < |items| ==> lines[lo + i] == ItemLine(items[i])
    requires forall i :: 0 <= i < |items| ==> Listable(items[i])
    ensures HintLines(lines, lo, hi) == Hints(items)
  {
    assert items[..|items|] == items;
    HintsRead(lines, lo, items, |items|);
  }

  lemma FrontFound(lines: seq<string>, question: string, more: seq<string>, pairs: seq<Pair>, items: seq<Item>,
                   f: nat, k: nat)
    requires Laid(lines, question, more, pairs, items, f, k) && AllPrintable(question, more, pairs, items)
    ensures FrontCount(lines) == f
  {
    HeaderRead(question);
    HintsLineRead();
    forall i | 0 <= i < f
      ensures !MetaLine(lines[i])
    {
      if i > 0 {
        assert lines[1 + (i - 1)] == more[i - 1] && Continues(more[i - 1]);
      }
    }
    if pairs != [] {
      assert lines[f + 0] == PairLine(pairs[0]);
      PairIsMeta(pairs[0]);
    }
    FrontIs(lines, f);
  }

  lemma KeysFound(lines: seq<string>, question: string, more: seq<string>, pairs: seq<Pair>, items: seq<Item>,
                  f: nat, k: nat)
    requires Laid(lines, question, more, pairs, items, f, k) && AllPrintable(question, more, pairs, items)
    ensures KeyCount(lines[f..]) == k - f
  {
    HintsLineRead();
    forall i | 0 <= i < |pairs|
      ensures !StartsHints(lines[f..][i])
    {
      assert lines[f + i] == PairLine(pairs[i]);
      PairIsMeta(pairs[i]);
    }
    KeysEnd(lines[f..], k - f);
  }

  lemma HintsFound(lines: seq<string>, keys: nat, items: seq<Item>)
    requires |lines| == keys + if items == [] then 0 else 1 + |items|
    requires forall i :: 0 <= i < |items| ==> lines[keys + 1 + i] == ItemLine(items[i])
    requires forall i :: 0 <= i < |items| ==> Listable(items[i])
    ensures (if keys < |lines| then HintLines(lines, keys + 1, |lines|) else []) == Hints(items)
  {
    if items != [] {
      AllHintsRead(lines, keys + 1, |lines|, items);
    }
  }

  lemma QuestionFound(lines: seq<string>, question: string, more: seq<string>, pairs: seq<Pair>, items: seq<Item>,
                      f: nat, k: nat)
    requires Laid(lines, question, more, pairs, items, f, k) && AllPrintable(question, more, pairs, items)
    ensures ParsedLines(lines, f) == [question] + more
  {
    HeaderRead(question);
    forall i: nat | i < |more|
      ensures GoesOn(lines, more, i)
    {
      ContinuationRead(more[i]);
    }
    QuestionRead(lines, question, more, |more|);
    assert more[..|more|] == more;
  }

  lemma LaidFound(lines: seq<string>, question: string, more: seq<string>, pairs: seq<Pair>, items: seq<Item>,
                  f: nat, k: nat)
    requires Laid(lines, question, more, pairs, items, f, k) && AllPrintable(question, more, pairs, items)
    ensures SectionsOf(lines) == Sections([question] + more, KeyValues(lines, f, k), Hints(items))
  {
    FrontFound(lines, question, more, pairs, items, f, k);
    KeysFound(lines, question, more, pairs, items, f, k);
    SectionsOfIs(lines, f, k);
    HintsFound(lines, k, items);
    QuestionFound(lines, question, more, pairs, items, f, k);
  }

  lemma LaidParsed(lines: seq<string>, question: string, more: seq<string>, pairs: seq<Pair>, items: seq<Item>,
                   f: nat, k: nat, competency: string)
    requires Laid(lines, question, more, pairs, items, f, k) && AllPrintable(question, more, pairs, items)
    ensures Parsed(Print(lines), competency)
         == Ok(Build(Join([question] + more, " "), KeyValues(lines, f, k), Hints(items), competency))
  {
    forall i | 0 <= i < |lines|
      ensures Unbroken(lines[i])
    {
      LaidUnbroken(lines, question, more, pairs, items, f, k, i);
    }
    PrintedLines(lines);
    LaidFound(lines, question, more, pairs, items, f, k);
    QuestionIsStripped(question, more);
  }

  lemma ValuesFound(lines: seq<string>, pairs: seq<Pair>, f: nat)
    requires |lines| >= f + |pairs| && forall i :: 0 <= i < |pairs| ==> lines[f + i] == PairLine(pairs[i])
    requires forall i :: 0 <= i < |pairs| ==> Printable(pairs[i])
    ensures forall key :: Lookup(KeyValues(lines, f, f + |pairs|), key) == LastValue(pairs, key)
  {
    forall key
      ensures Lookup(KeyValues(lines, f, f + |pairs|), key) == LastValue(pairs, key)
    {
      PairsRead(lines, f, pairs, key);
    }
  }

  /** The record holds what was printed. An absent key has its documented default, and of
      a repeated key the last value counts. */
  predicate AsPrinted(q: QuestionParser.Question, text: string, pairs: seq<Pair>, hints: seq<string>, competency: string) {
    var kind, difficulty, target := LastValue(pairs, "TYPE"), LastValue(pairs, "DIFFICULTY"), LastValue(pairs, "TARGET");
    var rationale := LastValue(pairs, "RATIONALE");
    && q.text == text && q.hints == hints
    && q.kind == (if kind.None? then "general" else kind.value)
    && q.difficulty == (if difficulty.None? then "medium" else difficulty.value)
    && q.target == (if target.None? then competency else target.value)
    && q.rationale == (if rationale.None? then LastValue(pairs, "RATIONAL") else rationale)
    && q.category == LastValue(pairs, "CATEGORY")
    && q.source == LastValue(pairs, "SOURCE") && q.sourceRef == LastValue(pairs, "SOURCE_REF")
  }

  lemma BuiltAsPrinted(text: string, pairs: seq<Pair>, hints: seq<string>, competency: string, kv: map<string, string>)
    requires forall key :: Lookup(kv, key) == LastValue(pairs, key)
    ensures AsPrinted(Build(text, kv, hints, competency), text, pairs, hints, competency)
  {
    assert Lookup(kv, "TYPE") == LastValue(pairs, "TYPE");
    assert Lookup(kv, "RATIONALE") == LastValue(pairs, "RATIONALE");
  }

  lemma LaidRoundTrip(lines: seq<string>, question: string, more: seq<string>, pairs: seq<Pair>, items: seq<Item>,
                      f: nat, k: nat, competency: string)
    requires Laid(lines, question, more, pairs, items, f, k) && AllPrintable(question, more, pairs, items)
    ensures var parsed := Parsed(Print(lines), competency);
            parsed.Ok? && AsPrinted(parsed.value, Join([question] + more, " "), pairs, Hints(items), competency)
  {
    LaidParsed(lines, question, more, pairs, items, f, k, competency);
    LaidValues(lines, question, more, pairs, items, f, k);
    BuiltAsPrinted(Join([question] + more, " "), pairs, Hints(items), competency, KeyValues(lines, f, k));
  }

  lemma LaidValues(lines: seq<string>, question: string, more: seq<string>, pairs: seq<Pair>, items: seq<Item>,
                   f: nat, k: nat)
    requires Laid(lines, question, more, pairs, items, f, k) && AllPrintable(question, more, pairs, items)
    ensures forall key :: Lookup(KeyValues(lines, f, k), key) == LastValue(pairs, key)
  {
    ValuesFound(lines, pairs, f);
  }

  /** Every field of an output comes back from its own lines. */
  lemma OutputRoundTrip(question: string, more: seq<string>, pairs: seq<Pair>, items: seq<Item>, competency: string)
    requires OneLine(question) && forall i :: 0 <= i < |more| ==> Continues(more[i])
    requires forall i :: 0 <= i < |pairs| ==> Printable(pairs[i])
    requires forall i :: 0 <= i < |items| ==> Listable(items[i])
    ensures var parsed := Parsed(Print(OutputLines(question, more, pairs, items)), competency);
            parsed.Ok? && AsPrinted(parsed.value, Join([question] + more, " "), pairs, Hints(items), competency)
  {
    OutputIsLaid(question, more, pairs, items);
    assert AllPrintable(question, more, pairs, items);
    LaidRoundTrip(OutputLines(question, more, pairs, items), question, more, pairs, items,
                  1 + |more|, 1 + |more| + |pairs|, competency);
  }
}
