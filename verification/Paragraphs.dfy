/** The paragraphs of a document and where they stand in it. */
module Paragraphs {
  import opened Text

  datatype Para = Para(text: string, offset: nat)

  const BLANK := "\n\n"

  /** Where part `i` begins in the text that the parts, joined by blank lines, make. */
  function PartOffset(parts: seq<string>, i: nat): nat
    requires i <= |parts|
  {
    if i == 0 then 0 else PartOffset(parts, i - 1) + |parts[i - 1]| + 2
  }

  /** Where the stripped part begins. */
  function Place(part: string, offset: nat): nat {
    LStripFacts(part);
    offset + (|part| - |LStrip(part)|)
  }

  function ParaOf(part: string, offset: nat): seq<Para> {
    if Strip(part) == [] then [] else [Para(Strip(part), Place(part, offset))]
  }

  /** The paragraphs among the first `n` parts. */
  function Paras(parts: seq<string>, n: nat): seq<Para>
    requires n <= |parts|
  {
    if n == 0 then [] else Paras(parts, n - 1) + ParaOf(parts[n - 1], PartOffset(parts, n - 1))
  }

  function ParasOf(content: string): seq<Para> {
    var parts := Split(content, BLANK);
    Paras(parts, |parts|)
  }

  function Texts(paras: seq<Para>): (texts: seq<string>)
    ensures |texts| == |paras| && forall i :: 0 <= i < |paras| ==> texts[i] == paras[i].text
  {
    seq(|paras|, i requires 0 <= i < |paras| => paras[i].text)
  }

  // -- searching ------------------------------------------------------------------

  lemma {:induction false} OffsetOfTail(parts: seq<string>, i: nat)
    requires 0 < i <= |parts|
    ensures PartOffset(parts, i) == |parts[0]| + 2 + PartOffset(parts[1..], i - 1)
  {
    if i > 1 {
      OffsetOfTail(parts, i - 1);
    }
  }

  /** Part `i` stands at its offset. */
  lemma {:induction false} PartAt(parts: seq<string>, i: nat) returns (before: string, after: string)
    requires i < |parts|
    ensures Join(parts, BLANK) == before + (parts[i] + after) && |before| == PartOffset(parts, i)
  {
    if i == 0 {
      before, after := [], if |parts| == 1 then [] else BLANK + Join(parts[1..], BLANK);
    } else {
      before, after := PartAt(parts[1..], i - 1);
      OffsetOfTail(parts, i);
      before := parts[0] + BLANK + before;
    }
  }

  lemma StripPlace(part: string)
    requires Strip(part) != []
    ensures var lead, text := Place(part, 0), Strip(part);
            && lead + |text| <= |part| && part[lead..lead + |text|] == text && !IsSpace(text[0])
            && forall j :: 0 <= j < lead ==> IsSpace(part[j])
  {
    var l := LStrip(part);
    LStripFacts(part);
    RStripFacts(l);
    var lead := Place(part, 0);
    assert forall j :: 0 <= j < lead ==> part[j] == part[..lead][j];
  }

  /** Stripped text is found first at its own place: before it there is only white space. */
  lemma StripFound(part: string, rest: string)
    requires Strip(part) != []
    ensures Find(part + rest, Strip(part), 0) == Place(part, 0)
  {
    StripPlace(part);
    var lead, text, all := Place(part, 0), Strip(part), part + rest;
    assert all[lead..lead + |text|] == text;
    assert OccursAt(all, text, lead);
    FindFacts(all, text, 0);
  }

  lemma {:induction false} FindShifts(before: string, s: string, sep: string, from: nat)
    requires from <= |s|
    ensures Find(before + s, sep, |before| + from) == |before| + Find(s, sep, from)
    decreases |s| - from
  {
    var all := before + s;
    if from < |s| {
      assert from + |sep| <= |s| ==> all[|before| + from..|before| + from + |sep|] == s[from..from + |sep|];
      assert OccursAt(all, sep, |before| + from) <==> OccursAt(s, sep, from);
      FindShifts(before, s, sep, from + 1);
    }
  }

  predicate Stands(content: string, p: Para) {
    && p.text != [] && Strip(p.text) == p.text
    && p.offset + |p.text| <= |content| && content[p.offset..p.offset + |p.text|] == p.text
  }

  /** The stripped part between what comes before it and what comes after. */
  lemma StandsBetween(before: string, part: string, after: string, content: string, at: nat)
    requires Strip(part) != [] && content == before + (part + after) && at == Place(part, |before|)
    ensures Stands(content, Para(Strip(part), at)) && |before| <= at && at + |Strip(part)| <= |before| + |part|
  {
    var lead := Place(part, 0);
    StripPlace(part);
    StripTwice(part);
    SliceInside(before, part, after, lead, lead + |Strip(part)|);
  }

  lemma FoundBetween(before: string, part: string, after: string)
    requires Strip(part) != []
    ensures Find(before + (part + after), Strip(part), |before|) == Place(part, |before|)
  {
    StripFound(part, after);
    FindShifts(before, part + after, Strip(part), 0);
  }

  lemma SliceInside(before: string, part: string, after: string, i: nat, j: nat)
    requires i <= j <= |part|
    ensures (before + (part + after))[|before| + i..|before| + j] == part[i..j]
  {
  }

  /** A stripped part stands, and is found, where its leading white space ends. */
  lemma PartStands(content: string, parts: seq<string>, i: nat)
    requires content == Join(parts, BLANK) && i < |parts|
    ensures PartOffset(parts, i) <= |content|
    ensures Strip(parts[i]) != [] ==>
              var offset := PartOffset(parts, i);
              var p := Para(Strip(parts[i]), Place(parts[i], offset));
              && Stands(content, p) && offset <= p.offset && p.offset + |p.text| <= offset + |parts[i]|
              && Find(content, p.text, offset) == p.offset
  {
    var before, after := PartAt(parts, i);
    if Strip(parts[i]) != [] {
      StandsBetween(before, parts[i], after, content, Place(parts[i], |before|));
      FoundBetween(before, parts[i], after);
    }
  }

  lemma StripTwice(s: string)
    ensures Strip(Strip(s)) == Strip(s)
  {
    var l := LStrip(s);
    LStripFacts(s);
    RStripFacts(l);
    LStripFacts(Strip(s));
    RStripFacts(LStrip(Strip(s)));
  }

  /** The offsets computed by searching are the places of the stripped parts. */
  method SplitParagraphs(content: string) returns (out: seq<Para>)
    ensures out == ParasOf(content)
  {
    var parts := Split(content, BLANK);
    var offset := 0;
    out := [];
    JoinSplit(content, BLANK);
    for i := 0 to |parts|
      invariant offset == PartOffset(parts, i)
      invariant out == Paras(parts, i)
    {
      var text := Strip(parts[i]);
      PartStands(content, parts, i);
      if text != [] {
        out := out + [Para(text, Find(content, text, offset))];
      }
      offset := offset + |parts[i]| + 2;
    }
  }

  // -- what the offsets mean ------------------------------------------------------

  /** Each paragraph stands at its offset, is stripped, and ends before any later one begins. */
  ghost predicate Placed(content: string, paras: seq<Para>) {
    && (forall i :: 0 <= i < |paras| ==> Stands(content, paras[i]))
    && (forall i, j :: 0 <= i < j < |paras| ==> EndOf(paras[i]) + 2 <= paras[j].offset)
  }

  function EndOf(p: Para): nat {
    p.offset + |p.text|
  }

  predicate EndsBefore(paras: seq<Para>, offset: nat) {
    forall i :: 0 <= i < |paras| ==> EndOf(paras[i]) + 2 <= offset
  }

  lemma PlacedAdd(content: string, paras: seq<Para>, p: Para)
    requires Placed(content, paras) && Stands(content, p) && EndsBefore(paras, p.offset)
    ensures Placed(content, paras + [p])
  {
  }

  lemma EndsAdd(paras: seq<Para>, p: Para, offset: nat, end: nat)
    requires EndsBefore(paras, offset) && offset <= end && EndOf(p) + 2 <= end
    ensures EndsBefore(paras + [p], end)
  {
  }

  lemma {:induction false} PlacedParas(content: string, parts: seq<string>, n: nat) returns (paras: seq<Para>)
    requires content == Join(parts, BLANK) && n <= |parts|
    ensures paras == Paras(parts, n) && Placed(content, paras) && EndsBefore(paras, PartOffset(parts, n))
    decreases n
  {
    if n == 0 {
      paras := [];
    } else {
      var fewer := PlacedParas(content, parts, n - 1);
      PartStands(content, parts, n - 1);
      var offset := PartOffset(parts, n - 1);
      var more, end := ParaOf(parts[n - 1], offset), PartOffset(parts, n);
      paras := fewer + more;
      if more == [] {
        assert paras == fewer;
      } else {
        PlacedAdd(content, fewer, more[0]);
        EndsAdd(fewer, more[0], offset, end);
      }
    }
  }

  /** The offsets are exact for every document. */
  lemma OffsetsAreExact(content: string)
    ensures Placed(content, ParasOf(content))
  {
    JoinSplit(content, BLANK);
    var parts := Split(content, BLANK);
    var paras := PlacedParas(content, parts, |parts|);
  }

  lemma TextsAdd(paras: seq<Para>, part: string, offset: nat)
    ensures Texts(paras + ParaOf(part, offset)) == Texts(paras) + Said(part)
  {
  }

  lemma CoversAdd(before: string, texts: seq<string>, part: string)
    requires Covers(before, texts)
    ensures Covers(before + BLANK + part, texts + Said(part))
  {
    SaidCovers(part);
    LStripOfSpace(BLANK);
    CoversConcat(before, texts, BLANK, []);
    assert texts + [] == texts;
    CoversConcat(before + BLANK, texts, part, Said(part));
  }

  lemma JoinOneMore(parts: seq<string>, n: nat)
    requires 1 < n <= |parts|
    ensures Join(parts[..n], BLANK) == Join(parts[..n - 1], BLANK) + BLANK + parts[n - 1]
  {
    assert parts[..n] == parts[..n - 1] + [parts[n - 1]];
    JoinAppend(parts[..n - 1], [parts[n - 1]], BLANK);
  }

  function SaidParts(parts: seq<string>, n: nat): seq<string>
    requires n <= |parts|
  {
    if n == 0 then [] else SaidParts(parts, n - 1) + Said(parts[n - 1])
  }

  lemma {:induction false} TextsAreSaid(parts: seq<string>, n: nat)
    requires n <= |parts|
    ensures Texts(Paras(parts, n)) == SaidParts(parts, n)
    decreases n
  {
    if n > 0 {
      TextsAreSaid(parts, n - 1);
      TextsAdd(Paras(parts, n - 1), parts[n - 1], PartOffset(parts, n - 1));
    }
  }

  lemma {:induction false} PartsCover(parts: seq<string>, n: nat)
    requires 1 <= n <= |parts|
    ensures Covers(Join(parts[..n], BLANK), SaidParts(parts, n))
  {
    if n == 1 {
      SaidCovers(parts[0]);
      assert parts[..1] == [parts[0]] && SaidParts(parts, 0) + Said(parts[0]) == Said(parts[0]);
    } else {
      PartsCover(parts, n - 1);
      CoversAdd(Join(parts[..n - 1], BLANK), SaidParts(parts, n - 1), parts[n - 1]);
      JoinOneMore(parts, n);
    }
  }

  /** Nothing is lost: the document is its paragraphs with white space between them. */
  lemma ParagraphsCover(content: string)
    ensures Covers(content, Texts(ParasOf(content)))
  {
    JoinSplit(content, BLANK);
    var parts := Split(content, BLANK);
    PartsCover(parts, |parts|);
    TextsAreSaid(parts, |parts|);
    assert parts[..|parts|] == parts;
  }

  // -- normalised documents -------------------------------------------------------

  /** Every part is a paragraph as it stands. */
  predicate Normal(parts: seq<string>) {
    forall i :: 0 <= i < |parts| ==> Strip(parts[i]) == parts[i] != []
  }

  lemma StrippedPlace(part: string, offset: nat)
    requires Strip(part) == part != []
    ensures ParaOf(part, offset) == [Para(part, offset)]
  {
    LStripFacts(part);
    RStripFacts(LStrip(part));
    assert |LStrip(part)| == |part|;
  }

  lemma {:induction false} NormalParas(parts: seq<string>, n: nat) returns (paras: seq<Para>)
    requires Normal(parts) && n <= |parts|
    ensures paras == Paras(parts, n) && |paras| == n
    ensures forall i :: 0 <= i < n ==> paras[i] == Para(parts[i], PartOffset(parts, i))
  {
    if n == 0 {
      paras := [];
    } else {
      paras := NormalParas(parts, n - 1);
      StrippedPlace(parts[n - 1], PartOffset(parts, n - 1));
      paras := paras + [Para(parts[n - 1], PartOffset(parts, n - 1))];
    }
  }
}
