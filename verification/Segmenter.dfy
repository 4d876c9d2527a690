/** The streaming segmenter: the only gate between the token stream and speech.
    `Step`, `Drain` and `Feed` give its meaning on values; the class below refines
    them with the buffer and the cached index of the last gap. */
module Segmenter {
  import opened Text
  import opened Wrappers

  const BOUNDARIES := ['.', '!', '?', '\U{2026}', '\U{3002}', '\U{FF01}', '\U{FF1F}']
  const GAPS := [' ', '\t', '\n', '\r', '\U{000C}', '\U{000B}']

  predicate IsBoundary(c: char) {
    c in BOUNDARIES
  }

  predicate IsGap(c: char) {
    c in GAPS
  }

  /** The last index whose character is in `marks`, or -1. */
  function LastOf(s: string, marks: seq<char>): (i: int)
    ensures -1 <= i < |s|
    ensures i >= 0 ==> s[i] in marks
    ensures forall j :: i < j < |s| ==> s[j] !in marks
  {
    if s == [] then -1
    else if s[|s| - 1] in marks then |s| - 1
    else LastOf(s[..|s| - 1], marks)
  }

  datatype Cut = Sentence(at: nat) | Hard(at: nat)

  /** Where the loop cuts the buffer next, if it cuts at all. */
  function Step(buf: string, min: int, max: int): (cut: Option<Cut>)
    ensures cut.Some? ==> cut.value.at <= |buf|
  {
    var boundary, gap := LastOf(buf, BOUNDARIES), LastOf(buf, GAPS);
    if |buf| < min then None
    else if boundary >= 0 && boundary + 1 >= min then Some(Sentence(boundary + 1))
    else if |buf| >= max then Some(Hard(if gap > min / 2 && gap >= 0 then gap else |buf|))
    else None
  }

  /** What stays in the buffer: a hard cut also drops the white space after it. */
  function Rest(buf: string, cut: Cut): string
    requires cut.at <= |buf|
  {
    if cut.Hard? then LStrip(buf[cut.at..]) else buf[cut.at..]
  }

  datatype Drained = Drained(segments: seq<string>, rest: string)

  /** A positive bound on either side is what makes the loop stop. */
  predicate Bounded(min: int, max: int) {
    min >= 1 || max >= 1
  }

  /** Every cut shrinks the buffer exactly when one of the two bounds is positive. */
  lemma CutsShrink(min: int, max: int)
    ensures Bounded(min, max) <==>
            forall buf: string :: Step(buf, min, max).Some? ==> |Rest(buf, Step(buf, min, max).value)| < |buf|
  {
    if Bounded(min, max) {
      forall buf: string | Step(buf, min, max).Some?
        ensures |Rest(buf, Step(buf, min, max).value)| < |buf|
      {
        CutShrinks(buf, min, max);
      }
    } else {
      assert Step([], min, max) == Some(Hard(0));
    }
  }

  lemma CutShrinks(buf: string, min: int, max: int)
    requires Bounded(min, max) && Step(buf, min, max).Some?
    ensures |Rest(buf, Step(buf, min, max).value)| < |buf|
  {
    var cut := Step(buf, min, max).value;
    LStripFacts(buf[cut.at..]);
    if cut == Hard(0) {
      assert LastOf(buf, GAPS) == 0;
      assert IsSpace(buf[0]) && buf[0..] == buf;
    }
  }

  function Drain(buf: string, min: int, max: int): Drained
    requires Bounded(min, max)
    decreases |buf|
  {
    var cut := Step(buf, min, max);
    if cut.None? then Drained([], buf)
    else
      CutShrinks(buf, min, max);
      var later := Drain(Rest(buf, cut.value), min, max);
      Drained(Said(buf[..cut.value.at]) + later.segments, later.rest)
  }

  function AfterFeed(buf: string, chunk: string, min: int, max: int): Drained
    requires Bounded(min, max)
  {
    if chunk == [] then Drained([], buf) else Drain(buf + chunk, min, max)
  }

  function FeedAll(buf: string, chunks: seq<string>, min: int, max: int): Drained
    requires Bounded(min, max)
    decreases |chunks|
  {
    if chunks == [] then Drained([], buf)
    else
      var first := AfterFeed(buf, chunks[0], min, max);
      var later := FeedAll(first.rest, chunks[1..], min, max);
      Drained(first.segments + later.segments, later.rest)
  }

  /** Everything a whole stream makes the engine speak: the segments, then the flush. */
  function SpeakAll(chunks: seq<string>, min: int, max: int): seq<string>
    requires Bounded(min, max)
  {
    var all := FeedAll([], chunks, min, max);
    all.segments + Said(all.rest)
  }

  // -- conservation ---------------------------------------------------------------

  lemma CutCovers(buf: string, cut: Cut) returns (gone: string)
    requires cut.at <= |buf|
    ensures buf == gone + Rest(buf, cut) && Covers(gone, Said(buf[..cut.at]))
  {
    var head, tail := buf[..cut.at], buf[cut.at..];
    SaidCovers(head);
    gone := head;
    if cut.Hard? {
      LStripFacts(tail);
      var space := tail[..|tail| - |LStrip(tail)|];
      LStripOfSpace(space);
      CoversConcat(head, Said(head), space, []);
      assert Said(head) + [] == Said(head);
      gone := head + space;
    }
  }

  lemma {:induction false} DrainCovers(buf: string, min: int, max: int) returns (gone: string)
    requires Bounded(min, max)
    ensures var d := Drain(buf, min, max); buf == gone + d.rest && Covers(gone, d.segments)
    decreases |buf|
  {
    var cut := Step(buf, min, max);
    if cut.None? {
      gone := [];
    } else {
      CutShrinks(buf, min, max);
      var rest, head := Rest(buf, cut.value), Said(buf[..cut.value.at]);
      var first := CutCovers(buf, cut.value);
      var more := DrainCovers(rest, min, max);
      CoversConcat(first, head, more, Drain(rest, min, max).segments);
      gone := first + more;
    }
  }

  lemma FeedCovers(buf: string, chunk: string, min: int, max: int) returns (gone: string)
    requires Bounded(min, max)
    ensures var d := AfterFeed(buf, chunk, min, max); buf + chunk == gone + d.rest && Covers(gone, d.segments)
  {
    if chunk == [] {
      gone := [];
    } else {
      gone := DrainCovers(buf + chunk, min, max);
    }
  }

  lemma {:induction false} FeedAllCovers(buf: string, chunks: seq<string>, min: int, max: int) returns (gone: string)
    requires Bounded(min, max)
    ensures var d := FeedAll(buf, chunks, min, max);
            buf + Concat(chunks) == gone + d.rest && Covers(gone, d.segments)
    decreases |chunks|
  {
    if chunks == [] {
      gone := [];
    } else {
      var first := AfterFeed(buf, chunks[0], min, max);
      var head := FeedCovers(buf, chunks[0], min, max);
      var more := FeedAllCovers(first.rest, chunks[1..], min, max);
      CoversConcat(head, first.segments, more, FeedAll(first.rest, chunks[1..], min, max).segments);
      gone := head + more;
      Regroup(buf, chunks[0], Concat(chunks[1..]), head, first.rest);
      Regroup(head, first.rest, Concat(chunks[1..]), head, first.rest);
    }
  }

  lemma Regroup(a: string, b: string, c: string, head: string, rest: string)
    requires a + b == head + rest
    ensures a + (b + c) == head + (rest + c)
  {
    assert a + (b + c) == (a + b) + c;
  }

  /** Conservation: for every way of cutting a text into chunks, what is spoken is
      that text, in order, with only white space left out between segments. */
  lemma SpokenIsTheText(chunks: seq<string>, min: int, max: int)
    requires Bounded(min, max)
    ensures Covers(Concat(chunks), SpeakAll(chunks, min, max))
  {
    var d := FeedAll([], chunks, min, max);
    var gone := FeedAllCovers([], chunks, min, max);
    SaidCovers(d.rest);
    CoversConcat(gone, d.segments, d.rest, Said(d.rest));
    assert [] + Concat(chunks) == Concat(chunks);
  }

  // -- residue and segment length -------------------------------------------------

  function Max(a: int, b: int): int {
    if a >= b then a else b
  }

  /** After a feed the buffer holds less than one segment's worth of text and no
      sentence end that would already be speakable. */
  predicate Settled(buf: string, min: int, max: int) {
    |buf| < Max(min, max) && forall i :: 0 <= i < |buf| && i >= min - 1 ==> !IsBoundary(buf[i])
  }

  lemma {:induction false} DrainSettles(buf: string, min: int, max: int)
    requires Bounded(min, max)
    ensures Settled(Drain(buf, min, max).rest, min, max)
    decreases |buf|
  {
    var cut := Step(buf, min, max);
    if cut.Some? {
      CutShrinks(buf, min, max);
      DrainSettles(Rest(buf, cut.value), min, max);
    }
  }

  lemma {:induction false} DrainedAreShort(buf: string, min: int, max: int, i: nat)
    requires Bounded(min, max) && i < |Drain(buf, min, max).segments|
    ensures 1 <= |Drain(buf, min, max).segments[i]| <= |buf|
    decreases |buf|
  {
    var cut := Step(buf, min, max).value;
    var head := Said(buf[..cut.at]);
    LStripFacts(buf[..cut.at]);
    RStripFacts(LStrip(buf[..cut.at]));
    CutShrinks(buf, min, max);
    if i >= |head| {
      DrainedAreShort(Rest(buf, cut), min, max, i - |head|);
    }
  }

  /** After any run the residue is settled, and the next chunk's segments are no
      longer than the residue bound plus the chunk. */
  lemma {:induction false} RunSettles(buf: string, chunks: seq<string>, min: int, max: int)
    requires Bounded(min, max) && Settled(buf, min, max)
    ensures Settled(FeedAll(buf, chunks, min, max).rest, min, max)
    decreases |chunks|
  {
    if chunks != [] {
      DrainSettles(buf + chunks[0], min, max);
      RunSettles(AfterFeed(buf, chunks[0], min, max).rest, chunks[1..], min, max);
    }
  }

  lemma SegmentsAreShort(before: seq<string>, chunk: string, min: int, max: int, i: nat)
    requires Bounded(min, max)
    requires i < |AfterFeed(FeedAll([], before, min, max).rest, chunk, min, max).segments|
    ensures 1 <= |AfterFeed(FeedAll([], before, min, max).rest, chunk, min, max).segments[i]|
            <= Max(min, max) - 1 + |chunk|
  {
    var buf := FeedAll([], before, min, max).rest;
    RunSettles([], before, min, max);
    DrainedAreShort(buf + chunk, min, max, i);
  }

  /** A sentence is cut exactly after the last sentence end, if that leaves enough. */
  lemma SentenceCutExactlyWhen(buf: string, min: int, max: int, at: nat)
    ensures Step(buf, min, max) == Some(Sentence(at)) <==>
              && |buf| >= min && min <= at && 1 <= at <= |buf| && IsBoundary(buf[at - 1])
              && forall j :: at <= j < |buf| ==> !IsBoundary(buf[j])
  {
  }

  /** The place `at` is inside a word of the text. */
  predicate InsideWord(text: string, at: nat) {
    0 < at < |text| && !IsSpace(text[at - 1]) && !IsSpace(text[at])
  }

  /** No gap that the cutting rule may use: none beyond half the minimum. */
  predicate NoUsableGap(buf: string, min: int) {
    forall i :: 0 <= i < |buf| && i > min / 2 ==> !IsGap(buf[i])
  }

  /** A hard cut falls inside a word of the text - what has arrived and what is still to
      come - exactly when the buffer has no gap beyond half the minimum and neither its
      last character nor the next one is white space. A cut anywhere else falls before a gap. */
  lemma HardCutSplitsWordExactlyWhen(buf: string, next: string, min: int, max: int)
    requires Step(buf, min, max).Some? && Step(buf, min, max).value.Hard?
    ensures var at := Step(buf, min, max).value.at;
            && (InsideWord(buf + next, at) <==>
                  NoUsableGap(buf, min) && buf != [] && !IsSpace(buf[|buf| - 1]) && next != [] && !IsSpace(next[0]))
            && (!NoUsableGap(buf, min) ==> at < |buf| && IsGap(buf[at]))
  {
    var at, gap := Step(buf, min, max).value.at, LastOf(buf, GAPS);
    if NoUsableGap(buf, min) {
      assert at == |buf|;
    } else {
      var i :| 0 <= i < |buf| && i > min / 2 && IsGap(buf[i]);
      assert gap >= i && at == gap;
      assert IsSpace(buf[at]);
    }
  }

  /** A word longer than the maximum, arriving in two chunks, is spoken in two segments. */
  lemma LongWordIsSplit(word: string, tail: string, min: int, max: int)
    requires min >= 1 && |word| >= max >= min && tail != [] && |tail| < min
    requires forall i :: 0 <= i < |word| ==> !IsSpace(word[i]) && !IsBoundary(word[i])
    requires forall i :: 0 <= i < |tail| ==> !IsSpace(tail[i]) && !IsBoundary(tail[i])
    ensures SpeakAll([word] + [tail], min, max) == [word] + [tail] && InsideWord(word + tail, |word|)
  {
    assert Step(word, min, max) == Some(Hard(|word|));
    SolidSaid(word);
    SolidSaid(tail);
    assert word[..|word|] == word && word[|word|..] == [] && [] + word == word && [] + tail == tail;
    assert Drain([], min, max) == Drained([], []);
    assert Drain(word, min, max) == Drained([word], []);
    assert Drain(tail, min, max) == Drained([], tail);
    assert ([word] + [tail])[1..] == [tail];
    assert FeedAll([], [tail], min, max) == Drained([], tail) by { assert [tail][1..] == []; }
  }

  /** A text without white space is said as it is. */
  lemma SolidSaid(s: string)
    requires s != [] && forall i :: 0 <= i < |s| ==> !IsSpace(s[i])
    ensures Said(s) == [s]
  {
  }

  // -- the class ------------------------------------------------------------------

  class TextSegmenter {
    const minChars: int
    const maxChars: int
    var buf: string
    var lastSpace: int

    ghost predicate Valid()
      reads this
    {
      Bounded(minChars, maxChars) && lastSpace == LastOf(buf, GAPS)
    }

    constructor (minChars: int := 60, maxChars: int := 200)
      requires Bounded(minChars, maxChars)
      ensures Valid() && buf == [] && this.minChars == minChars && this.maxChars == maxChars
    {
      this.minChars, this.maxChars := minChars, maxChars;
      buf, lastSpace := [], -1;
    }

    method ResetBoundaries()
      modifies this`lastSpace
      ensures lastSpace == LastOf(buf, GAPS)
    {
      lastSpace := -1;
      TrackSpaces(0);
    }

    /** The scan never forgets an old index; it is right because the old index was
        right for a prefix of the buffer. */
    method TrackSpaces(ghost k: nat)
      requires k <= |buf| && lastSpace == LastOf(buf[..k], GAPS)
      modifies this`lastSpace
      ensures lastSpace == LastOf(buf, GAPS)
    {
      for i := 0 to |buf|
        invariant var seen := LastOf(buf[..i], GAPS);
                  lastSpace == if seen >= 0 then seen else LastOf(buf[..k], GAPS)
      {
        if IsGap(buf[i]) {
          lastSpace := i;
        }
        assert buf[..i + 1][..i] == buf[..i];
      }
      assert buf[..|buf|] == buf;
    }

    method LastBoundary() returns (boundary: int)
      ensures boundary == LastOf(buf, BOUNDARIES)
    {
      var i := |buf| - 1;
      while i >= 0
        invariant -1 <= i < |buf|
        invariant LastOf(buf[..i + 1], BOUNDARIES) == LastOf(buf, BOUNDARIES)
      {
        if IsBoundary(buf[i]) {
          return i;
        }
        assert buf[..i + 1][..i] == buf[..i];
        i := i - 1;
      }
      return -1;
    }

    /** Cut `buf` at `at` and keep `rest`; a blank segment is dropped. */
    method Emit(at: nat, rest: string, segments: seq<string>) returns (longer: seq<string>)
      requires at <= |buf|
      modifies this`buf, this`lastSpace
      ensures longer == segments + Said(old(buf)[..at])
      ensures buf == rest && lastSpace == LastOf(buf, GAPS)
    {
      var seg := Strip(buf[..at]);
      buf := rest;
      ResetBoundaries();
      longer := if seg != [] then segments + [seg] else segments;
      assert segments + [] == segments;
    }

    method CutOnce(segments: seq<string>) returns (longer: seq<string>, cut: bool)
      requires Valid()
      modifies this`buf, this`lastSpace
      ensures Valid()
      ensures cut == Step(old(buf), minChars, maxChars).Some?
      ensures cut ==> longer == segments + Said(old(buf)[..Step(old(buf), minChars, maxChars).value.at])
                      && buf == Rest(old(buf), Step(old(buf), minChars, maxChars).value)
      ensures !cut ==> longer == segments && buf == old(buf)
    {
      if |buf| < minChars {
        return segments, false;
      }
      var boundary := LastBoundary();
      if boundary >= 0 && |buf[..boundary + 1]| >= minChars {
        longer := Emit(boundary + 1, buf[boundary + 1..], segments);
        return longer, true;
      }
      if |buf| >= maxChars {
        var at := if lastSpace > minChars / 2 then lastSpace else -1;
        if at < 0 {
          at := |buf|;
        }
        longer := Emit(at, LStrip(buf[at..]), segments);
        return longer, true;
      }
      return segments, false;
    }

    method Feed(chunk: string) returns (segments: seq<string>)
      requires Valid()
      modifies this`buf, this`lastSpace
      ensures Valid()
      ensures Drained(segments, buf) == AfterFeed(old(buf), chunk, minChars, maxChars)
    {
      if chunk == [] {
        return [];
      }
      ghost var k := |buf|;
      assert (buf + chunk)[..k] == buf;
      buf := buf + chunk;
      TrackSpaces(k);
      segments := [];
      ghost var whole := Drain(buf, minChars, maxChars);
      var cut := true;
      while cut
        invariant Valid()
        invariant whole == AfterSegments(segments, Drain(buf, minChars, maxChars))
        invariant !cut ==> Step(buf, minChars, maxChars).None?
        decreases |buf|, cut
      {
        DrainUnfolds(segments, buf, minChars, maxChars);
        segments, cut := CutOnce(segments);
      }
    }

    method Flush() returns (out: string)
      requires Valid()
      modifies this
      ensures Valid() && buf == [] && out == Strip(old(buf))
    {
      out := Strip(buf);
      buf := [];
      ResetBoundaries();
    }
  }

  function AfterSegments(segments: seq<string>, d: Drained): Drained {
    Drained(segments + d.segments, d.rest)
  }

  lemma DrainUnfolds(segments: seq<string>, buf: string, min: int, max: int)
    requires Bounded(min, max)
    ensures var cut := Step(buf, min, max);
            && (cut.None? ==> Drain(buf, min, max) == Drained([], buf))
            && (cut.Some? ==>
                  && |Rest(buf, cut.value)| < |buf|
                  && AfterSegments(segments, Drain(buf, min, max))
                     == AfterSegments(segments + Said(buf[..cut.value.at]), Drain(Rest(buf, cut.value), min, max)))
  {
    if Step(buf, min, max).Some? {
      CutShrinks(buf, min, max);
    }
  }
}
