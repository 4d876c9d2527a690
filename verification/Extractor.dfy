/** The stream extractor: it lets only the question text through to speech. */
module Extractor {
  import opened Text
  import opened QuestionText

  /** What one line before the metadata adds to speech. The slice is taken from the
      line as it came, not from the stripped line the test looked at. */
  function SpokenLine(line: string): seq<string> {
    if IsHeader(Strip(line)) then
      var rest := if |line| < |HEADER| then [] else line[|HEADER|..];
      if Strip(rest) == [] then [] else [rest]
    else [line]
  }

  function SpokenLines(lines: seq<string>): seq<string> {
    if lines == [] then [] else SpokenLine(lines[0]) + SpokenLines(lines[1..])
  }

  /** All the extractor lets through of a whole text: feeds, then the flush. */
  function Extracted(text: string): seq<string> {
    SpokenLines(Front(Lines(text)))
  }

  /** What the complete lines of a text let through, and whether they end the question. */
  function Passed(text: string): seq<string> {
    SpokenLines(Front(Complete(text)))
  }

  predicate Ended(text: string) {
    HasMeta(Complete(text))
  }

  lemma {:induction false} SpokenLinesAppend(a: seq<string>, b: seq<string>)
    ensures SpokenLines(a + b) == SpokenLines(a) + SpokenLines(b)
  {
    if a == [] {
      assert a + b == b;
    } else {
      SpokenLinesAppend(a[1..], b);
      assert (a + b)[1..] == a[1..] + b;
    }
  }

  /** Once a complete metadata line is in, no later text changes what is let through. */
  lemma MetadataEndsSpeech(text: string, later: string)
    requires HasMeta(Complete(text))
    ensures Extracted(text + later) == Extracted(text)
  {
    LinesResume(text, later);
    var here := Complete(text);
    var rest := Lines(Partial(text) + later);
    var tail := if Partial(text) == [] then [] else [Partial(text)];
    assert Lines(text + later) == here + rest;
    FrontAppend(here, rest);
    FrontAppend(here, tail);
  }

  class QuestionStreamExtractor {
    var buf: string
    var inQuestion: bool
    var done: bool
    ghost var seen: string
    ghost var passed: seq<string>

    /** What has been let through is what the complete lines so far say. */
    ghost predicate Valid()
      reads this
    {
      && passed == Passed(seen)
      && done == Ended(seen)
      && (!done ==> buf == Partial(seen))
    }

    constructor ()
      ensures Valid() && seen == [] && passed == [] && !done
    {
      buf, inQuestion, done := [], false, false;
      seen, passed := [], [];
    }

    method ProcessLine(line: string) returns (out: seq<string>)
      modifies this`inQuestion, this`done
      ensures done == (old(done) || MetaLine(line))
      ensures out == if MetaLine(line) then [] else SpokenLine(line)
    {
      var stripped := Strip(line);
      if IsMeta(stripped) {
        done := true;
        return [];
      }
      if IsHeader(stripped) {
        inQuestion := true;
        var rest := if |line| < |HEADER| then [] else line[|HEADER|..];
        return if Strip(rest) != [] then [rest] else [];
      }
      return [line];
    }

    method TakeLines() returns (out: seq<string>)
      requires !done
      modifies this`buf, this`inQuestion, this`done
      ensures out == Passed(old(buf)) && done == Ended(old(buf))
      ensures !done ==> buf == Partial(old(buf))
    {
      out := [];
      ghost var lines, all := [], buf;
      while Find(buf, "\n", 0) < |buf|
        invariant !done && out == SpokenLines(lines) && Taken(all, lines, buf)
        decreases |buf|
      {
        var i := Find(buf, "\n", 0);
        var line := buf[..i];
        LineTaken(all, lines, buf, i);
        var said := ProcessLine(line);
        buf := buf[i + 1..];
        out := out + said;
        if done {
          return;
        }
        lines := lines + [line];
      }
      Finished(all, lines, buf);
    }

    method Feed(token: string) returns (out: seq<string>)
      requires Valid()
      modifies this
      ensures Valid()
      ensures seen == old(seen) + token && passed == old(passed) + out
    {
      PassedGrows(seen, token);
      seen := seen + token;
      if done {
        return [];
      }
      if token == [] {
        assert seen == old(seen);
        return [];
      }
      buf := buf + token;
      out := TakeLines();
      passed := passed + out;
    }

    /** Process the unfinished last line; afterwards all of the text has been seen. */
    method Flush() returns (out: seq<string>)
      requires Valid()
      modifies this
      ensures old(passed) + out == Extracted(old(seen))
    {
      ghost var tail := if Partial(seen) == [] then [] else [Partial(seen)];
      FrontAppend(Complete(seen), tail);
      SpokenLinesAppend(Complete(seen), Front(tail));
      if done || buf == [] {
        return [];
      }
      var line := buf;
      buf := [];
      out := ProcessLine(line);
    }
  }

  lemma PassedGrows(a: string, b: string)
    ensures Ended(a + b) <==> Ended(a) || Ended(Partial(a) + b)
    ensures Passed(a + b) == Passed(a) + if Ended(a) then [] else Passed(Partial(a) + b)
    ensures Partial(a + b) == Partial(Partial(a) + b)
  {
    LinesResume(a, b);
    var more := Complete(Partial(a) + b);
    FrontAppend(Complete(a), more);
    SpokenLinesAppend(Complete(a), Front(more));
  }

  /** `lines` have been taken off the front of `all`, leaving `buf`, and none ends the question. */
  ghost predicate Taken(all: string, lines: seq<string>, buf: string) {
    !HasMeta(lines) && Split(all, "\n") == lines + Split(buf, "\n")
  }

  lemma CompleteOf(all: string, lines: seq<string>, buf: string)
    requires Split(all, "\n") == lines + Split(buf, "\n")
    ensures Complete(all) == lines + Complete(buf)
  {
    var tail := Split(buf, "\n");
    assert (lines + tail)[..|lines + tail| - 1] == lines + tail[..|tail| - 1];
  }

  lemma NextLine(lines: seq<string>, buf: string, i: nat)
    requires i == Find(buf, "\n", 0) < |buf|
    ensures lines + Split(buf, "\n") == (lines + [buf[..i]]) + Split(buf[i + 1..], "\n")
  {
    SplitFound(buf, [], "\n", i);
  }

  lemma LineDone(lines: seq<string>, line: string, more: seq<string>)
    requires !HasMeta(lines)
    ensures HasMeta(lines + [line]) <==> MetaLine(line)
    ensures MetaLine(line) ==> HasMeta(lines + [line] + more) && Front(lines + [line] + more) == lines
    ensures SpokenLines(lines + [line]) == SpokenLines(lines) + SpokenLine(line)
  {
    FrontAppend(lines, [line]);
    FrontAppend(lines + [line], more);
    SpokenLinesAppend(lines, [line]);
    assert lines + [] == lines && [line][1..] == [];
  }

  lemma LineTaken(all: string, lines: seq<string>, buf: string, i: nat)
    requires Taken(all, lines, buf) && i == Find(buf, "\n", 0) < |buf|
    ensures var line := buf[..i];
            && (MetaLine(line) ==> Ended(all) && Passed(all) == SpokenLines(lines))
            && (!MetaLine(line) ==> Taken(all, lines + [line], buf[i + 1..])
                                    && SpokenLines(lines + [line]) == SpokenLines(lines) + SpokenLine(line))
  {
    var line, rest := buf[..i], buf[i + 1..];
    NextLine(lines, buf, i);
    CompleteOf(all, lines + [line], rest);
    LineDone(lines, line, Complete(rest));
  }

  lemma Finished(all: string, lines: seq<string>, buf: string)
    requires Taken(all, lines, buf) && Find(buf, "\n", 0) == |buf|
    ensures Passed(all) == SpokenLines(lines) && Partial(all) == buf && !Ended(all)
  {
    SplitWhole(buf, "\n");
    LastLine(lines, buf);
    FrontAppend(lines, []);
    assert lines + [] == lines;
  }

  lemma LastLine(lines: seq<string>, line: string)
    ensures (lines + [line])[..|lines|] == lines && (lines + [line])[|lines|] == line
  {
  }
}
