/** The string operations of Python and JavaScript that the text modules use. */
module Text {
  /** `str.isspace`: what `strip` removes. */
  predicate IsSpace(c: char) {
    var n := c as int;
    9 <= n <= 13 || 28 <= n <= 32 || n == 0x85 || n == 0xA0 || n == 0x1680 || 0x2000 <= n <= 0x200A
    || n == 0x2028 || n == 0x2029 || n == 0x202F || n == 0x205F || n == 0x3000
  }

  predicate AllSpace(s: string) {
    forall i :: 0 <= i < |s| ==> IsSpace(s[i])
  }

  function LStrip(s: string): string {
    if s != [] && IsSpace(s[0]) then LStrip(s[1..]) else s
  }

  function RStrip(s: string): string {
    if s != [] && IsSpace(s[|s| - 1]) then RStrip(s[..|s| - 1]) else s
  }

  function Strip(s: string): string {
    RStrip(LStrip(s))
  }

  lemma {:induction false} LStripFacts(s: string)
    ensures var r := LStrip(s);
            |r| <= |s| && r == s[|s| - |r|..] && AllSpace(s[..|s| - |r|]) && (r != [] ==> !IsSpace(r[0]))
  {
    if s != [] && IsSpace(s[0]) {
      LStripFacts(s[1..]);
      var k := |s[1..]| - |LStrip(s)|;
      assert s[..k + 1] == [s[0]] + s[1..][..k];
      assert s[k + 1..] == s[1..][k..];
    } else {
      assert s[0..] == s && s[..0] == [];
    }
  }

  lemma {:induction false} RStripFacts(s: string)
    ensures var r := RStrip(s);
            |r| <= |s| && r == s[..|r|] && AllSpace(s[|r|..]) && (r != [] ==> !IsSpace(r[|r| - 1]))
  {
    if s != [] && IsSpace(s[|s| - 1]) {
      var n := |s| - 1;
      RStripFacts(s[..n]);
      var k := |RStrip(s)|;
      assert s[k..] == s[..n][k..] + [s[n]];
      assert s[..k] == s[..n][..k];
    } else {
      assert s[..|s|] == s && s[|s|..] == [];
    }
  }

  lemma LStripOfSpace(s: string)
    ensures LStrip(s) == [] <==> AllSpace(s)
  {
    LStripFacts(s);
  }

  /** The characters of `s` that are not whitespace, in order. */
  function Erase(s: string): string {
    if s == [] then [] else (if IsSpace(s[0]) then [] else [s[0]]) + Erase(s[1..])
  }

  function Concat(parts: seq<string>): string {
    if parts == [] then [] else parts[0] + Concat(parts[1..])
  }

  function Join(parts: seq<string>, sep: string): string {
    if parts == [] then []
    else if |parts| == 1 then parts[0]
    else parts[0] + sep + Join(parts[1..], sep)
  }

  lemma {:induction false} JoinAppend(a: seq<string>, b: seq<string>, sep: string)
    requires a != [] && b != []
    ensures Join(a + b, sep) == Join(a, sep) + sep + Join(b, sep)
  {
    assert (a + b)[1..] == a[1..] + b;
    if |a| > 1 {
      JoinAppend(a[1..], b, sep);
      Associate(a[0] + sep, Join(a[1..], sep), sep + Join(b, sep));
    }
  }

  lemma Associate(a: string, b: string, c: string)
    ensures a + (b + c) == (a + b) + c
  {
  }

  // -- split ----------------------------------------------------------------------

  predicate OccursAt(s: string, sep: string, i: nat) {
    i + |sep| <= |s| && s[i..i + |sep|] == sep
  }

  /** The first occurrence of `sep` at or after `from`, or `|s|` when there is none. */
  function Find(s: string, sep: string, from: nat): (i: nat)
    requires from <= |s|
    ensures from <= i <= |s| && (i < |s| ==> i + |sep| <= |s|)
    decreases |s| - from
  {
    if from == |s| then from
    else if OccursAt(s, sep, from) then from
    else Find(s, sep, from + 1)
  }

  lemma {:induction false} FindFacts(s: string, sep: string, from: nat)
    requires from <= |s|
    ensures var i := Find(s, sep, from);
            && (i < |s| ==> OccursAt(s, sep, i))
            && forall j :: from <= j < i ==> !OccursAt(s, sep, j)
    decreases |s| - from
  {
    if from < |s| && !OccursAt(s, sep, from) {
      FindFacts(s, sep, from + 1);
    }
  }

  function Split(s: string, sep: string): (parts: seq<string>)
    requires sep != []
    ensures |parts| >= 1
    decreases |s|
  {
    var i := Find(s, sep, 0);
    if i == |s| then [s] else [s[..i]] + Split(s[i + |sep|..], sep)
  }

  lemma SplitWhole(s: string, sep: string)
    requires sep != [] && Find(s, sep, 0) == |s|
    ensures Split(s, sep) == [s]
  {
  }

  lemma FindPrefix(a: string, b: string, sep: string)
    requires sep != [] && Find(a, sep, 0) < |a|
    ensures Find(a + b, sep, 0) == Find(a, sep, 0)
  {
    var i, j := Find(a, sep, 0), Find(a + b, sep, 0);
    FindFacts(a, sep, 0);
    FindFacts(a + b, sep, 0);
    assert (a + b)[i..i + |sep|] == a[i..i + |sep|];
    assert OccursAt(a + b, sep, i);
    assert j < i ==> a[j..j + |sep|] == (a + b)[j..j + |sep|];
    assert j < i ==> OccursAt(a, sep, j);
  }

  lemma SplitAtFirst(s: string, sep: string, i: nat)
    requires sep != [] && i == Find(s, sep, 0) < |s|
    ensures i + |sep| <= |s| && Split(s, sep) == [s[..i]] + Split(s[i + |sep|..], sep)
  {
  }

  lemma SplitFound(a: string, b: string, sep: string, i: nat)
    requires sep != [] && i == Find(a, sep, 0) < |a|
    ensures i + |sep| <= |a|
    ensures Split(a, sep) == [a[..i]] + Split(a[i + |sep|..], sep)
    ensures Split(a + b, sep) == [a[..i]] + Split(a[i + |sep|..] + b, sep)
  {
    FindPrefix(a, b, sep);
    SplitAtFirst(a, sep, i);
    SplitAtFirst(a + b, sep, i);
    assert (a + b)[i + |sep|..] == a[i + |sep|..] + b && (a + b)[..i] == a[..i];
  }

  lemma Reassemble(h: string, tail: seq<string>, more: seq<string>)
    requires tail != []
    ensures var parts := [h] + tail;
            parts[|parts| - 1] == tail[|tail| - 1]
            && parts[..|parts| - 1] + more == [h] + (tail[..|tail| - 1] + more)
  {
    assert ([h] + tail)[..|tail|] == [h] + tail[..|tail| - 1];
  }

  /** Splitting can be resumed: all parts but the last are final, and what comes
      next continues the last one, even in the middle of a separator. */
  lemma {:induction false} SplitResumes(a: string, b: string, sep: string)
    requires sep != []
    ensures var parts := Split(a, sep);
            Split(a + b, sep) == parts[..|parts| - 1] + Split(parts[|parts| - 1] + b, sep)
    decreases |a|
  {
    var i := Find(a, sep, 0);
    if i < |a| {
      SplitFound(a, b, sep, i);
      var rest := a[i + |sep|..];
      SplitResumes(rest, b, sep);
      var tail := Split(rest, sep);
      Reassemble(a[..i], tail, Split(tail[|tail| - 1] + b, sep));
    }
  }

  lemma {:induction false} JoinSplit(s: string, sep: string)
    requires sep != []
    ensures Join(Split(s, sep), sep) == s
    decreases |s|
  {
    var i := Find(s, sep, 0);
    FindFacts(s, sep, 0);
    if i < |s| {
      var rest := Split(s[i + |sep|..], sep);
      JoinSplit(s[i + |sep|..], sep);
      assert ([s[..i]] + rest)[1..] == rest;
      assert s == s[..i] + s[i..i + |sep|] + s[i + |sep|..];
    }
  }

  /** Parts without the separator's first character come back from their join. */
  lemma {:induction false} SplitOfJoin(parts: seq<string>, sep: string)
    requires parts != [] && sep != []
    requires forall i, j :: 0 <= i < |parts| && 0 <= j < |parts[i]| ==> parts[i][j] != sep[0]
    ensures Split(Join(parts, sep), sep) == parts
    decreases |parts|
  {
    var part, s := parts[0], Join(parts, sep);
    if |parts| == 1 {
      FindSkips(s, sep, 0, |s|);
      SplitWhole(s, sep);
    } else {
      var rest := Join(parts[1..], sep);
      assert s == part + (sep + rest);
      assert s[|part|..|part| + |sep|] == sep;
      assert OccursAt(s, sep, |part|);
      FindSkips(s, sep, 0, |part|);
      assert Find(s, sep, |part|) == |part|;
      SplitAtFirst(s, sep, |part|);
      SplitOfJoin(parts[1..], sep);
      assert s[..|part|] == part && s[|part| + |sep|..] == rest;
    }
  }

  /** The search walks over characters that cannot begin the separator. */
  lemma {:induction false} FindSkips(s: string, sep: string, i: nat, j: nat)
    requires i <= j <= |s| && sep != []
    requires forall k :: i <= k < j ==> s[k] != sep[0]
    ensures Find(s, sep, i) == Find(s, sep, j)
    decreases j - i
  {
    if i < j {
      FindSkips(s, sep, i + 1, j);
    }
  }

  // -- erasure --------------------------------------------------------------------

  lemma {:induction false} EraseConcat(a: string, b: string)
    ensures Erase(a + b) == Erase(a) + Erase(b)
  {
    if a == [] {
      assert a + b == b;
    } else {
      assert (a + b)[1..] == a[1..] + b;
      EraseConcat(a[1..], b);
    }
  }

  lemma {:induction false} EraseSpace(s: string)
    requires AllSpace(s)
    ensures Erase(s) == []
  {
    if s != [] {
      EraseSpace(s[1..]);
    }
  }

  lemma EraseEnds(before: string, s: string, after: string)
    requires AllSpace(before) && AllSpace(after)
    ensures Erase(before + s) == Erase(s) == Erase(s + after)
  {
    EraseConcat(before, s);
    EraseConcat(s, after);
    EraseSpace(before);
    EraseSpace(after);
  }

  lemma EraseStrip(s: string)
    ensures Erase(Strip(s)) == Erase(s)
  {
    var l := LStrip(s);
    LStripFacts(s);
    assert s == s[..|s| - |l|] + l;
    EraseEnds(s[..|s| - |l|], l, []);
    var r := RStrip(l);
    RStripFacts(l);
    assert l == r + l[|r|..];
    EraseEnds([], r, l[|r|..]);
  }

  lemma {:induction false} EraseEmpty(s: string)
    ensures Erase(s) == [] <==> AllSpace(s)
  {
    if s != [] {
      EraseEmpty(s[1..]);
      assert AllSpace(s) <==> IsSpace(s[0]) && AllSpace(s[1..]);
    }
  }

  lemma StripEmpty(s: string)
    ensures Strip(s) == [] <==> AllSpace(s)
  {
    EraseStrip(s);
    EraseEmpty(s);
    EraseEmpty(Strip(s));
    RStripFacts(LStrip(s));
  }

  lemma {:induction false} ConcatAppend(a: seq<string>, b: seq<string>)
    ensures Concat(a + b) == Concat(a) + Concat(b)
  {
    if a == [] {
      assert a + b == b;
    } else {
      assert (a + b)[1..] == a[1..] + b;
      ConcatAppend(a[1..], b);
    }
  }

  /** Joining with whitespace, or with nothing, is the same up to whitespace. */
  lemma {:induction false} EraseJoin(parts: seq<string>)
    ensures Erase(Join(parts, " ")) == Erase(Concat(parts))
  {
    if |parts| > 1 {
      EraseJoin(parts[1..]);
      EraseConcat(parts[0] + " ", Join(parts[1..], " "));
      EraseConcat(parts[0], " ");
      EraseConcat(parts[0], Concat(parts[1..]));
      EraseSpace(" ");
    } else if |parts| == 1 {
      assert parts[1..] == [] && parts[0] + [] == parts[0];
    }
  }

  // -- covering -------------------------------------------------------------------

  /** A stripped text, unless it is blank. */
  function Said(s: string): seq<string> {
    var seg := Strip(s);
    if seg == [] then [] else [seg]
  }

  /** `text` is the segments in order, with nothing but white space around them. */
  predicate Covers(text: string, segments: seq<string>)
    decreases |segments|
  {
    var t := LStrip(text);
    if segments == [] then t == []
    else segments[0] != [] && segments[0] <= t && Covers(t[|segments[0]|..], segments[1..])
  }

  lemma {:induction false} LStripConcat(a: string, b: string)
    ensures LStrip(a + b) == if LStrip(a) == [] then LStrip(b) else LStrip(a) + b
  {
    if a == [] {
      assert a + b == b;
    } else if IsSpace(a[0]) {
      assert (a + b)[1..] == a[1..] + b;
      LStripConcat(a[1..], b);
    }
  }

  lemma {:induction false} CoversConcat(a: string, xs: seq<string>, b: string, ys: seq<string>)
    requires Covers(a, xs) && Covers(b, ys)
    ensures Covers(a + b, xs + ys)
    decreases |xs|
  {
    LStripConcat(a, b);
    if xs == [] {
      assert xs + ys == ys;
    } else {
      var t := LStrip(a);
      CoversConcat(t[|xs[0]|..], xs[1..], b, ys);
      assert (t + b)[|xs[0]|..] == t[|xs[0]|..] + b && (xs + ys)[1..] == xs[1..] + ys;
    }
  }

  lemma LStripTwice(s: string)
    ensures LStrip(LStrip(s)) == LStrip(s)
  {
    LStripFacts(s);
  }

  lemma SaidCovers(s: string)
    ensures Covers(s, Said(s))
  {
    var t := LStrip(s);
    var seg := RStrip(t);
    RStripFacts(t);
    LStripOfSpace(t[|seg|..]);
    if seg != [] {
      assert [seg][1..] == [];
    } else {
      LStripTwice(s);
    }
  }

  lemma {:induction false} CoversErase(text: string, segments: seq<string>)
    requires Covers(text, segments)
    ensures Erase(text) == Erase(Concat(segments))
    decreases |segments|
  {
    var t := LStrip(text);
    LStripFacts(text);
    assert text == text[..|text| - |t|] + t;
    EraseEnds(text[..|text| - |t|], t, []);
    if segments != [] {
      var rest := t[|segments[0]|..];
      CoversErase(rest, segments[1..]);
      assert t == segments[0] + rest;
      EraseConcat(segments[0], rest);
      EraseConcat(segments[0], Concat(segments[1..]));
    }
  }
}
