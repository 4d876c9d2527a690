/** How the chunker cuts a paragraph that is longer than a chunk, word by word. */
module HardSplit {
  import opened Text

  /** The words of each piece: `current` is being filled and counts for `len`. */
  function Groups(current: seq<string>, len: nat, words: seq<string>, size: int): seq<seq<string>>
    decreases |words|
  {
    if words == [] then if current == [] then [] else [current]
    else if len + |words[0]| + 1 > size && current != [] then
      [current] + Groups([words[0]], |words[0]|, words[1..], size)
    else Groups(current + [words[0]], len + |words[0]| + 1, words[1..], size)
  }

  function JoinEach(groups: seq<seq<string>>): (pieces: seq<string>)
    ensures |pieces| == |groups|
    ensures forall i :: 0 <= i < |groups| ==> pieces[i] == Join(groups[i], " ")
  {
    if groups == [] then [] else [Join(groups[0], " ")] + JoinEach(groups[1..])
  }

  function Flatten(groups: seq<seq<string>>): seq<string> {
    if groups == [] then [] else groups[0] + Flatten(groups[1..])
  }

  function Pieces(text: string, size: int): seq<string> {
    JoinEach(Groups([], 0, Split(text, " "), size))
  }

  function Longest(words: seq<string>): (n: nat)
    ensures forall i :: 0 <= i < |words| ==> |words[i]| <= n
    ensures words != [] ==> exists i :: 0 <= i < |words| && n == |words[i]|
  {
    if words == [] then 0
    else
      var rest := Longest(words[1..]);
      assert forall i :: 1 <= i < |words| ==> words[i] == words[1..][i - 1];
      if |words[0]| >= rest then |words[0]|
      else
        var i :| 0 <= i < |words[1..]| && rest == |words[1..][i]|;
        assert rest == |words[i + 1]|;
        rest
  }

  lemma {:induction false} GroupsKeepWords(current: seq<string>, len: nat, words: seq<string>, size: int)
    ensures var groups := Groups(current, len, words, size);
            Flatten(groups) == current + words && forall i :: 0 <= i < |groups| ==> groups[i] != []
    decreases |words|
  {
    if words == [] {
      assert current + [] == current && [current][1..] == [];
    } else if len + |words[0]| + 1 > size && current != [] {
      var rest := Groups([words[0]], |words[0]|, words[1..], size);
      GroupsKeepWords([words[0]], |words[0]|, words[1..], size);
      assert ([current] + rest)[1..] == rest;
      assert words == [words[0]] + words[1..];
    } else {
      GroupsKeepWords(current + [words[0]], len + |words[0]| + 1, words[1..], size);
      assert current + [words[0]] + words[1..] == current + words;
    }
  }

  lemma {:induction false} JoinFlatten(groups: seq<seq<string>>)
    requires forall i :: 0 <= i < |groups| ==> groups[i] != []
    ensures Join(JoinEach(groups), " ") == Join(Flatten(groups), " ")
    ensures groups != [] ==> Flatten(groups) != []
  {
    if groups != [] {
      var rest := groups[1..];
      JoinFlatten(rest);
      if rest == [] {
        assert groups[0] + [] == groups[0];
      } else {
        JoinAppend(groups[0], Flatten(rest), " ");
        assert ([Join(groups[0], " ")] + JoinEach(rest))[1..] == JoinEach(rest);
      }
    }
  }

  /** The pieces rejoin, with single spaces, to exactly the paragraph. */
  lemma PiecesRejoin(text: string, size: int)
    ensures Join(Pieces(text, size), " ") == text
  {
    var words := Split(text, " ");
    GroupsKeepWords([], 0, words, size);
    JoinFlatten(Groups([], 0, words, size));
    JoinSplit(text, " ");
    assert [] + words == words;
  }

  lemma {:induction false} GroupsAreShort(current: seq<string>, len: nat, words: seq<string>, size: int, bound: nat, i: nat)
    requires size <= bound && forall j :: 0 <= j < |words| ==> |words[j]| <= bound
    requires current != [] ==> |Join(current, " ")| <= len && |Join(current, " ")| <= bound
    requires i < |Groups(current, len, words, size)|
    ensures |Join(Groups(current, len, words, size)[i], " ")| <= bound
    decreases |words|
  {
    if words != [] {
      var w, rest := words[0], words[1..];
      assert Join([w], " ") == w;
      if len + |w| + 1 > size && current != [] {
        if i > 0 {
          GroupsAreShort([w], |w|, rest, size, bound, i - 1);
        }
      } else {
        if current == [] {
          assert current + [w] == [w];
        } else {
          JoinAppend(current, [w], " ");
        }
        GroupsAreShort(current + [w], len + |w| + 1, rest, size, bound, i);
      }
    }
  }

  /** No piece is longer than the chunk size or, where that is longer, the longest word. */
  lemma PiecesAreShort(text: string, size: int, i: nat)
    requires size > 0 && i < |Pieces(text, size)|
    ensures var longest := Longest(Split(text, " "));
            |Pieces(text, size)[i]| <= if size >= longest then size else longest
  {
    var words := Split(text, " ");
    var longest := Longest(words);
    GroupsAreShort([], 0, words, size, if size >= longest then size else longest, i);
  }

  // -- greed ----------------------------------------------------------------------

  lemma {:induction false} WordsAreSolid(text: string, i: nat)
    requires i < |Split(text, " ")|
    ensures ' ' !in Split(text, " ")[i]
    decreases |text|
  {
    var n := Find(text, " ", 0);
    FindFacts(text, " ", 0);
    forall j | 0 <= j < n
      ensures text[j] != ' '
    {
      assert !OccursAt(text, " ", j) && text[j..j + 1] == [text[j]];
    }
    if n < |text| {
      SplitAtFirst(text, " ", n);
      if i > 0 {
        WordsAreSolid(text[n + 1..], i - 1);
      }
    }
  }

  /** How much more than its length the piece being filled counts for: one while it is
      the first piece. */
  predicate CountsFor(current: seq<string>, len: nat, extra: nat) {
    if current == [] then len == 0 else len == |Join(current, " ")| + extra
  }

  /** A group of several words leaves room for what it counts for, and the next word did
      not fit any more. */
  predicate Greedy(groups: seq<seq<string>>, i: nat, extra: nat, size: int)
    requires i < |groups|
  {
    && groups[i] != []
    && (|groups[i]| > 1 ==> |Join(groups[i], " ")| + extra <= size)
    && (i + 1 < |groups| ==>
          groups[i + 1] != [] && |Join(groups[i], " ")| + extra + |groups[i + 1][0]| + 1 > size)
  }

  lemma JoinOneMore(current: seq<string>, len: nat, word: string, extra: nat)
    requires CountsFor(current, len, extra) && (current == [] ==> extra == 1)
    ensures CountsFor(current + [word], len + |word| + 1, extra)
  {
    if current == [] {
      assert current + [word] == [word];
    } else {
      JoinAppend(current, [word], " ");
    }
  }

  lemma {:induction false} GroupsStart(current: seq<string>, len: nat, words: seq<string>, size: int)
    requires current != []
    ensures var groups := Groups(current, len, words, size);
            groups != [] && groups[0] != [] && groups[0][0] == current[0]
    decreases |words|
  {
    if words != [] && len + |words[0]| + 1 <= size {
      GroupsStart(current + [words[0]], len + |words[0]| + 1, words[1..], size);
    }
  }

  lemma {:induction false} GroupsAreGreedy(current: seq<string>, len: nat, words: seq<string>, size: int,
                                           extra: nat, i: nat)
    requires CountsFor(current, len, extra) && (current == [] ==> extra == 1)
    requires |current| > 1 ==> len <= size
    requires i < |Groups(current, len, words, size)|
    ensures Greedy(Groups(current, len, words, size), i, if i == 0 then extra else 0, size)
    decreases |words|
  {
    if words != [] {
      var w, rest := words[0], words[1..];
      if len + |w| + 1 > size && current != [] {
        GroupsStart([w], |w|, rest, size);
        if i > 0 {
          GroupsAreGreedy([w], |w|, rest, size, 0, i - 1);
        }
      } else {
        JoinOneMore(current, len, w, extra);
        GroupsAreGreedy(current + [w], len + |w| + 1, rest, size, extra, i);
      }
    }
  }

  lemma {:induction false} InFlatten(groups: seq<seq<string>>, i: nat, j: nat) returns (k: nat)
    requires i < |groups| && j < |groups[i]|
    ensures k < |Flatten(groups)| && Flatten(groups)[k] == groups[i][j]
  {
    if i == 0 {
      k := j;
    } else {
      k := InFlatten(groups[1..], i - 1, j);
      k := k + |groups[0]|;
    }
  }

  /** The words of a piece are those of its group. */
  lemma PieceWords(text: string, size: int, i: nat)
    requires i < |Pieces(text, size)|
    ensures var groups := Groups([], 0, Split(text, " "), size);
            |groups| == |Pieces(text, size)| && groups[i] != [] && Split(Pieces(text, size)[i], " ") == groups[i]
  {
    var words := Split(text, " ");
    var groups := Groups([], 0, words, size);
    GroupsKeepWords([], 0, words, size);
    assert [] + words == words;
    forall j | 0 <= j < |groups[i]|
      ensures ' ' !in groups[i][j]
    {
      var k := InFlatten(groups, i, j);
      WordsAreSolid(text, k);
    }
    SplitOfJoin(groups[i], " ");
  }

  /** The packing is greedy. A piece of several words is no longer than the chunk size, and
      with a space and the first word of the next piece it would be; the length of the
      first piece counts one more. */
  lemma PiecesAreGreedy(text: string, size: int, i: nat)
    requires i < |Pieces(text, size)|
    ensures var pieces, extra := Pieces(text, size), if i == 0 then 1 else 0;
            && (|Split(pieces[i], " ")| > 1 ==> |pieces[i]| + extra <= size)
            && (i + 1 < |pieces| ==> |pieces[i]| + extra + 1 + |Split(pieces[i + 1], " ")[0]| > size)
  {
    GroupsAreGreedy([], 0, Split(text, " "), size, 1, i);
    PieceWords(text, size, i);
    if i + 1 < |Pieces(text, size)| {
      PieceWords(text, size, i + 1);
    }
  }

  method SplitWords(text: string, size: int) returns (pieces: seq<string>)
    ensures pieces == Pieces(text, size)
  {
    var words := Split(text, " ");
    pieces := [];
    var current: seq<string>, currentLen: nat := [], 0;
    for i := 0 to |words|
      invariant Pieces(text, size) == pieces + JoinEach(Groups(current, currentLen, words[i..], size))
    {
      var word := words[i];
      assert words[i..][0] == word && words[i..][1..] == words[i + 1..];
      if currentLen + |word| + 1 > size && current != [] {
        Emitted(pieces, current, Groups([word], |word|, words[i + 1..], size));
        pieces := pieces + [Join(current, " ")];
        current, currentLen := [word], |word|;
      } else {
        current, currentLen := current + [word], currentLen + |word| + 1;
      }
    }
    if current != [] {
      assert JoinEach([current]) == [Join(current, " ")];
      pieces := pieces + [Join(current, " ")];
    }
  }

  lemma Emitted(pieces: seq<string>, group: seq<string>, rest: seq<seq<string>>)
    ensures pieces + JoinEach([group] + rest) == pieces + [Join(group, " ")] + JoinEach(rest)
  {
    assert ([group] + rest)[1..] == rest;
  }
}
