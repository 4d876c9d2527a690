/** How long a packed chunk can get: the bound that always holds, and exactly when the
    documented one does. */
module ChunkerBounds {
  import opened Chunker
  import opened ChunkerLaws
  import opened Paragraphs
  import opened Text

  lemma {:induction false} JoinCost(paras: seq<string>)
    requires paras != []
    ensures |Join(paras, BLANK)| == Cost(paras) - 2
  {
    var n := |paras| - 1;
    if n > 0 {
      JoinCost(paras[..n]);
      assert paras == paras[..n] + [paras[n]];
      JoinAppend(paras[..n], [paras[n]], BLANK);
    } else {
      assert paras[..0] == [];
    }
  }

  /** Every packed chunk is at most `bound` long. */
  predicate Within(entries: seq<Entry>, bound: int) {
    forall i :: 0 <= i < |entries| ==> Fits(entries[i], bound)
  }

  predicate Fits(entry: Entry, bound: int) {
    entry.Packed? ==> |Join(entry.carry + entry.added, BLANK)| <= bound
  }

  /** A non-empty buffer is either within the bound or only a carry. */
  predicate Bounded(plan: Plan, size: int, overlap: int) {
    && Within(plan.entries, size + overlap)
    && (plan.carry != [] ==> Cost(plan.carry) <= overlap)
    && (plan.added != [] ==> Cost(Buffer(plan)) - 2 <= size + overlap)
  }

  lemma KeptCost(buffer: seq<string>, overlap: int)
    ensures Kept(buffer, overlap) != [] ==> Cost(Kept(buffer, overlap)) <= overlap
  {
    KeptFacts(buffer, overlap);
  }

  lemma PackedFits(carry: seq<string>, added: seq<string>, start: nat, bound: int)
    requires carry + added != [] && Cost(carry + added) - 2 <= bound
    ensures Fits(Packed(carry, added, start), bound)
  {
    JoinCost(carry + added);
  }

  lemma FlushBounded(plan: Plan, size: int, overlap: int)
    requires size > 0 && overlap >= 0 && Bounded(plan, size, overlap)
    ensures Bounded(Flushed(plan, overlap), size, overlap)
  {
    if Buffer(plan) != [] {
      KeptCost(Buffer(plan), overlap);
      if plan.added == [] {
        assert Buffer(plan) == plan.carry;
      }
      PackedFits(plan.carry, plan.added, plan.start, size + overlap);
    }
  }

  lemma AddBounded(plan: Plan, para: Para, size: int, overlap: int)
    requires size > 0 && overlap >= 0 && Bounded(plan, size, overlap) && |para.text| <= size
    requires plan.added == [] || BufferLen(plan) + |para.text| + 2 <= size
    ensures Bounded(AddPara(plan, para), size, overlap)
  {
    assert Buffer(AddPara(plan, para)) == Buffer(plan) + [para.text];
    CostAdd(Buffer(plan), para.text);
    if plan.added == [] {
      assert Buffer(plan) == plan.carry;
    }
  }

  lemma ParaBounded(plan: Plan, para: Para, size: int, overlap: int)
    requires size > 0 && overlap >= 0 && Bounded(plan, size, overlap)
    ensures Bounded(OnPara(plan, para, size, overlap), size, overlap)
  {
    FlushBounded(plan, size, overlap);
    if |para.text| > size {
    } else if BufferLen(plan) + |para.text| + 2 > size && Buffer(plan) != [] {
      AddBounded(Flushed(plan, overlap), para, size, overlap);
    } else {
      AddBounded(plan, para, size, overlap);
    }
  }

  lemma {:induction false} PlanBounded(paras: seq<Para>, n: nat, size: int, overlap: int)
    requires n <= |paras| && size > 0 && overlap >= 0
    ensures Bounded(Planned(paras, n, size, overlap), size, overlap)
  {
    if n > 0 {
      PlanBounded(paras, n - 1, size, overlap);
      ParaBounded(Planned(paras, n - 1, size, overlap), paras[n - 1], size, overlap);
    }
  }

  /** No packed chunk is longer than the chunk size plus the overlap. */
  lemma PackedWithinSum(content: string, size: int, overlap: int)
    requires size > 0 && overlap >= 0
    ensures Within(EntriesOf(content, size, overlap), size + overlap)
  {
    var paras := ParasOf(content);
    PlanBounded(paras, |paras|, size, overlap);
    FlushBounded(Planned(paras, |paras|, size, overlap), size, overlap);
  }

  // -- the documented bound -------------------------------------------------------

  /** Settings under which a flush can never carry anything: a paragraph and its separator
      do not fit the overlap, two paragraphs do not fit a chunk, or whole chunks fit. */
  predicate NeverCarries(size: int, overlap: int) {
    overlap < 3 || size < 6 || overlap >= size
  }

  /** Nothing is carried, and what is packed fits. */
  predicate Plain(plan: Plan, size: int) {
    && Within(plan.entries, size) && plan.carry == []
    && (forall i :: 0 <= i < |plan.added| ==> 1 <= |plan.added[i]| <= size)
    && (|plan.added| > 1 ==> Cost(plan.added) <= size)
  }

  lemma {:induction false} CostOfMany(paras: seq<string>)
    requires forall i :: 0 <= i < |paras| ==> |paras[i]| >= 1
    ensures Cost(paras) >= 3 * |paras|
  {
    if paras != [] {
      CostOfMany(paras[..|paras| - 1]);
    }
  }

  lemma NothingKept(plan: Plan, size: int, overlap: int)
    requires NeverCarries(size, overlap) && Plain(plan, size)
    ensures Kept(plan.added, overlap) == []
  {
    var buffer := plan.added;
    var kept := Kept(buffer, overlap);
    KeptFacts(buffer, overlap);
    if |buffer| > 1 {
      CostOfMany(buffer);
      if kept != [] {
        CostOfMany(kept);
        assert false;
      }
    }
  }

  lemma FlushPlain(plan: Plan, size: int, overlap: int)
    requires NeverCarries(size, overlap) && Plain(plan, size)
    ensures Plain(Flushed(plan, overlap), size) && Buffer(Flushed(plan, overlap)) == []
  {
    assert Buffer(plan) == plan.added;
    NothingKept(plan, size, overlap);
    if plan.added != [] {
      JoinCost(plan.added);
      if |plan.added| == 1 {
        assert plan.added[..0] == [];
      }
    }
  }

  lemma AddPlain(plan: Plan, para: Para, size: int)
    requires Plain(plan, size) && 1 <= |para.text| <= size
    requires plan.added == [] || BufferLen(plan) + |para.text| + 2 <= size
    ensures Plain(AddPara(plan, para), size)
  {
    assert Buffer(plan) == plan.added;
    CostAdd(plan.added, para.text);
  }

  lemma CutPlain(plan: Plan, para: Para, size: int)
    requires Plain(plan, size)
    ensures Plain(AddCut(plan, para.text, para.offset), size)
  {
  }

  lemma ParaPlain(plan: Plan, para: Para, size: int, overlap: int)
    requires NeverCarries(size, overlap) && Plain(plan, size) && |para.text| >= 1
    ensures Plain(OnPara(plan, para, size, overlap), size)
  {
    var flushed := Flushed(plan, overlap);
    FlushPlain(plan, size, overlap);
    if |para.text| > size {
      CutPlain(flushed, para, size);
    } else if BufferLen(plan) + |para.text| + 2 > size && Buffer(plan) != [] {
      AddPlain(flushed, para, size);
    } else {
      assert Buffer(plan) == [] ==> plan.added == [];
      AddPlain(plan, para, size);
    }
  }

  lemma {:induction false} PlanPlain(paras: seq<Para>, n: nat, size: int, overlap: int)
    requires n <= |paras| && NeverCarries(size, overlap) && forall i :: 0 <= i < |paras| ==> |paras[i].text| >= 1
    ensures Plain(Planned(paras, n, size, overlap), size)
  {
    if n > 0 {
      PlanPlain(paras, n - 1, size, overlap);
      ParaPlain(Planned(paras, n - 1, size, overlap), paras[n - 1], size, overlap);
    }
  }

  lemma PlainWithinSize(content: string, size: int, overlap: int)
    requires NeverCarries(size, overlap)
    ensures Within(EntriesOf(content, size, overlap), size)
  {
    var paras := ParasOf(content);
    OffsetsAreExact(content);
    assert forall i :: 0 <= i < |paras| ==> Stands(content, paras[i]);
    PlanPlain(paras, |paras|, size, overlap);
    FlushPlain(Planned(paras, |paras|, size, overlap), size, overlap);
  }

  function Xs(n: nat): (s: string)
    ensures |s| == n && forall i :: 0 <= i < n ==> s[i] == 'x'
  {
    seq(n, _ => 'x')
  }

  lemma XsStripped(n: nat)
    requires n > 0
    ensures Strip(Xs(n)) == Xs(n) != []
  {
  }

  /** Three paragraphs: the second is carried, and the third fills a chunk on its own. */
  function LongParts(size: int): seq<string>
    requires size >= 6
  {
    [Xs(size - 5), Xs(1), Xs(size)]
  }

  lemma LongParas(size: int)
    requires size >= 6
    ensures var paras := ParasOf(Join(LongParts(size), BLANK));
            && |paras| == 3 && paras[0].text == Xs(size - 5) && paras[1].text == Xs(1) && paras[2].text == Xs(size)
  {
    var parts := LongParts(size);
    XsStripped(size - 5);
    XsStripped(1);
    XsStripped(size);
    SplitOfJoin(parts, BLANK);
    var paras := NormalParas(parts, 3);
  }

  lemma CostOfTwo(a: string, b: string)
    ensures Cost([a]) == |a| + 2 && Cost([a, b]) == |a| + |b| + 4
  {
    assert [a][..0] == [] && [a, b][..1] == [a];
  }

  lemma KeptOfTwo(a: string, b: string, overlap: int)
    requires |b| + 2 <= overlap < |a| + |b| + 4
    ensures Kept([a, b], overlap) == [b]
  {
    assert [a, b][..1] == [a] && [a][..0] == [];
    assert Tail([a], overlap - |b| - 2) == [];
  }

  lemma LongPlan(size: int, overlap: int)
    requires !NeverCarries(size, overlap)
    ensures var paras := ParasOf(Join(LongParts(size), BLANK));
            |paras| == 3 &&
            var plan := Planned(paras, 3, size, overlap);
            plan.carry == [Xs(1)] && plan.added == [Xs(size)]
  {
    var paras := ParasOf(Join(LongParts(size), BLANK));
    LongParas(size);
    var a, b, c := Xs(size - 5), Xs(1), Xs(size);
    CostOfTwo(a, b);
    KeptOfTwo(a, b, overlap);
    var one, two, three :=
      Planned(paras, 1, size, overlap), Planned(paras, 2, size, overlap), Planned(paras, 3, size, overlap);
    assert Planned(paras, 0, size, overlap) == EMPTY_PLAN;
    assert one.carry == [] && one.added == [a] && Buffer(one) == [a];
    assert two.carry == [] && two.added == [a, b] && Buffer(two) == [a, b];
    assert three.carry == [b] && three.added == [c];
  }

  /** The documented bound - no packed chunk exceeds the chunk size - holds for every
      document exactly under settings that never carry anything over. */
  lemma DocumentedBound(size: int, overlap: int)
    requires size > 0 && overlap >= 0
    ensures (forall content: string :: Within(EntriesOf(content, size, overlap), size)) <==> NeverCarries(size, overlap)
  {
    if NeverCarries(size, overlap) {
      forall content: string
        ensures Within(EntriesOf(content, size, overlap), size)
      {
        PlainWithinSize(content, size, overlap);
      }
    } else {
      LongChunk(size, overlap);
    }
  }

  lemma LongChunk(size: int, overlap: int)
    requires !NeverCarries(size, overlap)
    ensures !Within(EntriesOf(Join(LongParts(size), BLANK), size, overlap), size)
  {
    var content := Join(LongParts(size), BLANK);
    var paras, entries := ParasOf(content), EntriesOf(content, size, overlap);
    LongPlan(size, overlap);
    var plan := Planned(paras, 3, size, overlap);
    assert Buffer(plan) == [Xs(1), Xs(size)];
    CostOfTwo(Xs(1), Xs(size));
    JoinCost(Buffer(plan));
    assert entries[|entries| - 1] == Packed(plan.carry, plan.added, plan.start);
    assert !Fits(entries[|entries| - 1], size);
  }
}
