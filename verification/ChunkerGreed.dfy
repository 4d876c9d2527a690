/** The packing is greedy: a chunk is closed only when the next paragraph does not fit, and
    only an oversized paragraph is cut. */
module ChunkerGreed {
  import opened Chunker
  import opened ChunkerBounds
  import opened Paragraphs
  import opened Text

  /** What a buffer counts for: its text and, unless it began with a carry, a separator. */
  function Counted(carry: seq<string>, added: seq<string>): nat {
    |Join(carry + added, BLANK)| + if carry == [] then 2 else 0
  }

  /** Only an oversized paragraph is cut. A chunk with several new paragraphs fits. */
  predicate Sized(entry: Entry, size: int) {
    match entry
    case Cut(text, _) => |text| > size
    case Packed(carry, added, _) =>
      && (forall p :: p in added ==> |p| <= size)
      && (|added| > 1 ==> Counted(carry, added) <= size)
  }

  /** A chunk is followed by a cut paragraph, or by a chunk whose first new paragraph did not fit. */
  predicate Tight(entry: Entry, next: Entry, size: int) {
    entry.Packed? && next.Packed? ==>
      next.added != [] && Counted(entry.carry, entry.added) + |next.added[0]| + 2 > size
  }

  predicate GreedyChain(entries: seq<Entry>, size: int) {
    entries == [] ||
    (var before, last := entries[..|entries| - 1], entries[|entries| - 1];
     && GreedyChain(before, size) && Sized(last, size)
     && (before != [] ==> Tight(before[|before| - 1], last, size)))
  }

  lemma ChainAdd(entries: seq<Entry>, entry: Entry, size: int)
    requires GreedyChain(entries, size) && Sized(entry, size)
    requires entries != [] ==> Tight(entries[|entries| - 1], entry, size)
    ensures GreedyChain(entries + [entry], size)
  {
    assert (entries + [entry])[..|entries|] == entries;
  }

  /** What the buffer would be as a chunk. */
  function Open(plan: Plan): Entry {
    Packed(plan.carry, plan.added, plan.start)
  }

  predicate Greedy(plan: Plan, size: int) {
    && GreedyChain(plan.entries, size) && Sized(Open(plan), size)
    && (plan.entries != [] ==> Tight(plan.entries[|plan.entries| - 1], Open(plan), size))
  }

  lemma FlushGreedy(plan: Plan, size: int, overlap: int)
    requires Greedy(plan, size)
    ensures GreedyChain(Flushed(plan, overlap).entries, size)
  {
    if Buffer(plan) != [] {
      ChainAdd(plan.entries, Open(plan), size);
    }
  }

  lemma CountedIs(plan: Plan)
    requires Buffer(plan) != []
    ensures BufferLen(plan) == Counted(plan.carry, plan.added)
  {
    JoinCost(Buffer(plan));
  }

  lemma AddSized(plan: Plan, para: Para, size: int)
    requires Sized(Open(plan), size) && |para.text| <= size
    requires plan.added == [] || BufferLen(plan) + |para.text| + 2 <= size
    ensures Sized(Open(AddPara(plan, para)), size)
  {
    AppendedIs(plan, para);
    CountedIs(AddPara(plan, para));
  }

  /** The paragraph joins the open chunk. */
  lemma JoinGreedy(plan: Plan, para: Para, size: int)
    requires Greedy(plan, size) && |para.text| <= size
    requires Buffer(plan) == [] || BufferLen(plan) + |para.text| + 2 <= size
    ensures Greedy(AddPara(plan, para), size)
  {
    AddSized(plan, para, size);
    if plan.added == [] && plan.entries != [] {
      assert plan.entries[|plan.entries| - 1].Cut?;
    }
  }

  /** The paragraph does not fit and begins the next chunk. */
  lemma NextGreedy(plan: Plan, para: Para, size: int, overlap: int)
    requires Greedy(plan, size) && |para.text| <= size && Buffer(plan) != []
    requires BufferLen(plan) + |para.text| + 2 > size
    ensures Greedy(AddPara(Flushed(plan, overlap), para), size)
  {
    FlushGreedy(plan, size, overlap);
    CountedIs(plan);
    AddSized(Flushed(plan, overlap), para, size);
  }

  lemma CutGreedy(plan: Plan, para: Para, size: int, overlap: int)
    requires Greedy(plan, size) && |para.text| > size
    ensures Greedy(AddCut(Flushed(plan, overlap), para.text, para.offset), size)
  {
    FlushGreedy(plan, size, overlap);
    ChainAdd(Flushed(plan, overlap).entries, Cut(para.text, para.offset), size);
    assert Buffer(plan) == [] ==> plan.added == [];
  }

  lemma {:induction false} PlanGreedy(paras: seq<Para>, n: nat, size: int, overlap: int)
    requires n <= |paras|
    ensures Greedy(Planned(paras, n, size, overlap), size)
  {
    if n > 0 {
      var plan, para := Planned(paras, n - 1, size, overlap), paras[n - 1];
      PlanGreedy(paras, n - 1, size, overlap);
      if |para.text| > size {
        CutGreedy(plan, para, size, overlap);
      } else if BufferLen(plan) + |para.text| + 2 > size && Buffer(plan) != [] {
        NextGreedy(plan, para, size, overlap);
      } else {
        JoinGreedy(plan, para, size);
      }
    }
  }

  lemma {:induction false} ChainAt(entries: seq<Entry>, size: int, i: nat)
    requires GreedyChain(entries, size) && i < |entries|
    ensures Sized(entries[i], size) && (i + 1 < |entries| ==> Tight(entries[i], entries[i + 1], size))
  {
    if i + 1 < |entries| {
      ChainAt(entries[..|entries| - 1], size, i);
    }
  }

  /** Greedy packing: only paragraphs longer than the chunk size are cut, chunks with several
      new paragraphs fit, and no chunk could have taken the paragraph after it. */
  lemma PackingIsGreedy(content: string, size: int, overlap: int, i: nat)
    requires i < |EntriesOf(content, size, overlap)|
    ensures var entries := EntriesOf(content, size, overlap);
            && (entries[i].Cut? ==> |entries[i].text| > size)
            && (entries[i].Packed? ==>
                  && (forall p :: p in entries[i].added ==> |p| <= size)
                  && var full := |Join(entries[i].carry + entries[i].added, BLANK)|
                                 + if entries[i].carry == [] then 2 else 0;
                  && (|entries[i].added| > 1 ==> full <= size)
                  && (i + 1 < |entries| && entries[i + 1].Packed? ==>
                        entries[i + 1].added != [] && full + |entries[i + 1].added[0]| + 2 > size))
  {
    var paras := ParasOf(content);
    PlanGreedy(paras, |paras|, size, overlap);
    FlushGreedy(Planned(paras, |paras|, size, overlap), size, overlap);
    ChainAt(EntriesOf(content, size, overlap), size, i);
  }
}
