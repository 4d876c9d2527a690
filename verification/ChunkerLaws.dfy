/** What chunking keeps: every paragraph once and in order, carries that are tails of the
    chunk before, and the length bounds the code really has. */
module ChunkerLaws {
  import opened Chunker
  import opened HardSplit
  import opened Paragraphs
  import opened Text

  // -- conservation ---------------------------------------------------------------

  /** The entries' paragraphs once the carries are dropped. */
  function Dropped(entries: seq<Entry>): seq<string> {
    if entries == [] then []
    else Dropped(entries[..|entries| - 1]) + Own(entries[|entries| - 1])
  }

  function Own(entry: Entry): seq<string> {
    if entry.Packed? then entry.added else [entry.text]
  }

  lemma DroppedAdd(entries: seq<Entry>, entry: Entry)
    ensures Dropped(entries + [entry]) == Dropped(entries) + Own(entry)
  {
    assert (entries + [entry])[..|entries|] == entries;
  }

  lemma FlushConserves(plan: Plan, overlap: int)
    ensures var next := Flushed(plan, overlap);
            Dropped(next.entries) + next.added == Dropped(plan.entries) + plan.added
            && (Buffer(plan) != [] || plan.added == []) && (Buffer(plan) != [] ==> next.added == [])
  {
    DroppedAdd(plan.entries, Packed(plan.carry, plan.added, plan.start));
  }

  /** The plan has taken exactly `texts`, carries aside. */
  predicate Conserves(plan: Plan, texts: seq<string>) {
    Dropped(plan.entries) + plan.added == texts
  }

  lemma AddConserves(plan: Plan, para: Para, texts: seq<string>)
    requires Conserves(plan, texts)
    ensures Conserves(AddPara(plan, para), texts + [para.text])
  {
  }

  lemma ParaConserved(plan: Plan, para: Para, size: int, overlap: int, texts: seq<string>)
    requires Conserves(plan, texts)
    ensures Conserves(OnPara(plan, para, size, overlap), texts + [para.text])
  {
    var flushed := Flushed(plan, overlap);
    FlushConserves(plan, overlap);
    if |para.text| > size {
      DroppedAdd(flushed.entries, Cut(para.text, para.offset));
      assert flushed.added == [];
    } else {
      AddConserves(plan, para, texts);
      AddConserves(flushed, para, texts);
    }
  }

  function TextsTo(paras: seq<Para>, n: nat): seq<string>
    requires n <= |paras|
  {
    if n == 0 then [] else TextsTo(paras, n - 1) + [paras[n - 1].text]
  }

  lemma {:induction false} TextsToAll(paras: seq<Para>, n: nat)
    requires n <= |paras|
    ensures TextsTo(paras, n) == Texts(paras)[..n]
  {
    if n > 0 {
      TextsToAll(paras, n - 1);
    }
  }

  lemma {:induction false} PlanConserves(paras: seq<Para>, n: nat, size: int, overlap: int)
    requires n <= |paras|
    ensures Conserves(Planned(paras, n, size, overlap), TextsTo(paras, n))
  {
    if n > 0 {
      PlanConserves(paras, n - 1, size, overlap);
      ParaConserved(Planned(paras, n - 1, size, overlap), paras[n - 1], size, overlap, TextsTo(paras, n - 1));
    }
  }

  /** Conservation: without the carries, and with cut pieces rejoined by single spaces,
      the chunks are exactly the document's paragraphs, in order, whatever the sizes. */
  lemma ChunksConserve(content: string, size: int, overlap: int)
    ensures Dropped(EntriesOf(content, size, overlap)) == Texts(ParasOf(content))
    ensures Covers(content, Texts(ParasOf(content)))
    ensures forall entry :: entry in EntriesOf(content, size, overlap) && entry.Cut?
              ==> Join(Pieces(entry.text, size), " ") == entry.text
  {
    var paras := ParasOf(content);
    var plan := Planned(paras, |paras|, size, overlap);
    PlanConserves(paras, |paras|, size, overlap);
    FlushConserves(plan, overlap);
    TextsToAll(paras, |paras|);
    assert Texts(paras)[..|paras|] == Texts(paras);
    ParagraphsCover(content);
    forall entry | entry in EntriesOf(content, size, overlap) && entry.Cut?
      ensures Join(Pieces(entry.text, size), " ") == entry.text
    {
      PiecesRejoin(entry.text, size);
    }
  }

  // -- carries --------------------------------------------------------------------

  lemma SuffixCost(buffer: seq<string>, i: nat)
    requires i < |buffer|
    ensures var n := |buffer| - 1;
            && buffer[i..] == buffer[..n][i..] + [buffer[n]]
            && Cost(buffer[i..]) == Cost(buffer[..n][i..]) + |buffer[n]| + 2
  {
    var n := |buffer| - 1;
    assert buffer[i..] == buffer[..n][i..] + [buffer[n]];
    CostAdd(buffer[..n][i..], buffer[n]);
  }

  /** `i` is where the tail begins. */
  predicate TailAt(buffer: seq<string>, budget: int, i: nat) {
    && i <= |buffer| && Tail(buffer, budget) == buffer[i..]
    && (i < |buffer| ==> Cost(buffer[i..]) <= budget)
    && (i > 0 ==> Cost(buffer[i - 1..]) > budget)
  }

  lemma {:induction false} TailFacts(buffer: seq<string>, budget: int) returns (i: nat)
    ensures TailAt(buffer, budget, i)
  {
    if buffer == [] {
      i := 0;
    } else {
      var n := |buffer| - 1;
      var left := budget - |buffer[n]| - 2;
      if left < 0 {
        i := |buffer|;
        SuffixCost(buffer, n);
      } else {
        i := TailFacts(buffer[..n], left);
        SuffixCost(buffer, i);
        if i > 0 {
          SuffixCost(buffer, i - 1);
        } else if n == 0 {
          assert buffer[..n][i..] == [];
        }
      }
    }
  }

  /** A carry is the longest proper tail within the overlap; when the whole buffer would
      fit into the overlap, nothing is carried at all. */
  lemma KeptFacts(buffer: seq<string>, overlap: int)
    ensures var kept := Kept(buffer, overlap);
            && |kept| <= |buffer| && kept == buffer[|buffer| - |kept|..]
            && (buffer != [] ==> |kept| < |buffer|)
            && (kept != [] ==> Cost(kept) <= overlap)
            && (buffer != [] && Cost(buffer) > overlap ==> Cost(buffer[|buffer| - |kept| - 1..]) > overlap)
            && (Cost(buffer) <= overlap ==> kept == [])
  {
    var i := TailFacts(buffer, overlap);
    assert buffer[0..] == buffer;
    if Cost(buffer) <= overlap && i > 0 {
      CostGrows(buffer, i - 1);
    }
  }

  lemma {:induction false} CostGrows(buffer: seq<string>, i: nat)
    requires i <= |buffer|
    ensures Cost(buffer[i..]) <= Cost(buffer)
  {
    if i == |buffer| {
      assert buffer[i..] == [];
    } else {
      var n := |buffer| - 1;
      CostGrows(buffer[..n], i);
      assert buffer[i..] == buffer[..n][i..] + [buffer[n]];
      CostAdd(buffer[..n][i..], buffer[n]);
    }
  }

  /** The paragraphs of the last packed chunk, its own carry included. */
  function LastBuffer(entries: seq<Entry>): seq<string> {
    if entries == [] then []
    else
      var last := entries[|entries| - 1];
      if last.Packed? then last.carry + last.added else LastBuffer(entries[..|entries| - 1])
  }

  /** Every packed chunk carries exactly what the packed chunk before it kept, and one
      that adds nothing new comes right after a cut paragraph. */
  predicate CarriesChain(entries: seq<Entry>, overlap: int) {
    entries == [] ||
    (var before, last := entries[..|entries| - 1], entries[|entries| - 1];
     && CarriesChain(before, overlap)
     && (last.Packed? ==> last.carry == Kept(LastBuffer(before), overlap) && last.carry + last.added != [])
     && (last.Packed? && last.added == [] ==> before != [] && before[|before| - 1].Cut?))
  }

  predicate Chained(plan: Plan, overlap: int) {
    && CarriesChain(plan.entries, overlap) && plan.carry == Kept(LastBuffer(plan.entries), overlap)
    && (plan.added == [] ==>
          plan.entries == [] || plan.carry == [] || plan.entries[|plan.entries| - 1].Cut?)
  }

  lemma FlushChains(plan: Plan, overlap: int)
    requires Chained(plan, overlap)
    ensures var next := Flushed(plan, overlap);
            CarriesChain(next.entries, overlap) && next.carry == Kept(LastBuffer(next.entries), overlap)
  {
    if Buffer(plan) != [] {
      var entry := Packed(plan.carry, plan.added, plan.start);
      assert (plan.entries + [entry])[..|plan.entries|] == plan.entries;
      KeptOfNothing(overlap);
    }
  }

  lemma KeptOfNothing(overlap: int)
    ensures Kept([], overlap) == []
  {
  }

  lemma CutChains(plan: Plan, para: Para, overlap: int)
    requires CarriesChain(plan.entries, overlap) && plan.carry == Kept(LastBuffer(plan.entries), overlap)
    ensures Chained(AddCut(plan, para.text, para.offset), overlap)
  {
    var entry := Cut(para.text, para.offset);
    assert (plan.entries + [entry])[..|plan.entries|] == plan.entries;
  }

  lemma AddChains(plan: Plan, para: Para, overlap: int)
    requires CarriesChain(plan.entries, overlap) && plan.carry == Kept(LastBuffer(plan.entries), overlap)
    ensures Chained(AddPara(plan, para), overlap)
  {
  }

  lemma ParaChains(plan: Plan, para: Para, size: int, overlap: int)
    requires Chained(plan, overlap)
    ensures Chained(OnPara(plan, para, size, overlap), overlap)
  {
    var flushed := Flushed(plan, overlap);
    FlushChains(plan, overlap);
    CutChains(flushed, para, overlap);
    AddChains(flushed, para, overlap);
    AddChains(plan, para, overlap);
  }

  lemma {:induction false} PlanChains(paras: seq<Para>, n: nat, size: int, overlap: int)
    requires n <= |paras|
    ensures Chained(Planned(paras, n, size, overlap), overlap)
  {
    if n == 0 {
      KeptOfNothing(overlap);
    } else {
      PlanChains(paras, n - 1, size, overlap);
      ParaChains(Planned(paras, n - 1, size, overlap), paras[n - 1], size, overlap);
    }
  }

  lemma CarriesAreTails(content: string, size: int, overlap: int)
    ensures CarriesChain(EntriesOf(content, size, overlap), overlap)
  {
    var paras := ParasOf(content);
    PlanChains(paras, |paras|, size, overlap);
    FlushChains(Planned(paras, |paras|, size, overlap), overlap);
  }

  // -- numbering ------------------------------------------------------------------

  /** The chunk at position `i` is number `i`, and its range is as long as its content. */
  predicate WellNumbered(chunk: Chunk, i: nat) {
    chunk.index == i && chunk.charEnd == chunk.charStart + |chunk.content|
  }

  lemma {:induction false} NumberedFacts(pieces: seq<string>, offset: nat, index: nat, i: nat)
    requires i < |pieces|
    ensures WellNumbered(Numbered(pieces, offset, index)[i], index + i)
  {
    if i < |pieces| - 1 {
      NumberedFacts(pieces[..|pieces| - 1], offset, index, i);
    }
  }

  lemma {:induction false} ChunksNumbered(entries: seq<Entry>, size: int, i: nat)
    requires i < |Chunks(entries, size)|
    ensures WellNumbered(Chunks(entries, size)[i], i)
  {
    var before, last := Chunks(entries[..|entries| - 1], size), entries[|entries| - 1];
    if i < |before| {
      ChunksNumbered(entries[..|entries| - 1], size, i);
    } else if last.Cut? {
      NumberedFacts(Pieces(last.text, size), last.offset, |before|, i - |before|);
    }
  }
}
