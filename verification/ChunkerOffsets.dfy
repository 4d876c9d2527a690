/** Chunk offsets on a normalised document: stripped paragraphs joined by exactly one blank
    line, none longer than a chunk. */
module ChunkerOffsets {
  import opened Chunker
  import opened ChunkerBounds
  import opened ChunkerLaws
  import opened Paragraphs
  import opened Text

  // -- slices of the document -----------------------------------------------------

  lemma {:induction false} OffsetsRise(parts: seq<string>, i: nat, j: nat)
    requires i < j <= |parts|
    ensures PartOffset(parts, i) + |parts[i]| + 2 <= PartOffset(parts, j)
    decreases j
  {
    if i < j - 1 {
      OffsetsRise(parts, i, j - 1);
    }
  }

  lemma {:induction false} CostIsSpan(parts: seq<string>, lo: nat, hi: nat)
    requires lo <= hi <= |parts|
    ensures Cost(parts[lo..hi]) == PartOffset(parts, hi) - PartOffset(parts, lo)
    decreases hi
  {
    if lo < hi {
      CostIsSpan(parts, lo, hi - 1);
      assert parts[lo..hi] == parts[lo..hi - 1] + [parts[hi - 1]];
      CostAdd(parts[lo..hi - 1], parts[hi - 1]);
    }
  }

  lemma {:induction false} JoinFrom(parts: seq<string>, k: nat) returns (before: string)
    requires k < |parts|
    ensures Join(parts, BLANK) == before + Join(parts[k..], BLANK) && |before| == PartOffset(parts, k)
  {
    if k == 0 {
      before := [];
      assert parts[0..] == parts;
    } else {
      before := JoinFrom(parts[1..], k - 1);
      OffsetOfTail(parts, k);
      before := parts[0] + BLANK + before;
      assert parts[1..][k - 1..] == parts[k..];
    }
  }

  /** Parts `lo` to `hi`, joined, are what the document holds between their offsets. */
  lemma SliceIsJoin(parts: seq<string>, lo: nat, hi: nat)
    requires lo < hi <= |parts|
    ensures var content, start := Join(parts, BLANK), PartOffset(parts, lo);
            var end := start + |Join(parts[lo..hi], BLANK)|;
            end == PartOffset(parts, hi) - 2 && end <= |content| && content[start..end] == Join(parts[lo..hi], BLANK)
  {
    var before := JoinFrom(parts, lo);
    CostIsSpan(parts, lo, hi);
    JoinCost(parts[lo..hi]);
    var rest := Join(parts[lo..], BLANK);
    if hi < |parts| {
      assert parts[lo..] == parts[lo..hi] + parts[hi..];
      JoinAppend(parts[lo..hi], parts[hi..], BLANK);
      assert rest[..|Join(parts[lo..hi], BLANK)|] == Join(parts[lo..hi], BLANK);
    } else {
      assert parts[lo..] == parts[lo..hi];
    }
    SliceOfConcat(before, rest, |Join(parts[lo..hi], BLANK)|);
  }

  lemma SliceOfConcat(a: string, b: string, n: nat)
    requires n <= |b|
    ensures (a + b)[|a|..|a| + n] == b[..n]
  {
  }

  // -- where each chunk stands ----------------------------------------------------

  datatype Range = Range(lo: nat, hi: nat)

  predicate InPlace(parts: seq<string>, entry: Entry, r: Range) {
    && entry.Packed? && r.lo < r.hi <= |parts|
    && entry.carry + entry.added == parts[r.lo..r.hi] && entry.start == PartOffset(parts, r.lo)
  }

  ghost predicate Located(parts: seq<string>, entries: seq<Entry>, ranges: seq<Range>) {
    && |ranges| == |entries|
    && (forall i :: 0 <= i < |entries| ==> InPlace(parts, entries[i], ranges[i]))
    && (forall i, j :: 0 <= i < j < |ranges| ==> ranges[i].lo < ranges[j].lo)
  }

  ghost predicate Covered(ranges: seq<Range>, p: nat) {
    exists i :: 0 <= i < |ranges| && ranges[i].lo <= p < ranges[i].hi
  }

  /** After `n` parts: the buffer is the parts from `first` on, standing at its offset, and
      every part before it is in some chunk. */
  ghost predicate Tracked(parts: seq<string>, plan: Plan, n: nat, first: nat, ranges: seq<Range>) {
    && Located(parts, plan.entries, ranges)
    && first <= n <= |parts| && Buffer(plan) == parts[first..n]
    && (first < n ==> plan.start == PartOffset(parts, first))
    && (forall i :: 0 <= i < |ranges| ==> ranges[i].lo < first)
    && (forall p: nat :: p < first ==> Covered(ranges, p))
  }

  lemma CoveredAdd(ranges: seq<Range>, r: Range, p: nat)
    requires Covered(ranges, p) || r.lo <= p < r.hi
    ensures Covered(ranges + [r], p)
  {
    var all := ranges + [r];
    if Covered(ranges, p) {
      var i :| 0 <= i < |ranges| && ranges[i].lo <= p < ranges[i].hi;
      assert all[i].lo <= p < all[i].hi;
    } else {
      assert all[|ranges|] == r;
    }
  }

  /** The carried paragraphs stand where the new start offset says. */
  lemma KeptStands(parts: seq<string>, first: nat, n: nat, overlap: int) returns (next: nat)
    requires first < n <= |parts|
    ensures var kept := Kept(parts[first..n], overlap);
            && first < next <= n && kept == parts[next..n]
            && (next < n ==> StartAfter(parts[first..n], PartOffset(parts, first), kept) == PartOffset(parts, next))
  {
    var buffer := parts[first..n];
    var kept := Kept(buffer, overlap);
    KeptFacts(buffer, overlap);
    next := n - |kept|;
    assert buffer[|buffer| - |kept|..] == parts[next..n];
    SliceIsJoin(parts, first, n);
    CostIsSpan(parts, next, n);
  }

  lemma FlushTracks(parts: seq<string>, plan: Plan, n: nat, first: nat, ranges: seq<Range>, overlap: int)
    returns (next: nat, more: seq<Range>)
    requires Tracked(parts, plan, n, first, ranges) && first < n
    ensures Tracked(parts, Flushed(plan, overlap), n, next, more) && first < next
    ensures forall p: nat :: p < n ==> Covered(more, p)
  {
    next := KeptStands(parts, first, n, overlap);
    var r := Range(first, n);
    more := ranges + [r];
    var kept := Kept(Buffer(plan), overlap);
    assert kept + [] == kept;
    forall p: nat | p < n
      ensures Covered(more, p)
    {
      CoveredAdd(ranges, r, p);
    }
  }

  lemma AddTracks(parts: seq<string>, plan: Plan, n: nat, first: nat, ranges: seq<Range>)
    requires Tracked(parts, plan, n, first, ranges) && n < |parts|
    ensures Tracked(parts, AddPara(plan, Para(parts[n], PartOffset(parts, n))), n + 1, first, ranges)
  {
    var next := AddPara(plan, Para(parts[n], PartOffset(parts, n)));
    assert Buffer(next) == Buffer(plan) + [parts[n]] == parts[first..n + 1];
  }

  lemma ParaTracks(parts: seq<string>, plan: Plan, n: nat, first: nat, ranges: seq<Range>, size: int, overlap: int)
    returns (next: nat, more: seq<Range>)
    requires Tracked(parts, plan, n, first, ranges) && n < |parts| && |parts[n]| <= size
    ensures Tracked(parts, OnPara(plan, Para(parts[n], PartOffset(parts, n)), size, overlap), n + 1, next, more)
  {
    if BufferLen(plan) + |parts[n]| + 2 > size && Buffer(plan) != [] {
      next, more := FlushTracks(parts, plan, n, first, ranges, overlap);
      AddTracks(parts, Flushed(plan, overlap), n, next, more);
    } else {
      next, more := first, ranges;
      AddTracks(parts, plan, n, first, ranges);
    }
  }

  /** Stripped paragraphs, none longer than a chunk. */
  predicate Tidy(parts: seq<string>, size: int) {
    Normal(parts) && forall i :: 0 <= i < |parts| ==> |parts[i]| <= size
  }

  lemma {:induction false} PlanTracks(parts: seq<string>, paras: seq<Para>, n: nat, size: int, overlap: int)
    returns (first: nat, ranges: seq<Range>)
    requires Tidy(parts, size) && n <= |parts| == |paras|
    requires forall i :: 0 <= i < |parts| ==> paras[i] == Para(parts[i], PartOffset(parts, i))
    ensures Tracked(parts, Planned(paras, n, size, overlap), n, first, ranges)
    decreases n
  {
    if n == 0 {
      first, ranges := 0, [];
    } else {
      first, ranges := PlanTracks(parts, paras, n - 1, size, overlap);
      first, ranges := ParaTracks(parts, Planned(paras, n - 1, size, overlap), n - 1, first, ranges, size, overlap);
    }
  }

  lemma EntriesLocated(content: string, size: int, overlap: int) returns (ranges: seq<Range>)
    requires Tidy(Split(content, BLANK), size)
    ensures var parts := Split(content, BLANK);
            && Located(parts, EntriesOf(content, size, overlap), ranges)
            && forall p: nat :: p < |parts| ==> Covered(ranges, p)
  {
    var parts := Split(content, BLANK);
    var n := |parts|;
    var paras := NormalParas(parts, n);
    var first: nat;
    first, ranges := PlanTracks(parts, paras, n, size, overlap);
    var plan := Planned(paras, n, size, overlap);
    if first < n {
      first, ranges := FlushTracks(parts, plan, n, first, ranges, overlap);
    }
  }

  // -- chunks ---------------------------------------------------------------------

  function ChunkOf(entry: Entry, index: nat): Chunk
    requires entry.Packed?
  {
    var text := Join(entry.carry + entry.added, BLANK);
    Chunk(index, text, entry.start, entry.start + |text|)
  }

  lemma {:induction false} OneEach(entries: seq<Entry>, size: int)
    requires forall k :: 0 <= k < |entries| ==> entries[k].Packed?
    ensures |Chunks(entries, size)| == |entries|
  {
    if entries != [] {
      OneEach(entries[..|entries| - 1], size);
    }
  }

  lemma {:induction false} ChunkAt(entries: seq<Entry>, size: int, i: nat)
    requires forall k :: 0 <= k < |entries| ==> entries[k].Packed?
    requires i < |entries|
    ensures |Chunks(entries, size)| == |entries| && Chunks(entries, size)[i] == ChunkOf(entries[i], i)
  {
    var before := entries[..|entries| - 1];
    OneEach(before, size);
    assert Chunks(entries, size) == Chunks(before, size) + [ChunkOf(entries[|before|], |before|)];
    if i < |before| {
      ChunkAt(before, size, i);
    }
  }

  /** The document reads, between a chunk's offsets, exactly the chunk's content. */
  predicate Reads(content: string, chunk: Chunk) {
    chunk.charStart <= chunk.charEnd <= |content| && content[chunk.charStart..chunk.charEnd] == chunk.content
  }

  /** Each chunk is what the document holds over a range of parts. */
  ghost predicate Stand(parts: seq<string>, chunks: seq<Chunk>, ranges: seq<Range>) {
    && |chunks| == |ranges|
    && forall i :: 0 <= i < |chunks| ==> StandsOver(parts, chunks[i], ranges[i])
  }

  predicate StandsOver(parts: seq<string>, chunk: Chunk, r: Range) {
    && r.lo < r.hi <= |parts| && Reads(Join(parts, BLANK), chunk)
    && chunk.charStart == PartOffset(parts, r.lo) && chunk.charEnd == PartOffset(parts, r.hi) - 2
  }

  lemma ChunksStand(parts: seq<string>, entries: seq<Entry>, ranges: seq<Range>, size: int)
    requires Located(parts, entries, ranges)
    ensures Stand(parts, Chunks(entries, size), ranges)
  {
    assert entries == [] ==> Chunks(entries, size) == [];
    forall i | 0 <= i < |entries|
      ensures |Chunks(entries, size)| == |entries| && StandsOver(parts, Chunks(entries, size)[i], ranges[i])
    {
      assert InPlace(parts, entries[i], ranges[i]);
      ChunkAt(entries, size, i);
      SliceIsJoin(parts, ranges[i].lo, ranges[i].hi);
    }
  }

  /** Part `p` lies inside some chunk. */
  ghost predicate Held(parts: seq<string>, chunks: seq<Chunk>, p: nat)
    requires p < |parts|
  {
    exists i :: 0 <= i < |chunks| && HeldBy(parts, chunks[i], p)
  }

  predicate HeldBy(parts: seq<string>, chunk: Chunk, p: nat)
    requires p < |parts|
  {
    chunk.charStart <= PartOffset(parts, p) && PartOffset(parts, p) + |parts[p]| <= chunk.charEnd
  }

  lemma PartHeld(parts: seq<string>, chunks: seq<Chunk>, ranges: seq<Range>, p: nat)
    requires Stand(parts, chunks, ranges) && Covered(ranges, p) && p < |parts|
    ensures Held(parts, chunks, p)
  {
    var i :| 0 <= i < |ranges| && ranges[i].lo <= p < ranges[i].hi;
    assert StandsOver(parts, chunks[i], ranges[i]);
    if ranges[i].lo < p {
      OffsetsRise(parts, ranges[i].lo, p);
    }
    OffsetsRise(parts, p, ranges[i].hi);
    assert HeldBy(parts, chunks[i], p);
  }

  lemma StartsRise(parts: seq<string>, chunks: seq<Chunk>, ranges: seq<Range>, i: nat, j: nat)
    requires Stand(parts, chunks, ranges) && i < j < |ranges| && ranges[i].lo < ranges[j].lo
    ensures chunks[i].charStart < chunks[j].charStart
  {
    assert StandsOver(parts, chunks[i], ranges[i]) && StandsOver(parts, chunks[j], ranges[j]);
    OffsetsRise(parts, ranges[i].lo, ranges[j].lo);
  }

  /** Chunk offsets are exact and strictly increasing, and every paragraph - everything but
      the separators - lies inside some chunk. */
  lemma OffsetsLocateChunks(content: string, size: int, overlap: int)
    requires Tidy(Split(content, BLANK), size)
    ensures var parts, chunks := Split(content, BLANK), Chunks(EntriesOf(content, size, overlap), size);
            && (forall i :: 0 <= i < |chunks| ==> Reads(content, chunks[i]))
            && (forall i, j :: 0 <= i < j < |chunks| ==> chunks[i].charStart < chunks[j].charStart)
            && (forall p :: 0 <= p < |parts| ==> Held(parts, chunks, p))
  {
    var parts, entries := Split(content, BLANK), EntriesOf(content, size, overlap);
    var ranges := EntriesLocated(content, size, overlap);
    JoinSplit(content, BLANK);
    ChunksStand(parts, entries, ranges, size);
    LocatedChunks(parts, Chunks(entries, size), ranges);
  }

  lemma LocatedChunks(parts: seq<string>, chunks: seq<Chunk>, ranges: seq<Range>)
    requires Stand(parts, chunks, ranges)
    requires forall i, j :: 0 <= i < j < |ranges| ==> ranges[i].lo < ranges[j].lo
    requires forall p: nat :: p < |parts| ==> Covered(ranges, p)
    ensures forall i :: 0 <= i < |chunks| ==> Reads(Join(parts, BLANK), chunks[i])
    ensures forall i, j :: 0 <= i < j < |chunks| ==> chunks[i].charStart < chunks[j].charStart
    ensures forall p :: 0 <= p < |parts| ==> Held(parts, chunks, p)
  {
    forall i | 0 <= i < |chunks|
      ensures Reads(Join(parts, BLANK), chunks[i])
    {
      assert StandsOver(parts, chunks[i], ranges[i]);
    }
    forall i, j | 0 <= i < j < |chunks|
      ensures chunks[i].charStart < chunks[j].charStart
    {
      StartsRise(parts, chunks, ranges, i, j);
    }
    forall p | 0 <= p < |parts|
      ensures Held(parts, chunks, p)
    {
      PartHeld(parts, chunks, ranges, p);
    }
  }
}
