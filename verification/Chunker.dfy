/** The document chunker: greedy packing of paragraphs with an overlap carried over.
    A `Plan` is the packer's state with every paragraph's origin written down: which
    paragraphs of the buffer were carried and which are new. The class works on the
    plain buffer, length and offset, and keeps the plan as a ghost. */
module Chunker {
  import opened HardSplit
  import opened Paragraphs
  import opened Text
  import opened Wrappers

  datatype Chunk = Chunk(index: nat, content: string, charStart: nat, charEnd: nat)

  /** A packed chunk, or an oversized paragraph cut into several chunks. */
  datatype Entry = Packed(carry: seq<string>, added: seq<string>, start: nat) | Cut(text: string, offset: nat)

  datatype Plan = Plan(entries: seq<Entry>, carry: seq<string>, added: seq<string>, start: nat)

  const EMPTY_PLAN := Plan([], [], [], 0)

  /** Every paragraph counts for its text and a separator. */
  function Cost(paras: seq<string>): nat {
    if paras == [] then 0 else Cost(paras[..|paras| - 1]) + |paras[|paras| - 1]| + 2
  }

  function SumLengths(paras: seq<string>): nat {
    if paras == [] then 0 else SumLengths(paras[..|paras| - 1]) + |paras[|paras| - 1]|
  }

  /** The longest tail of the buffer that costs at most `budget`. */
  function Tail(buffer: seq<string>, budget: int): seq<string> {
    if buffer == [] then []
    else
      var last := buffer[|buffer| - 1];
      if |last| + 2 > budget then [] else Tail(buffer[..|buffer| - 1], budget - |last| - 2) + [last]
  }

  /** What a flush carries over: the tail, unless that is the whole buffer. */
  function Kept(buffer: seq<string>, overlap: int): seq<string> {
    var tail := Tail(buffer, overlap);
    if tail != buffer then tail else []
  }

  function Buffer(plan: Plan): seq<string> {
    plan.carry + plan.added
  }

  /** The length the packer believes in: a carry forgets one separator. */
  function BufferLen(plan: Plan): int {
    Cost(Buffer(plan)) - if plan.carry != [] then 2 else 0
  }

  function Max(a: int, b: int): int {
    if a >= b then a else b
  }

  function StartAfter(buffer: seq<string>, start: nat, kept: seq<string>): nat {
    if kept == [] then 0 else Max(0, start + |Join(buffer, BLANK)| - (Cost(kept) - 2))
  }

  function Flushed(plan: Plan, overlap: int): Plan {
    if Buffer(plan) == [] then plan
    else
      var kept := Kept(Buffer(plan), overlap);
      Plan(plan.entries + [Packed(plan.carry, plan.added, plan.start)], kept, [],
           StartAfter(Buffer(plan), plan.start, kept))
  }

  function AddPara(plan: Plan, para: Para): Plan {
    plan.(added := plan.added + [para.text], start := if Buffer(plan) == [] then para.offset else plan.start)
  }

  function AddCut(plan: Plan, text: string, offset: nat): Plan {
    plan.(entries := plan.entries + [Cut(text, offset)], start := 0)
  }

  function OnPara(plan: Plan, para: Para, size: int, overlap: int): Plan {
    if |para.text| > size then
      AddCut(Flushed(plan, overlap), para.text, para.offset)
    else if BufferLen(plan) + |para.text| + 2 > size && Buffer(plan) != [] then AddPara(Flushed(plan, overlap), para)
    else AddPara(plan, para)
  }

  /** The plan after the first `n` paragraphs. */
  function Planned(paras: seq<Para>, n: nat, size: int, overlap: int): Plan
    requires n <= |paras|
  {
    if n == 0 then EMPTY_PLAN else OnPara(Planned(paras, n - 1, size, overlap), paras[n - 1], size, overlap)
  }

  function EntriesOf(content: string, size: int, overlap: int): seq<Entry> {
    var paras := ParasOf(content);
    Flushed(Planned(paras, |paras|, size, overlap), overlap).entries
  }

  // -- chunks ---------------------------------------------------------------------

  function Numbered(pieces: seq<string>, offset: nat, index: nat): (chunks: seq<Chunk>)
    ensures |chunks| == |pieces|
  {
    if pieces == [] then []
    else
      var n := |pieces| - 1;
      Numbered(pieces[..n], offset, index) + [Chunk(index + n, pieces[n], offset, offset + |pieces[n]|)]
  }

  lemma NumberedAdd(pieces: seq<string>, i: nat, offset: nat, index: nat)
    requires i < |pieces|
    ensures Numbered(pieces[..i + 1], offset, index)
         == Numbered(pieces[..i], offset, index) + [Chunk(index + i, pieces[i], offset, offset + |pieces[i]|)]
  {
    assert pieces[..i + 1][..i] == pieces[..i];
  }

  function ChunksOf(entry: Entry, index: nat, size: int): seq<Chunk> {
    match entry
    case Packed(carry, added, start) =>
      var text := Join(carry + added, BLANK);
      [Chunk(index, text, start, start + |text|)]
    case Cut(text, offset) => Numbered(Pieces(text, size), offset, index)
  }

  function Chunks(entries: seq<Entry>, size: int): seq<Chunk> {
    if entries == [] then []
    else
      var before := Chunks(entries[..|entries| - 1], size);
      before + ChunksOf(entries[|entries| - 1], |before|, size)
  }

  lemma ChunksAdd(entries: seq<Entry>, entry: Entry, size: int)
    ensures Chunks(entries + [entry], size)
         == Chunks(entries, size) + ChunksOf(entry, |Chunks(entries, size)|, size)
  {
    assert (entries + [entry])[..|entries|] == entries;
  }

  function Chunked(content: string, size: int, overlap: int): Result<seq<Chunk>, string> {
    if AllSpace(content) then Ok([])
    else if size <= 0 || overlap < 0 then Err("chunk_size must be > 0 and chunk_overlap >= 0")
    else Ok(Chunks(EntriesOf(content, size, overlap), size))
  }

  lemma {:induction false} CostIsSum(paras: seq<string>)
    ensures Cost(paras) == SumLengths(paras) + 2 * |paras|
  {
    if paras != [] {
      CostIsSum(paras[..|paras| - 1]);
    }
  }

  lemma CostAdd(paras: seq<string>, para: string)
    ensures Cost(paras + [para]) == Cost(paras) + |para| + 2
  {
    assert (paras + [para])[..|paras|] == paras;
  }

  lemma FlushedIs(plan: Plan, overlap: int, size: int)
    requires Buffer(plan) != []
    ensures var next, kept, text := Flushed(plan, overlap), Kept(Buffer(plan), overlap), Join(Buffer(plan), BLANK);
            && Buffer(next) == kept && next.start == StartAfter(Buffer(plan), plan.start, kept)
            && BufferLen(next) == (if kept == [] then 0 else Cost(kept) - 2)
            && Chunks(next.entries, size)
               == Chunks(plan.entries, size)
                  + [Chunk(|Chunks(plan.entries, size)|, text, plan.start, plan.start + |text|)]
  {
    var kept := Kept(Buffer(plan), overlap);
    assert kept + [] == kept;
    ChunksAdd(plan.entries, Packed(plan.carry, plan.added, plan.start), size);
  }

  lemma AppendedIs(plan: Plan, para: Para)
    ensures var next := AddPara(plan, para);
            Buffer(next) == Buffer(plan) + [para.text] && BufferLen(next) == BufferLen(plan) + |para.text| + 2
  {
    CostAdd(Buffer(plan), para.text);
    assert plan.carry + (plan.added + [para.text]) == Buffer(plan) + [para.text];
  }

  lemma CutIs(plan: Plan, text: string, offset: nat, size: int)
    ensures var next, before := AddCut(plan, text, offset), Chunks(plan.entries, size);
            && Buffer(next) == Buffer(plan) && BufferLen(next) == BufferLen(plan)
            && Chunks(next.entries, size) == before + Numbered(Pieces(text, size), offset, |before|)
  {
    ChunksAdd(plan.entries, Cut(text, offset), size);
  }

  // -- the packer -----------------------------------------------------------------

  class Packer {
    const size: int
    const overlap: int
    var buffer: seq<string>
    var bufferLen: int
    var startOffset: nat
    var chunks: seq<Chunk>
    ghost var plan: Plan

    ghost predicate Valid()
      reads this
    {
      && buffer == Buffer(plan) && bufferLen == BufferLen(plan) && startOffset == plan.start
      && chunks == Chunks(plan.entries, size)
    }

    constructor (size: int, overlap: int)
      ensures Valid() && plan == EMPTY_PLAN && this.size == size && this.overlap == overlap
    {
      this.size, this.overlap := size, overlap;
      buffer, bufferLen, startOffset, chunks := [], 0, 0, [];
      plan := EMPTY_PLAN;
    }

    /** The trailing paragraphs that still fit into the overlap. */
    method CarryTail() returns (carried: seq<string>)
      ensures carried == Tail(buffer, overlap)
    {
      carried := [];
      var carriedLen := 0;
      var i := |buffer|;
      assert buffer[..i] == buffer;
      while i > 0
        invariant 0 <= i <= |buffer|
        invariant Tail(buffer, overlap) == Tail(buffer[..i], overlap - carriedLen) + carried
      {
        var para := buffer[i - 1];
        assert buffer[..i][..i - 1] == buffer[..i - 1];
        if carriedLen + |para| + 2 > overlap {
          break;
        }
        carried := [para] + carried;
        carriedLen := carriedLen + |para| + 2;
        i := i - 1;
      }
    }

    /** Start the next buffer from what is carried over. */
    method Restart(carried: seq<string>, text: string)
      modifies this`buffer, this`bufferLen, this`startOffset
      requires text == Join(buffer, BLANK) && carried == Tail(buffer, overlap)
      ensures buffer == Kept(old(buffer), overlap)
      ensures bufferLen == if buffer == [] then 0 else Cost(buffer) - 2
      ensures startOffset == StartAfter(old(buffer), old(startOffset), buffer)
    {
      if carried != [] && carried != buffer {
        var overlapLen := SumLengths(carried) + 2 * (|carried| - 1);
        CostIsSum(carried);
        buffer := carried;
        bufferLen := overlapLen;
        startOffset := Max(0, startOffset + |text| - overlapLen);
      } else {
        buffer, bufferLen, startOffset := [], 0, 0;
      }
    }

    method Flush()
      requires Valid()
      modifies this
      ensures Valid() && plan == Flushed(old(plan), overlap)
    {
      if buffer == [] {
        return;
      }
      FlushedIs(plan, overlap, size);
      var text := Join(buffer, BLANK);
      chunks := chunks + [Chunk(|chunks|, text, startOffset, startOffset + |text|)];
      var carried := CarryTail();
      Restart(carried, text);
      plan := Flushed(plan, overlap);
    }

    method AppendPieces(pieces: seq<string>, offset: nat)
      modifies this`chunks
      ensures chunks == old(chunks) + Numbered(pieces, offset, |old(chunks)|)
    {
      for i := 0 to |pieces|
        invariant chunks == old(chunks) + Numbered(pieces[..i], offset, |old(chunks)|)
      {
        NumberedAdd(pieces, i, offset, |old(chunks)|);
        chunks := chunks + [Chunk(|chunks|, pieces[i], offset, offset + |pieces[i]|)];
      }
      assert pieces[..|pieces|] == pieces;
    }

    method CutPara(para: Para)
      requires Valid()
      modifies this
      ensures Valid() && plan == AddCut(old(plan), para.text, para.offset)
    {
      CutIs(plan, para.text, para.offset, size);
      var pieces := SplitWords(para.text, size);
      AppendPieces(pieces, para.offset);
      startOffset := 0;
      plan := AddCut(plan, para.text, para.offset);
    }

    method Append(para: Para)
      requires Valid()
      modifies this
      ensures Valid() && plan == AddPara(old(plan), para)
    {
      AppendedIs(plan, para);
      if buffer == [] {
        startOffset := para.offset;
      }
      buffer := buffer + [para.text];
      bufferLen := bufferLen + |para.text| + 2;
      plan := AddPara(plan, para);
    }

    method Pack(para: Para)
      requires Valid()
      modifies this
      ensures Valid() && plan == OnPara(old(plan), para, size, overlap)
    {
      if |para.text| > size {
        Flush();
        CutPara(para);
        return;
      }
      if bufferLen + |para.text| + 2 > size && buffer != [] {
        Flush();
      }
      Append(para);
    }
  }

  method ChunkText(content: string, size: int := 1200, overlap: int := 200) returns (r: Result<seq<Chunk>, string>)
    ensures r == Chunked(content, size, overlap)
  {
    StripEmpty(content);
    if Strip(content) == [] {
      return Ok([]);
    }
    if size <= 0 || overlap < 0 {
      return Err("chunk_size must be > 0 and chunk_overlap >= 0");
    }
    var paras := SplitParagraphs(content);
    var packer := new Packer(size, overlap);
    for i := 0 to |paras|
      invariant fresh(packer) && packer.Valid() && packer.size == size && packer.overlap == overlap
      invariant packer.plan == Planned(paras, i, size, overlap)
    {
      packer.Pack(paras[i]);
    }
    packer.Flush();
    return Ok(packer.chunks);
  }
}
