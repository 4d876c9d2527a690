/** Reciprocal-rank fusion of the vector leg and the full-text leg of a search. */
module RankFusion {
  import opened StableSort

  type Ranked = Keyed<Hit>

  datatype Hit = Hit(id: int, content: string)

  const RRF_K := 60

  /** What rank `rank` (counted from one) is worth. */
  function Worth(rank: nat): (w: real)
    ensures w > 0.0
  {
    1.0 / (RRF_K + rank) as real
  }

  /** What a leg gives a chunk; ranks count on from `rank`. */
  function LegScore(hits: seq<Hit>, id: int, rank: nat): (s: real)
    ensures s >= 0.0
  {
    if hits == [] then 0.0
    else (if hits[0].id == id then Worth(rank) else 0.0) + LegScore(hits[1..], id, rank + 1)
  }

  function Score(vector: seq<Hit>, fts: seq<Hit>, id: int): real {
    LegScore(vector, id, 1) + LegScore(fts, id, 1)
  }

  predicate Knows(hits: seq<Hit>, id: int) {
    exists i :: 0 <= i < |hits| && hits[i].id == id
  }

  /** Each id's first hit, in order of first appearance: the order of a dictionary. */
  function Firsts(hits: seq<Hit>): seq<Hit> {
    if hits == [] then [] else SetDefault(Firsts(hits[..|hits| - 1]), hits[|hits| - 1])
  }

  function SetDefault(order: seq<Hit>, hit: Hit): seq<Hit> {
    if Knows(order, hit.id) then order else order + [hit]
  }

  function KeyedHits(hits: seq<Hit>, vector: seq<Hit>, fts: seq<Hit>): (rs: seq<Ranked>)
    ensures |rs| == |hits|
    ensures forall i :: 0 <= i < |hits| ==> rs[i] == Keyed(hits[i], Score(vector, fts, hits[i].id))
  {
    seq(|hits|, i requires 0 <= i < |hits| => Keyed(hits[i], Score(vector, fts, hits[i].id)))
  }

  function Fused(vector: seq<Hit>, fts: seq<Hit>): seq<Ranked> {
    SortedDown(KeyedHits(Firsts(vector + fts), vector, fts))
  }

  // -- the loop over both legs ----------------------------------------------------

  function Get(scores: map<int, real>, id: int): real {
    if id in scores then scores[id] else 0.0
  }

  function Plus(scores: map<int, real>, id: int, worth: real): (sum: map<int, real>)
    ensures forall other :: Get(sum, other) == Get(scores, other) + if other == id then worth else 0.0
  {
    scores[id := Get(scores, id) + worth]
  }

  lemma FirstsNext(before: seq<Hit>, hits: seq<Hit>, i: nat)
    requires i < |hits|
    ensures Firsts(before + hits[..i + 1]) == SetDefault(Firsts(before + hits[..i]), hits[i])
  {
    var all := before + hits[..i + 1];
    assert all[..|all| - 1] == before + hits[..i];
  }

  /** What the hits from position `i` on still give a chunk. */
  function LegRest(hits: seq<Hit>, i: nat, id: int): real
    requires i <= |hits|
  {
    LegScore(hits[i..], id, i + 1)
  }

  lemma LegStep(hits: seq<Hit>, i: nat, id: int)
    requires i < |hits|
    ensures LegRest(hits, i, id) == (if hits[i].id == id then Worth(i + 1) else 0.0) + LegRest(hits, i + 1, id)
  {
    assert hits[i..][1..] == hits[i + 1..];
  }

  /** What is in the scores and what the rest of the leg will add make up the whole leg. */
  ghost predicate Accounted(now: map<int, real>, scores: map<int, real>, hits: seq<Hit>, i: nat)
    requires i <= |hits|
  {
    forall id :: Get(now, id) + LegRest(hits, i, id) == Get(scores, id) + LegRest(hits, 0, id)
  }

  lemma AccountNext(now: map<int, real>, scores: map<int, real>, hits: seq<Hit>, i: nat)
    requires i < |hits| && Accounted(now, scores, hits, i)
    ensures Accounted(Plus(now, hits[i].id, Worth(i + 1)), scores, hits, i + 1)
  {
    forall id
      ensures Get(Plus(now, hits[i].id, Worth(i + 1)), id) + LegRest(hits, i + 1, id)
           == Get(scores, id) + LegRest(hits, 0, id)
    {
      LegStep(hits, i, id);
    }
  }

  /** One leg: `order` lists the dictionary of first hits in insertion order. */
  method AddLeg(hits: seq<Hit>, scores: map<int, real>, order: seq<Hit>, ghost before: seq<Hit>)
    returns (scores': map<int, real>, order': seq<Hit>)
    requires order == Firsts(before)
    ensures order' == Firsts(before + hits)
    ensures Accounted(scores', scores, hits, |hits|)
  {
    scores', order' := scores, order;
    assert before + hits[..0] == before;
    for i := 0 to |hits|
      invariant order' == Firsts(before + hits[..i])
      invariant Accounted(scores', scores, hits, i)
    {
      FirstsNext(before, hits, i);
      AccountNext(scores', scores, hits, i);
      order' := SetDefault(order', hits[i]);
      scores' := Plus(scores', hits[i].id, Worth(i + 1));
    }
    assert hits[..|hits|] == hits;
  }

  lemma LegAccounted(now: map<int, real>, scores: map<int, real>, hits: seq<Hit>, id: int)
    requires Accounted(now, scores, hits, |hits|)
    ensures Get(now, id) == Get(scores, id) + LegScore(hits, id, 1)
  {
    assert hits[0..] == hits && hits[|hits|..] == [];
    assert Get(now, id) + LegRest(hits, |hits|, id) == Get(scores, id) + LegRest(hits, 0, id);
  }

  method RrfFuse(vector: seq<Hit>, fts: seq<Hit>) returns (fused: seq<Ranked>)
    ensures fused == Fused(vector, fts)
  {
    var scores, order := AddLeg(vector, map[], [], []);
    assert [] + vector == vector;
    ghost var first := scores;
    scores, order := AddLeg(fts, scores, order, vector);
    forall id: int
      ensures Get(scores, id) == Score(vector, fts, id)
    {
      LegAccounted(first, map[], vector, id);
      LegAccounted(scores, first, fts, id);
    }
    var keyed := seq(|order|, i requires 0 <= i < |order| => Keyed(order[i], Get(scores, order[i].id)));
    assert keyed == KeyedHits(order, vector, fts);
    fused := SortedDown(keyed);
  }
}
