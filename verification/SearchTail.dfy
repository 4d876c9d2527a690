/** The end of a hybrid search: fuse the legs, rerank, keep the best `k`. The
    reranker is a foreign call: it returns scored positions, or fails. */
module SearchTail {
  import opened RankFusion
  import opened RankFusionLaws
  import opened StableSort
  import opened Wrappers

  datatype Scored = Scored(index: nat, score: real)

  datatype Degradation = EmbeddingUnavailable | RerankUnavailable

  datatype SearchResult = SearchResult(chunks: seq<Hit>, degradation: Option<Degradation>,
                                       vectorUsed: bool, ftsUsed: bool, rerankUsed: bool)

  /** What the reranker said of a position: its last word, or nothing. */
  function Opinion(reranked: seq<Scored>, i: nat): Option<real> {
    if reranked == [] then None
    else if reranked[|reranked| - 1].index == i then Some(reranked[|reranked| - 1].score)
    else Opinion(reranked[..|reranked| - 1], i)
  }

  function ScoreAt(reranked: seq<Scored>, i: nat): real {
    match Opinion(reranked, i) case Some(score) => score case None => 0.0
  }

  function Opinions(hits: seq<Hit>, reranked: seq<Scored>): (rs: seq<Ranked>)
    ensures |rs| == |hits| && forall i :: 0 <= i < |hits| ==> rs[i] == Keyed(hits[i], ScoreAt(reranked, i))
  {
    seq(|hits|, i requires 0 <= i < |hits| => Keyed(hits[i], ScoreAt(reranked, i)))
  }

  /** Descending by the reranker's score, a hit it left out counting as zero. */
  function Reranked(hits: seq<Hit>, reranked: seq<Scored>): seq<Hit> {
    HitsOf(SortedDown(Opinions(hits, reranked)))
  }

  function Cut(hits: seq<Hit>, n: nat): seq<Hit> {
    if |hits| <= n then hits else hits[..n]
  }

  /** The fused hits, in the order in which they are cut to `k`. */
  function Ordered(fused: seq<Hit>, reranked: Option<seq<Scored>>): seq<Hit> {
    if |fused| > 1 && reranked.Some? then Reranked(fused, reranked.value) else fused
  }

  function FusedHits(vector: seq<Hit>, fts: seq<Hit>, perSide: nat): seq<Hit> {
    Cut(HitsOf(Fused(vector, fts)), 3 * perSide)
  }

  /** `vector` is absent when no embedding could be had. */
  function VectorHits(vector: Option<seq<Hit>>): seq<Hit> {
    if vector.Some? then vector.value else []
  }

  // -- the method -------------------------------------------------------------------

  /** The dictionary of the reranker's scores. */
  method ScoresOf(reranked: seq<Scored>) returns (order: map<nat, real>)
    ensures forall i :: (if i in order then order[i] else 0.0) == ScoreAt(reranked, i)
  {
    order := map[];
    for n := 0 to |reranked|
      invariant forall i :: (i in order <==> Opinion(reranked[..n], i).Some?)
                            && (i in order ==> order[i] == Opinion(reranked[..n], i).value)
    {
      assert reranked[..n + 1][..n] == reranked[..n];
      order := order[reranked[n].index := reranked[n].score];
    }
    assert reranked[..|reranked|] == reranked;
  }

  /** The position of a hit, found by searching. */
  method IndexOf(hits: seq<Hit>, i: nat) returns (at: nat)
    requires DistinctIds(hits) && i < |hits|
    ensures at == i
  {
    at := 0;
    while hits[at] != hits[i]
      invariant at <= i
      decreases i - at
    {
      at := at + 1;
    }
  }

  method Rerank(hits: seq<Hit>, reranked: seq<Scored>) returns (ordered: seq<Hit>)
    requires DistinctIds(hits)
    ensures ordered == Reranked(hits, reranked)
  {
    var order := ScoresOf(reranked);
    var keyed: seq<Ranked> := [];
    for i := 0 to |hits|
      invariant keyed == Opinions(hits, reranked)[..i]
    {
      var at := IndexOf(hits, i);
      keyed := keyed + [Keyed(hits[i], if at in order then order[at] else 0.0)];
    }
    assert keyed == Opinions(hits, reranked);
    ordered := HitsOf(SortedDown(keyed));
  }

  method FinishSearch(vector: Option<seq<Hit>>, fts: seq<Hit>, perSide: nat, k: nat, reranked: Option<seq<Scored>>)
    returns (result: SearchResult)
    ensures result.chunks == Cut(Ordered(FusedHits(VectorHits(vector), fts, perSide), reranked), k)
    ensures result.vectorUsed == vector.Some? && result.ftsUsed == (fts != [])
    ensures result.rerankUsed == (|FusedHits(VectorHits(vector), fts, perSide)| > 1 && reranked.Some?)
    ensures result.degradation == if vector.None? then Some(EmbeddingUnavailable)
                                  else if |FusedHits(VectorHits(vector), fts, perSide)| > 1 && reranked.None? then Some(RerankUnavailable)
                                  else None
  {
    var vectorHits := VectorHits(vector);
    if vectorHits == [] && fts == [] {
      NothingFused(vectorHits, fts, perSide);
      return SearchResult([], if vector.Some? then None else Some(EmbeddingUnavailable), vector.Some?, false, false);
    }
    var ranked := RrfFuse(vectorHits, fts);
    var fused := HitsOf(ranked);
    FusedIsRanking(vectorHits, fts);
    if |fused| > 3 * perSide {
      fused := fused[..3 * perSide];
    }
    var degradation := if vector.Some? then None else Some(EmbeddingUnavailable);
    var rerankUsed := false;
    if |fused| > 1 {
      if reranked.Some? {
        fused := Rerank(fused, reranked.value);
        rerankUsed := true;
      } else if degradation.None? {
        degradation := Some(RerankUnavailable);
      }
    }
    return SearchResult(Cut(fused, k), degradation, vector.Some?, fts != [], rerankUsed);
  }

  lemma NothingFused(vector: seq<Hit>, fts: seq<Hit>, perSide: nat)
    requires vector == [] && fts == []
    ensures FusedHits(vector, fts, perSide) == []
  {
    assert vector + fts == [];
    assert KeyedHits([], vector, fts) == [];
  }

  // -- what the order means -------------------------------------------------------------

  /** Position `i` comes before position `j` when it scores higher, or as high and is
      better placed by the fusion. */
  predicate Outranks(reranked: seq<Scored>, i: nat, j: nat) {
    ScoreAt(reranked, i) > ScoreAt(reranked, j) || (ScoreAt(reranked, i) == ScoreAt(reranked, j) && i < j)
  }

  lemma OutrankedComesLater(hits: seq<Hit>, reranked: seq<Scored>, i: nat, j: nat)
    requires i < |hits| && j < |hits| && Outranks(reranked, i, j)
    ensures Before(Reranked(hits, reranked), hits[i], hits[j])
  {
    var keyed := Opinions(hits, reranked);
    var sorted := SortedDown(keyed);
    SortedFacts(keyed);
    assert keyed[i] in multiset(keyed) && keyed[j] in multiset(keyed);
    assert keyed[i] in multiset(sorted) && keyed[j] in multiset(sorted);
    if ScoreAt(reranked, i) > ScoreAt(reranked, j) {
      HigherComesFirst(sorted, keyed[i], keyed[j]);
    } else {
      SortIsStable(keyed, keyed[i], keyed[j]);
    }
    var p, q :| 0 <= p < q < |sorted| && sorted[p] == keyed[i] && sorted[q] == keyed[j];
    assert HitsOf(sorted)[p] == hits[i] && HitsOf(sorted)[q] == hits[j];
  }

  lemma RerankedKeepsHits(hits: seq<Hit>, reranked: seq<Scored>)
    requires DistinctIds(hits)
    ensures DistinctIds(Reranked(hits, reranked)) && |Reranked(hits, reranked)| == |hits|
    ensures forall hit :: hit in Reranked(hits, reranked) <==> hit in hits
  {
    var keyed := Opinions(hits, reranked);
    var sorted := SortedDown(keyed);
    assert HitsOf(keyed) == hits;
    SortedDistinct(keyed);
    SortedFacts(keyed);
    assert |multiset(keyed)| == |keyed| && |multiset(sorted)| == |sorted|;
    forall hit ensures hit in HitsOf(sorted) <==> hit in hits {
      if hit in hits {
        var i :| 0 <= i < |hits| && hits[i] == hit;
        assert keyed[i] in multiset(sorted);
        var p :| 0 <= p < |sorted| && sorted[p] == keyed[i];
        assert HitsOf(sorted)[p] == hit;
      }
      if hit in HitsOf(sorted) {
        var p :| 0 <= p < |sorted| && HitsOf(sorted)[p] == hit;
        assert sorted[p] in multiset(keyed);
        var i :| 0 <= i < |keyed| && keyed[i] == sorted[p];
        assert hits[i] == hit;
      }
    }
  }

  /** The reranked order, exactly: the same hits, and of two of them the first is the one
      with the higher score, or the better place in the fusion if they score the same. A
      hit the reranker left out counts as zero, so it precedes every negative score. */
  lemma RerankedExactly(hits: seq<Hit>, reranked: seq<Scored>, i: nat, j: nat)
    requires DistinctIds(hits) && i < |hits| && j < |hits| && i != j
    ensures Before(Reranked(hits, reranked), hits[i], hits[j]) <==> Outranks(reranked, i, j)
  {
    RerankedKeepsHits(hits, reranked);
    var ordered := Reranked(hits, reranked);
    if Outranks(reranked, i, j) {
      OutrankedComesLater(hits, reranked, i, j);
    } else {
      OutrankedComesLater(hits, reranked, j, i);
      var p, q :| 0 <= p < q < |ordered| && ordered[p] == hits[j] && ordered[q] == hits[i];
      assert hits[i].id != hits[j].id;
      assert forall a, b :: 0 <= a < b < |ordered| ==> !(ordered[a] == hits[i] && ordered[b] == hits[j]);
    }
  }

  lemma CutFacts(hits: seq<Hit>, n: nat)
    requires DistinctIds(hits)
    ensures DistinctIds(Cut(hits, n)) && Cut(hits, n) <= hits && |Cut(hits, n)| == if |hits| <= n then |hits| else n
  {
  }

  /** A search returns at most `k` chunks, each found by a leg and each once; fewer only if
      the legs found fewer. Whether the reranker answered changes the order, not the number. */
  lemma SearchFindsTheTop(vector: seq<Hit>, fts: seq<Hit>, perSide: nat, k: nat, reranked: Option<seq<Scored>>)
    requires |vector| <= perSide && |fts| <= perSide
    ensures var chunks := Cut(Ordered(FusedHits(vector, fts, perSide), reranked), k);
            && DistinctIds(chunks)
            && |chunks| == (if |Fused(vector, fts)| <= k then |Fused(vector, fts)| else k)
            && forall hit :: hit in chunks ==> Knows(vector, hit.id) || Knows(fts, hit.id)
  {
    FusedIsRanking(vector, fts);
    CutDropsNothing(vector, fts, perSide);
    var fused := HitsOf(Fused(vector, fts));
    assert FusedHits(vector, fts, perSide) == fused;
    if reranked.Some? { RerankedKeepsHits(fused, reranked.value); }
    var ordered := Ordered(fused, reranked);
    CutFacts(ordered, k);
    forall hit | hit in Cut(ordered, k)
      ensures Knows(vector, hit.id) || Knows(fts, hit.id)
    {
      assert hit in ordered && hit in fused;
      var p :| 0 <= p < |fused| && fused[p] == hit;
      FusedOnlyHolds(vector, fts, Fused(vector, fts)[p]);
    }
  }

  /** Position `i` of the fused list is better than position `j`: by the reranker if it was
      asked and answered, otherwise by the fusion. */
  predicate Better(reranked: Option<seq<Scored>>, i: nat, j: nat) {
    if reranked.Some? then
      var a, b := ScoreAt(reranked.value, i), ScoreAt(reranked.value, j);
      a > b || (a == b && i < j)
    else i < j
  }

  lemma OrderedExactly(fused: seq<Hit>, reranked: Option<seq<Scored>>, i: nat, j: nat)
    requires DistinctIds(fused) && i < |fused| && j < |fused| && i != j
    ensures Before(Ordered(fused, reranked), fused[i], fused[j]) <==> Better(reranked, i, j)
    ensures DistinctIds(Ordered(fused, reranked)) && fused[i] in Ordered(fused, reranked)
  {
    if reranked.Some? {
      RerankedExactly(fused, reranked.value, i, j);
      RerankedKeepsHits(fused, reranked.value);
    } else {
      assert fused[i].id != fused[j].id;
    }
  }

  lemma CutOrders(ordered: seq<Hit>, k: nat, x: Hit, y: Hit)
    requires DistinctIds(ordered) && x in ordered
    ensures Before(Cut(ordered, k), x, y) <==> Before(ordered, x, y) && y in Cut(ordered, k)
  {
    var chunks := Cut(ordered, k);
    if Before(ordered, x, y) && y in chunks {
      var p, q :| 0 <= p < q < |ordered| && ordered[p] == x && ordered[q] == y;
      var r :| 0 <= r < |chunks| && chunks[r] == y;
      assert ordered[r].id == ordered[q].id;
      assert chunks[p] == x && chunks[r] == y;
    }
  }

  /** A search returns the best and in order: of two fused hits the first returned is the
      better one, and nothing is returned without everything better. */
  lemma SearchKeepsTheBest(vector: seq<Hit>, fts: seq<Hit>, perSide: nat, k: nat, reranked: Option<seq<Scored>>,
                           i: nat, j: nat)
    requires var n := |FusedHits(vector, fts, perSide)|; i < n && j < n && i != j
    ensures var fused := FusedHits(vector, fts, perSide);
            var chunks := Cut(Ordered(fused, reranked), k);
            && (Before(chunks, fused[i], fused[j]) <==> fused[j] in chunks && Better(reranked, i, j))
            && (fused[j] in chunks && Better(reranked, i, j) ==> fused[i] in chunks)
  {
    FusedIsRanking(vector, fts);
    var fused := FusedHits(vector, fts, perSide);
    CutFacts(HitsOf(Fused(vector, fts)), 3 * perSide);
    OrderedExactly(fused, reranked, i, j);
    CutOrders(Ordered(fused, reranked), k, fused[i], fused[j]);
  }
}
