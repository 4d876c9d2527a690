/** What the fused order means. */
module RankFusionLaws {
  import opened RankFusion
  import opened StableSort

  ghost predicate DistinctIds(hits: seq<Hit>) {
    forall i, j :: 0 <= i < j < |hits| ==> hits[i].id != hits[j].id
  }

  function HitsOf(rs: seq<Ranked>): (hits: seq<Hit>)
    ensures |hits| == |rs| && forall i :: 0 <= i < |rs| ==> hits[i] == rs[i].item
  {
    seq(|rs|, i requires 0 <= i < |rs| => rs[i].item)
  }

  // -- every chunk once -----------------------------------------------------------

  lemma {:induction false} FirstsFacts(hits: seq<Hit>)
    ensures DistinctIds(Firsts(hits))
    ensures forall id :: Knows(Firsts(hits), id) <==> Knows(hits, id)
  {
    if hits != [] {
      var n := |hits| - 1;
      FirstsFacts(hits[..n]);
      forall id
        ensures Knows(Firsts(hits), id) <==> Knows(hits, id)
      {
        KnowsAdd(hits[..n], hits[n], id);
        KnowsAdd(Firsts(hits[..n]), hits[n], id);
        assert hits == hits[..n] + [hits[n]];
      }
    }
  }

  lemma KnowsAdd(hits: seq<Hit>, last: Hit, id: int)
    ensures Knows(hits + [last], id) <==> Knows(hits, id) || last.id == id
  {
    var all := hits + [last];
    if Knows(hits, id) {
      var i :| 0 <= i < |hits| && hits[i].id == id;
      assert all[i].id == id;
    }
    if last.id == id {
      assert all[|hits|].id == id;
    }
  }

  lemma KnowsEither(a: seq<Hit>, b: seq<Hit>, id: int)
    ensures Knows(a + b, id) <==> Knows(a, id) || Knows(b, id)
  {
    if Knows(a, id) {
      var i :| 0 <= i < |a| && a[i].id == id;
      assert (a + b)[i].id == id;
    }
    if Knows(b, id) {
      var i :| 0 <= i < |b| && b[i].id == id;
      assert (a + b)[|a| + i].id == id;
    }
  }

  /** Each id's score, found back in the sorted list. */
  lemma FusedHolds(vector: seq<Hit>, fts: seq<Hit>, id: int) returns (r: Ranked)
    requires Knows(vector, id) || Knows(fts, id)
    ensures r in Fused(vector, fts) && r.item.id == id && r.key == Score(vector, fts, id)
  {
    var order := Firsts(vector + fts);
    var keyed := KeyedHits(order, vector, fts);
    FirstsFacts(vector + fts);
    KnowsEither(vector, fts, id);
    SortedFacts(keyed);
    var i :| 0 <= i < |order| && order[i].id == id;
    r := keyed[i];
    assert r in multiset(keyed);
    assert r in multiset(Fused(vector, fts));
  }

  lemma {:induction false} InsertDistinct(r: Ranked, sorted: seq<Ranked>)
    requires Descending(sorted) && DistinctIds(HitsOf(sorted)) && forall x :: x in sorted ==> x.item.id != r.item.id
    ensures DistinctIds(HitsOf(Insert(r, sorted)))
  {
    if sorted != [] && r.key < sorted[0].key {
      var first, rest := sorted[0], sorted[1..];
      assert HitsOf(rest) == HitsOf(sorted)[1..];
      assert forall x :: x in rest ==> x in sorted;
      InsertDistinct(r, rest);
      InsertFacts(r, rest);
      var more := Insert(r, rest);
      forall i | 0 <= i < |more|
        ensures more[i].item.id != first.item.id
      {
        assert more[i] in more;
        if more[i] != r {
          var j :| 0 <= j < |rest| && rest[j] == more[i];
          assert HitsOf(sorted)[0].id != HitsOf(sorted)[j + 1].id;
        }
      }
    }
  }

  lemma {:induction false} SortedDistinct(rs: seq<Ranked>)
    requires DistinctIds(HitsOf(rs))
    ensures DistinctIds(HitsOf(SortedDown(rs)))
  {
    if rs != [] {
      var rest := rs[1..];
      assert HitsOf(rest) == HitsOf(rs)[1..];
      SortedDistinct(rest);
      SortedFacts(rest);
      forall x | x in SortedDown(rest)
        ensures x.item.id != rs[0].item.id
      {
        assert x in multiset(SortedDown(rest));
        assert x in multiset(rest);
        var j :| 0 <= j < |rest| && rest[j] == x;
        assert HitsOf(rs)[0].id != HitsOf(rs)[j + 1].id;
      }
      InsertDistinct(rs[0], SortedDown(rest));
    }
  }

  lemma FusedOnlyHolds(vector: seq<Hit>, fts: seq<Hit>, r: Ranked)
    requires r in Fused(vector, fts)
    ensures Knows(vector, r.item.id) || Knows(fts, r.item.id)
    ensures r.key == Score(vector, fts, r.item.id)
  {
    var order := Firsts(vector + fts);
    var keyed := KeyedHits(order, vector, fts);
    SortedFacts(keyed);
    assert r in multiset(Fused(vector, fts));
    assert r in multiset(keyed);
    var i :| 0 <= i < |keyed| && keyed[i] == r;
    FirstsFacts(vector + fts);
    assert Knows(order, r.item.id);
    KnowsEither(vector, fts, r.item.id);
  }

  /** The fused list holds every id of either leg exactly once, best score first. */
  lemma FusedIsRanking(vector: seq<Hit>, fts: seq<Hit>)
    ensures var fused := Fused(vector, fts);
            && Descending(fused) && DistinctIds(HitsOf(fused))
            && (forall id :: Knows(HitsOf(fused), id) <==> Knows(vector, id) || Knows(fts, id))
            && (forall r :: r in fused ==> r.key == Score(vector, fts, r.item.id))
  {
    var fused, order := Fused(vector, fts), Firsts(vector + fts);
    var keyed := KeyedHits(order, vector, fts);
    SortedFacts(keyed);
    FirstsFacts(vector + fts);
    assert HitsOf(keyed) == order;
    SortedDistinct(keyed);
    forall id
      ensures Knows(HitsOf(fused), id) <==> Knows(vector, id) || Knows(fts, id)
    {
      if Knows(vector, id) || Knows(fts, id) {
        var r := FusedHolds(vector, fts, id);
        var i :| 0 <= i < |fused| && fused[i] == r;
        assert HitsOf(fused)[i].id == id;
      }
      if Knows(HitsOf(fused), id) {
        var i :| 0 <= i < |fused| && HitsOf(fused)[i].id == id;
        FusedOnlyHolds(vector, fts, fused[i]);
      }
    }
    forall r | r in fused
      ensures r.key == Score(vector, fts, r.item.id)
    {
      FusedOnlyHolds(vector, fts, r);
    }
  }

  // -- ranks and scores -----------------------------------------------------------

  lemma WorthFalls(a: nat, b: nat)
    requires a < b
    ensures Worth(a) > Worth(b)
  {
    var x, y := (RRF_K + a) as real, (RRF_K + b) as real;
    assert x < y && 1.0 / x - 1.0 / y == (y - x) / (x * y);
  }

  lemma {:induction false} ScoreOfRank(hits: seq<Hit>, p: nat, rank: nat)
    requires DistinctIds(hits) && p < |hits|
    ensures LegScore(hits, hits[p].id, rank) == Worth(rank + p)
  {
    var rest := hits[1..];
    if p == 0 {
      forall i | 0 <= i < |rest|
        ensures rest[i].id != hits[0].id
      {
        assert hits[i + 1] == rest[i];
      }
      ScoreOfNone(rest, hits[0].id, rank + 1);
    } else {
      ScoreOfRank(rest, p - 1, rank + 1);
    }
  }

  lemma {:induction false} ScoreOfNone(hits: seq<Hit>, id: int, rank: nat)
    requires forall i :: 0 <= i < |hits| ==> hits[i].id != id
    ensures LegScore(hits, id, rank) == 0.0
  {
    if hits != [] {
      ScoreOfNone(hits[1..], id, rank + 1);
    }
  }

  /** `a` comes before `b` wherever `b` is found. */
  ghost predicate RanksAbove(hits: seq<Hit>, a: int, b: int) {
    Knows(hits, b) ==> exists i, j :: 0 <= i < j < |hits| && hits[i].id == a && hits[j].id == b
  }

  lemma AboveScoresMore(hits: seq<Hit>, a: int, b: int)
    requires DistinctIds(hits) && RanksAbove(hits, a, b)
    ensures LegScore(hits, a, 1) >= LegScore(hits, b, 1)
    ensures Knows(hits, b) ==> LegScore(hits, a, 1) > LegScore(hits, b, 1)
  {
    if Knows(hits, b) {
      var i, j :| 0 <= i < j < |hits| && hits[i].id == a && hits[j].id == b;
      ScoreOfRank(hits, i, 1);
      ScoreOfRank(hits, j, 1);
      WorthFalls(1 + i, 1 + j);
    } else {
      ScoreOfNone(hits, b, 1);
    }
  }

  ghost predicate Precedes(rs: seq<Ranked>, a: int, b: int) {
    exists i, j :: 0 <= i < j < |rs| && rs[i].item.id == a && rs[j].item.id == b
  }

  lemma HigherPrecedes(vector: seq<Hit>, fts: seq<Hit>, a: int, b: int)
    requires (Knows(vector, a) || Knows(fts, a)) && (Knows(vector, b) || Knows(fts, b))
    requires Score(vector, fts, a) > Score(vector, fts, b)
    ensures Precedes(Fused(vector, fts), a, b)
  {
    var x := FusedHolds(vector, fts, a);
    var y := FusedHolds(vector, fts, b);
    SortedFacts(KeyedHits(Firsts(vector + fts), vector, fts));
    HigherComesFirst(Fused(vector, fts), x, y);
    var i, j :| 0 <= i < j < |Fused(vector, fts)| && Fused(vector, fts)[i] == x && Fused(vector, fts)[j] == y;
  }

  /** A chunk ranked above another in every leg that finds the other strictly precedes it. */
  lemma DominancePrecedes(vector: seq<Hit>, fts: seq<Hit>, a: int, b: int)
    requires DistinctIds(vector) && DistinctIds(fts)
    requires RanksAbove(vector, a, b) && RanksAbove(fts, a, b) && (Knows(vector, b) || Knows(fts, b))
    ensures Precedes(Fused(vector, fts), a, b)
  {
    AboveScoresMore(vector, a, b);
    AboveScoresMore(fts, a, b);
    HigherPrecedes(vector, fts, a, b);
  }

  // -- found by both legs ---------------------------------------------------------

  ghost predicate InBoth(vector: seq<Hit>, fts: seq<Hit>, id: int) {
    Knows(vector, id) && Knows(fts, id)
  }

  ghost predicate InOne(vector: seq<Hit>, fts: seq<Hit>, id: int) {
    Knows(vector, id) != Knows(fts, id)
  }

  /** Chunks found by both legs come first. */
  ghost predicate BothFirst(vector: seq<Hit>, fts: seq<Hit>) {
    forall a, b :: InBoth(vector, fts, a) && InOne(vector, fts, b) ==> Precedes(Fused(vector, fts), a, b)
  }

  lemma LegBounds(hits: seq<Hit>, id: int)
    requires DistinctIds(hits)
    ensures LegScore(hits, id, 1) <= Worth(1)
    ensures Knows(hits, id) ==> LegScore(hits, id, 1) >= Worth(|hits|)
    ensures !Knows(hits, id) ==> LegScore(hits, id, 1) == 0.0
  {
    if p :| 0 <= p < |hits| && hits[p].id == id {
      ScoreOfRank(hits, p, 1);
      if p > 0 {
        WorthFalls(1, 1 + p);
      }
      if 1 + p < |hits| {
        WorthFalls(1 + p, |hits|);
      }
    } else {
      ScoreOfNone(hits, id, 1);
    }
  }

  lemma ShortLegsPutBothFirst(vector: seq<Hit>, fts: seq<Hit>)
    requires DistinctIds(vector) && DistinctIds(fts) && |vector| <= 61 && |fts| <= 61
    ensures BothFirst(vector, fts)
  {
    forall a, b | InBoth(vector, fts, a) && InOne(vector, fts, b)
      ensures Precedes(Fused(vector, fts), a, b)
    {
      LegBounds(vector, a);
      LegBounds(fts, a);
      LegBounds(vector, b);
      LegBounds(fts, b);
      if |vector| < 61 {
        WorthFalls(|vector|, 61);
      }
      if |fts| < 61 {
        WorthFalls(|fts|, 61);
      }
      assert 2.0 * Worth(61) > Worth(1);
      HigherPrecedes(vector, fts, a, b);
    }
  }

  /** Legs of 62: chunk 1 is last in both, chunk 0 first in one, and they tie. */
  function TiedVector(): seq<Hit> {
    [Hit(0, [])] + seq(60, i => Hit(2 + i, [])) + [Hit(1, [])]
  }

  function TiedFts(): seq<Hit> {
    seq(61, i => Hit(100 + i, [])) + [Hit(1, [])]
  }

  lemma {:induction false} DistinctFirsts(hits: seq<Hit>)
    requires DistinctIds(hits)
    ensures Firsts(hits) == hits
  {
    if hits != [] {
      var n := |hits| - 1;
      DistinctFirsts(hits[..n]);
      assert hits == hits[..n] + [hits[n]];
    }
  }

  lemma {:induction false} FirstsExtend(a: seq<Hit>, b: seq<Hit>)
    ensures Firsts(a) <= Firsts(a + b)
  {
    if b == [] {
      assert a + b == a;
    } else {
      var n := |b| - 1;
      FirstsExtend(a, b[..n]);
      assert (a + b)[..|a + b| - 1] == a + b[..n];
    }
  }

  lemma TiedLegs()
    ensures var v, f := TiedVector(), TiedFts();
            && |v| == |f| == 62 && DistinctIds(v) && DistinctIds(f)
            && v[0].id == 0 && v[61].id == 1 && f[61].id == 1
            && (forall i :: 0 <= i < |f| ==> f[i].id != 0)
  {
  }

  /** Last of 62 in both legs is worth as much as first in one. */
  lemma LastInBothTiesFirstInOne(v: seq<Hit>, f: seq<Hit>)
    requires |v| == |f| == 62 && DistinctIds(v) && DistinctIds(f) && v[61].id == f[61].id
    requires forall i :: 0 <= i < |f| ==> f[i].id != v[0].id
    ensures Score(v, f, v[0].id) == Score(v, f, v[61].id)
  {
    ScoreOfRank(v, 0, 1);
    ScoreOfRank(v, 61, 1);
    ScoreOfRank(f, 61, 1);
    ScoreOfNone(f, v[0].id, 1);
    assert Worth(62) + Worth(62) == Worth(1);
  }

  /** A tie goes to the chunk that was found first. */
  lemma TieToTheFirst(vector: seq<Hit>, fts: seq<Hit>, i: nat, j: nat)
    requires i < j < |vector| && DistinctIds(vector)
    requires Score(vector, fts, vector[i].id) == Score(vector, fts, vector[j].id)
    ensures !Precedes(Fused(vector, fts), vector[j].id, vector[i].id)
  {
    DistinctFirsts(vector);
    FirstsExtend(vector, fts);
    var order := Firsts(vector + fts);
    var keyed := KeyedHits(order, vector, fts);
    assert order[i] == vector[i] && order[j] == vector[j];
    assert Before(keyed, keyed[i], keyed[j]);
    SortIsStable(keyed, keyed[i], keyed[j]);
    FusedIsRanking(vector, fts);
    NotBothWays(Fused(vector, fts), keyed[i], keyed[j]);
  }

  lemma TieAtSixtyTwo()
    ensures var v, f := TiedVector(), TiedFts();
            && |v| == |f| == 62 && DistinctIds(v) && DistinctIds(f)
            && InBoth(v, f, 1) && InOne(v, f, 0) && !Precedes(Fused(v, f), 1, 0)
  {
    TiedLegs();
    LastInBothTiesFirstInOne(TiedVector(), TiedFts());
    TieToTheFirst(TiedVector(), TiedFts(), 0, 61);
  }

  lemma NotBothWays(rs: seq<Ranked>, x: Ranked, y: Ranked)
    requires DistinctIds(HitsOf(rs)) && Before(rs, x, y)
    ensures !Precedes(rs, y.item.id, x.item.id)
  {
    var i, j :| 0 <= i < j < |rs| && rs[i] == x && rs[j] == y;
    forall k, l | 0 <= k < l < |rs| && rs[k].item.id == y.item.id
      ensures rs[l].item.id != x.item.id
    {
      SamePlace(rs, j, k);
      Differ(rs, i, l);
    }
  }

  lemma SamePlace(rs: seq<Ranked>, i: nat, j: nat)
    requires DistinctIds(HitsOf(rs)) && i < |rs| && j < |rs| && rs[i].item.id == rs[j].item.id
    ensures i == j
  {
  }

  lemma Differ(rs: seq<Ranked>, i: nat, j: nat)
    requires DistinctIds(HitsOf(rs)) && i < j < |rs|
    ensures rs[i].item.id != rs[j].item.id
  {
    assert HitsOf(rs)[i].id != HitsOf(rs)[j].id;
  }

  /** Legs of up to `limit` distinct hits always put chunks found by both first, exactly
      while the limit is at most 61. */
  lemma BothFirstExactlyTo61(limit: nat)
    ensures (forall v, f :: DistinctIds(v) && DistinctIds(f) && |v| <= limit && |f| <= limit ==> BothFirst(v, f))
            <==> limit <= 61
  {
    if limit <= 61 {
      forall v, f | DistinctIds(v) && DistinctIds(f) && |v| <= limit && |f| <= limit
        ensures BothFirst(v, f)
      {
        ShortLegsPutBothFirst(v, f);
      }
    } else {
      TieAtSixtyTwo();
      assert !BothFirst(TiedVector(), TiedFts());
    }
  }

  // -- the tail of a search -------------------------------------------------------

  /** The cut to three times the leg size never drops a hit. */
  lemma CutDropsNothing(vector: seq<Hit>, fts: seq<Hit>, perSide: nat)
    requires |vector| <= perSide && |fts| <= perSide
    ensures |Fused(vector, fts)| <= 2 * perSide
  {
    FirstsShorter(vector + fts);
    var keyed := KeyedHits(Firsts(vector + fts), vector, fts);
    SortedFacts(keyed);
    assert |multiset(keyed)| == |keyed|;
    assert |multiset(Fused(vector, fts))| == |Fused(vector, fts)|;
  }

  lemma {:induction false} FirstsShorter(hits: seq<Hit>)
    ensures |Firsts(hits)| <= |hits|
  {
    if hits != [] {
      FirstsShorter(hits[..|hits| - 1]);
    }
  }
}
