/** What a readiness result guarantees, for inputs in their documented ranges. */
module ReadinessLaws {
  import opened Readiness
  import opened Rounding
  import opened StableSort

  ghost predicate InputsInRange(cs: seq<Competency>, evidence: seq<Evidence>, evaluations: seq<Evaluation>) {
    && (forall c :: c in cs ==> InRange(c))
    && (forall e :: e in evidence ==> EvidenceInRange(e))
    && (forall e :: e in evaluations ==> EvaluationInRange(e))
  }

  // -- arithmetic -----------------------------------------------------------------

  lemma TimesBetween(x: real, lo: real, hi: real, w: real)
    requires lo <= x <= hi && w >= 0.0
    ensures lo * w <= x * w <= hi * w
  {
  }

  /** One more weighted value between the bounds keeps the sum between theirs. */
  lemma SumBetween(sum: real, weights: real, x: real, lo: real, hi: real, w: real)
    requires lo * weights <= sum <= hi * weights && lo <= x <= hi && w >= 0.0
    ensures lo * (weights + w) <= sum + x * w <= hi * (weights + w)
    ensures x * w == w * x
  {
    TimesBetween(x, lo, hi, w);
    assert lo * (weights + w) == lo * weights + lo * w;
    assert hi * (weights + w) == hi * weights + hi * w;
  }

  lemma NextBetween(sum: real, weights: real, x: real, lo: real, hi: real, w: real, nextSum: real, nextWeights: real)
    requires lo * weights <= sum <= hi * weights && lo <= x <= hi && w >= 0.0
    requires nextSum == sum + x * w && nextWeights == weights + w
    ensures lo * nextWeights <= nextSum <= hi * nextWeights
  {
    SumBetween(sum, weights, x, lo, hi, w);
  }

  /** A quotient lies between its bounds when the numerator lies between theirs. */
  lemma QuotientBetween(a: real, b: real, lo: real, hi: real)
    requires b > 0.0 && lo * b <= a <= hi * b
    ensures lo <= a / b <= hi
  {
    assert (a / b - lo) * b == a - lo * b;
    assert (hi - a / b) * b == hi * b - a;
    if a / b < lo {
      TimesBetween(a / b, a / b, lo, b);
    }
    if a / b > hi {
      TimesBetween(hi, hi, a / b, b);
    }
  }

  lemma GridPoints(k: int)
    requires k in {0, 1, 4, 10}
    ensures OnGrid(k as real, 100) && OnGrid(k as real, 1000)
  {
    assert Unscaled(100 * k, 100) == k as real && Unscaled(1000 * k, 1000) == k as real;
    GridIsFixed(100 * k, 100);
    GridIsFixed(1000 * k, 1000);
  }

  /** Rounding a value between 0 and one of the scales' tops stays there. */
  lemma RoundUpTo(x: real, top: int, scale: nat)
    requires top in {1, 4, 10} && scale in {100, 1000} && 0.0 <= x <= top as real
    ensures 0.0 <= RoundTo(x, scale) <= top as real
  {
    GridPoints(0);
    GridPoints(top);
    RoundBetween(x, 0.0, top as real, scale);
  }

  // -- ranges ---------------------------------------------------------------------

  lemma {:induction false} WeightsBound(evidence: seq<Evidence>)
    requires forall e :: e in evidence ==> EvidenceInRange(e)
    ensures 0.0 <= TotalStrength(evidence) <= TotalWeight(evidence)
  {
    if evidence != [] {
      var last := evidence[|evidence| - 1];
      assert last in evidence;
      WeightsBound(evidence[..|evidence| - 1]);
      TimesBetween(last.strength, 0.0, 1.0, StatusWeight(last.status));
    }
  }

  lemma EvidenceRanges(evidence: seq<Evidence>)
    requires forall e :: e in evidence ==> EvidenceInRange(e)
    ensures 0.0 <= CoverageOf(evidence) <= 1.0 && 0.0 <= StrengthOf(evidence) <= 1.0
  {
    WeightsBound(evidence);
    if evidence != [] {
      var top := MaxReal(1.0, |evidence| as real * 0.75);
      var total := TotalWeight(evidence);
      assert total / top >= 0.0;
      RoundUpTo(MinReal(1.0, total / top), 1, 1000);
      var base := MaxReal(TINY, total);
      QuotientBetween(TotalStrength(evidence), base, 0.0, 1.0);
      RoundUpTo(TotalStrength(evidence) / base, 1, 1000);
    }
  }

  lemma {:induction false} SumsBound(evaluations: seq<Evaluation>)
    requires forall e :: e in evaluations ==> EvaluationInRange(e)
    ensures 0.0 <= TotalOverall(evaluations) <= 10.0 * TotalRecency(evaluations)
    ensures 0.0 <= TotalConfidence(evaluations) <= TotalRecency(evaluations)
  {
    if evaluations != [] {
      var last := evaluations[|evaluations| - 1];
      assert last in evaluations;
      SumsBound(evaluations[..|evaluations| - 1]);
      var before := evaluations[..|evaluations| - 1];
      var weights := TotalRecency(before);
      SumBetween(TotalOverall(before), weights, last.overall, 0.0, 10.0, last.recency);
      SumBetween(TotalConfidence(before), weights, last.confidence, 0.0, 1.0, last.recency);
    }
  }

  lemma EvaluationRanges(evaluations: seq<Evaluation>)
    requires forall e :: e in evaluations ==> EvaluationInRange(e)
    ensures 0.0 <= ScoreOf(evaluations) <= 10.0 && 0.0 <= ConfidenceOf(evaluations) <= 1.0
  {
    SumsBound(evaluations);
    if evaluations != [] {
      var base := MaxReal(TINY, TotalRecency(evaluations));
      QuotientBetween(TotalOverall(evaluations), base, 0.0, 10.0);
      QuotientBetween(TotalConfidence(evaluations), base, 0.0, 1.0);
      RoundUpTo(TotalOverall(evaluations) / base, 10, 100);
      RoundUpTo(TotalConfidence(evaluations) / base, 1, 100);
    }
  }

  lemma {:induction false} EvidenceForIn(evidence: seq<Evidence>, id: int)
    ensures forall e :: e in EvidenceFor(evidence, id) ==> e in evidence && e.competency == id
  {
    if evidence != [] {
      EvidenceForIn(evidence[1..], id);
    }
  }

  lemma {:induction false} EvaluationsForIn(evaluations: seq<Evaluation>, id: int)
    ensures forall e :: e in EvaluationsFor(evaluations, id) ==> e in evaluations && e.competency == id
  {
    if evaluations != [] {
      EvaluationsForIn(evaluations[1..], id);
    }
  }

  lemma LevelIsCapped(score: real)
    ensures 1 <= LevelOf(score) <= 5
    ensures score <= 4.0 ==> LevelOf(score) <= 2
  {
    if score <= 4.0 {
      RoundIntMonotone(score / 2.0, 2.0);
      assert RoundInt(2.0) == 2;
    }
  }

  /** Every score, confidence and coverage is in its range, scores are on the two-decimal
      grid, and thin evidence caps the score at 4 and the level at 2. */
  lemma AssessmentRanges(c: Competency, evidence: seq<Evidence>, evaluations: seq<Evaluation>)
    requires forall e :: e in evidence ==> EvidenceInRange(e)
    requires forall e :: e in evaluations ==> EvaluationInRange(e)
    ensures var a := Assess(c, evidence, evaluations);
            && 0.0 <= a.score <= 10.0 && 0.0 <= a.confidence <= 1.0 && 0.0 <= a.coverage <= 1.0
            && 1 <= a.level <= 5 && OnGrid(a.score, 100)
            && (a.coverage < 0.3 ==> a.score <= 4.0 && a.level <= 2)
  {
    var own, graded := EvidenceFor(evidence, c.id), EvaluationsFor(evaluations, c.id);
    EvidenceForIn(evidence, c.id);
    EvaluationsForIn(evaluations, c.id);
    EvidenceRanges(own);
    EvaluationRanges(graded);
    var coverage, strength, score := CoverageOf(own), StrengthOf(own), ScoreOf(graded);
    if score > 0.0 {
      RoundUpTo(0.6 * score + 0.4 * (strength * 10.0), 10, 100);
      RoundUpTo(0.5 * ConfidenceOf(graded) + 0.5 * coverage, 1, 100);
    } else {
      RoundUpTo(strength * 10.0, 10, 100);
      RoundUpTo(coverage, 1, 100);
    }
    var blend := Blend(strength, score);
    CapRanges(coverage, blend);
    LevelIsCapped(Capped(coverage, blend));
  }

  lemma CapRanges(coverage: real, blend: real)
    requires 0.0 <= blend <= 10.0
    ensures 0.0 <= Capped(coverage, blend) <= 10.0 && OnGrid(Capped(coverage, blend), 100)
    ensures coverage < 0.3 ==> Capped(coverage, blend) <= 4.0
  {
    var cut := if coverage < 0.3 then MinReal(blend, 4.0) else blend;
    RoundLands(MinReal(10.0, cut), 100);
    if coverage < 0.3 {
      RoundUpTo(MinReal(10.0, cut), 4, 100);
    } else {
      RoundUpTo(MinReal(10.0, cut), 10, 100);
    }
  }

  // -- critical gaps --------------------------------------------------------------

  lemma {:induction false} GapsInExactly(per: seq<Assessed>)
    ensures forall g :: g in GapsIn(per) <==> exists a :: a in per && Critical(a) && g == GapOf(a)
  {
    if per != [] {
      var n := |per| - 1;
      GapsInExactly(per[..n]);
      assert per == per[..n] + [per[n]];
      forall g
        ensures g in GapsIn(per) <==> exists a :: a in per && Critical(a) && g == GapOf(a)
      {
        if g in GapsIn(per) && g !in GapsIn(per[..n]) {
          assert per[n] in per && Critical(per[n]) && g == GapOf(per[n]);
        }
        if a :| a in per && Critical(a) && g == GapOf(a) {
          assert a in per[..n] || a == per[n];
        }
      }
    }
  }

  lemma GapInRange(c: Competency, evidence: seq<Evidence>, evaluations: seq<Evaluation>)
    requires InRange(c) && Critical(Assess(c, evidence, evaluations))
    requires forall e :: e in evidence ==> EvidenceInRange(e)
    requires forall e :: e in evaluations ==> EvaluationInRange(e)
    ensures 1 <= GapOf(Assess(c, evidence, evaluations)).item.gap <= 4
  {
    AssessmentRanges(c, evidence, evaluations);
  }

  lemma SortedHasSame(gaps: seq<Keyed<CriticalGap>>)
    ensures Descending(SortedDown(gaps)) && forall g :: g in SortedDown(gaps) <==> g in gaps
  {
    SortedFacts(gaps);
    forall g
      ensures g in SortedDown(gaps) <==> g in gaps
    {
      assert g in SortedDown(gaps) <==> g in multiset(SortedDown(gaps));
      assert g in gaps <==> g in multiset(gaps);
    }
  }

  /** The competency is required and assessed below its target; the gap says by how much. */
  predicate ShortBy(a: Assessed, g: Keyed<CriticalGap>) {
    && a.competency.importance == "required" && g.item.competency == a.competency
    && g.item.demonstrated == a.level && g.item.score == a.score
    && g.item.gap == a.competency.level - a.level > 0 && g.key == g.item.gap as real
  }

  lemma ShortIsCritical(a: Assessed, g: Keyed<CriticalGap>)
    ensures ShortBy(a, g) <==> Critical(a) && g == GapOf(a)
  {
  }

  /** The critical gaps are exactly the required competencies below their target, largest
      gap first, and every gap is between one and four levels. */
  lemma GapsAreExact(cs: seq<Competency>, evidence: seq<Evidence>, evaluations: seq<Evaluation>)
    requires InputsInRange(cs, evidence, evaluations)
    ensures var r := Computed(cs, evidence, evaluations);
            && (forall g :: g in r.gaps <==> exists a :: a in r.per && ShortBy(a, g))
            && Descending(r.gaps) && (forall g :: g in r.gaps ==> 1 <= g.item.gap <= 4 && g.key == g.item.gap as real)
  {
    var per := AssessAll(cs, evidence, evaluations);
    var gaps := GapsIn(per);
    GapsInExactly(per);
    SortedHasSame(gaps);
    forall a, g
      ensures ShortBy(a, g) <==> Critical(a) && g == GapOf(a)
    {
      ShortIsCritical(a, g);
    }
    forall g | g in gaps
      ensures 1 <= g.item.gap <= 4 && g.key == g.item.gap as real
    {
      var a :| a in per && Critical(a) && g == GapOf(a);
      var i :| 0 <= i < |per| && per[i] == a;
      assert cs[i] in cs;
      GapInRange(cs[i], evidence, evaluations);
    }
  }

  /** A required competency with a target of at least 3 and coverage below 0.3 is always a
      critical gap, whatever the evaluations say. */
  lemma ThinEvidenceIsCritical(cs: seq<Competency>, evidence: seq<Evidence>, evaluations: seq<Evaluation>, i: nat)
    requires InputsInRange(cs, evidence, evaluations) && i < |cs|
    requires cs[i].importance == "required" && cs[i].level >= 3
    requires Assess(cs[i], evidence, evaluations).coverage < 0.3
    ensures var r := Computed(cs, evidence, evaluations); GapOf(r.per[i]) in r.gaps
  {
    AssessmentRanges(cs[i], evidence, evaluations);
    GapsAreExact(cs, evidence, evaluations);
    var r := Computed(cs, evidence, evaluations);
    ShortIsCritical(r.per[i], GapOf(r.per[i]));
    assert r.per[i] in r.per && ShortBy(r.per[i], GapOf(r.per[i]));
  }

  // -- the overall score ----------------------------------------------------------

  lemma WeightedNext(per: seq<Assessed>, m: Measure)
    requires per != []
    ensures var before, last := per[..|per| - 1], per[|per| - 1];
            && WeightSum(per) == WeightSum(before) + last.competency.weight
            && Weighted(per, m) == Weighted(before, m) + Value(last, m) * last.competency.weight
  {
  }

  ghost predicate ValuesBetween(per: seq<Assessed>, m: Measure, lo: real, hi: real) {
    forall a :: a in per ==> lo <= Value(a, m) <= hi && a.competency.weight >= 0.0
  }

  lemma ValuesBefore(per: seq<Assessed>, m: Measure, lo: real, hi: real)
    requires per != [] && ValuesBetween(per, m, lo, hi)
    ensures ValuesBetween(per[..|per| - 1], m, lo, hi)
    ensures lo <= Value(per[|per| - 1], m) <= hi && per[|per| - 1].competency.weight >= 0.0
  {
    assert per[|per| - 1] in per;
  }

  lemma StepBetween(per: seq<Assessed>, m: Measure, lo: real, hi: real)
    requires per != [] && lo <= Value(per[|per| - 1], m) <= hi && per[|per| - 1].competency.weight >= 0.0
    requires var before := per[..|per| - 1];
             lo * WeightSum(before) <= Weighted(before, m) <= hi * WeightSum(before)
    ensures lo * WeightSum(per) <= Weighted(per, m) <= hi * WeightSum(per)
  {
    var before, last := per[..|per| - 1], per[|per| - 1];
    WeightedNext(per, m);
    NextBetween(Weighted(before, m), WeightSum(before), Value(last, m), lo, hi, last.competency.weight,
                Weighted(per, m), WeightSum(per));
  }

  lemma {:induction false} WeightedBetween(per: seq<Assessed>, m: Measure, lo: real, hi: real)
    requires ValuesBetween(per, m, lo, hi)
    ensures lo * WeightSum(per) <= Weighted(per, m) <= hi * WeightSum(per)
  {
    if per != [] {
      ValuesBefore(per, m, lo, hi);
      WeightedBetween(per[..|per| - 1], m, lo, hi);
      StepBetween(per, m, lo, hi);
    }
  }

  lemma AverageBetween(per: seq<Assessed>, m: Measure, lo: real, hi: real)
    requires forall a :: a in per ==> lo <= Value(a, m) <= hi && a.competency.weight >= 0.0
    requires per != [] && WeightSum(per) >= TINY && OnGrid(lo, 100) && OnGrid(hi, 100)
    ensures lo <= Average(per, m) <= hi
  {
    WeightedBetween(per, m, lo, hi);
    QuotientBetween(Weighted(per, m), WeightSum(per), lo, hi);
    RoundBetween(Weighted(per, m) / WeightSum(per), lo, hi, 100);
  }

  /** The overall score lies between the smallest and the largest competency score. */
  lemma OverallBetween(cs: seq<Competency>, evidence: seq<Evidence>, evaluations: seq<Evaluation>, lo: nat, hi: nat)
    requires InputsInRange(cs, evidence, evaluations)
    requires WeightSum(AssessAll(cs, evidence, evaluations)) >= TINY
    requires lo < |cs| && hi < |cs|
    requires var per := AssessAll(cs, evidence, evaluations);
             forall i :: 0 <= i < |cs| ==> per[lo].score <= per[i].score <= per[hi].score
    ensures var r := Computed(cs, evidence, evaluations); r.per[lo].score <= r.overall <= r.per[hi].score
  {
    var per := AssessAll(cs, evidence, evaluations);
    forall a | a in per
      ensures per[lo].score <= Value(a, OfScore) <= per[hi].score && a.competency.weight >= 0.0
    {
      var i :| 0 <= i < |per| && per[i] == a;
      assert InRange(cs[i]);
    }
    AssessmentRanges(cs[lo], evidence, evaluations);
    AssessmentRanges(cs[hi], evidence, evaluations);
    AverageBetween(per, OfScore, per[lo].score, per[hi].score);
  }
}
