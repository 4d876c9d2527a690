/** What a readiness number is made of: weighted means of the evidence and the evaluations,
    blended six to four, up to the rounding. */
module ReadinessBlend {
  import opened Readiness
  import opened ReadinessLaws
  import opened Rounding

  function Sum(weights: seq<real>): real {
    if weights == [] then 0.0 else Sum(weights[..|weights| - 1]) + weights[|weights| - 1]
  }

  /** Each value times its weight. */
  function Dot(weights: seq<real>, values: seq<real>): real
    requires |weights| == |values|
  {
    if weights == [] then 0.0
    else
      var n := |weights| - 1;
      Dot(weights[..n], values[..n]) + weights[n] * values[n]
  }

  function Mean(weights: seq<real>, values: seq<real>): real
    requires |weights| == |values|
  {
    if Sum(weights) == 0.0 then 0.0 else Dot(weights, values) / Sum(weights)
  }

  predicate Near(x: real, y: real, error: real) {
    y - error <= x <= y + error
  }

  // -- rounding -------------------------------------------------------------------

  lemma RoundIntNear(y: real)
    ensures Near(RoundInt(y) as real, y, 0.5)
  {
  }

  /** Two decimals are within half a hundredth, three within half a thousandth. */
  lemma RoundNear(x: real)
    ensures Near(RoundTo(x, 100), x, 0.005) && Near(RoundTo(x, 1000), x, 0.0005)
  {
    RoundIntNear(Scaled(x, 100));
    RoundIntNear(Scaled(x, 1000));
  }

  // -- means ----------------------------------------------------------------------

  function Credits(evidence: seq<Evidence>): (weights: seq<real>)
    ensures |weights| == |evidence| && forall i :: 0 <= i < |evidence| ==> weights[i] == StatusWeight(evidence[i].status)
  {
    seq(|evidence|, i requires 0 <= i < |evidence| => StatusWeight(evidence[i].status))
  }

  function Strengths(evidence: seq<Evidence>): (values: seq<real>)
    ensures |values| == |evidence| && forall i :: 0 <= i < |evidence| ==> values[i] == evidence[i].strength
  {
    seq(|evidence|, i requires 0 <= i < |evidence| => evidence[i].strength)
  }

  function Recencies(evaluations: seq<Evaluation>): (weights: seq<real>)
    ensures |weights| == |evaluations| && forall i :: 0 <= i < |evaluations| ==> weights[i] == evaluations[i].recency
  {
    seq(|evaluations|, i requires 0 <= i < |evaluations| => evaluations[i].recency)
  }

  function Overalls(evaluations: seq<Evaluation>): (values: seq<real>)
    ensures |values| == |evaluations| && forall i :: 0 <= i < |evaluations| ==> values[i] == evaluations[i].overall
  {
    seq(|evaluations|, i requires 0 <= i < |evaluations| => evaluations[i].overall)
  }

  function Confidences(evaluations: seq<Evaluation>): (values: seq<real>)
    ensures |values| == |evaluations| && forall i :: 0 <= i < |evaluations| ==> values[i] == evaluations[i].confidence
  {
    seq(|evaluations|, i requires 0 <= i < |evaluations| => evaluations[i].confidence)
  }

  lemma {:induction false} EvidenceSums(evidence: seq<Evidence>)
    ensures TotalWeight(evidence) == Sum(Credits(evidence))
    ensures TotalStrength(evidence) == Dot(Credits(evidence), Strengths(evidence))
    ensures TotalWeight(evidence) == 0.0 || TotalWeight(evidence) >= 0.4
    ensures TotalWeight(evidence) == 0.0 ==> TotalStrength(evidence) == 0.0
  {
    if evidence != [] {
      var n := |evidence| - 1;
      EvidenceSums(evidence[..n]);
      assert Credits(evidence)[..n] == Credits(evidence[..n]);
      assert Strengths(evidence)[..n] == Strengths(evidence[..n]);
    }
  }

  lemma {:induction false} EvaluationSums(evaluations: seq<Evaluation>)
    ensures TotalRecency(evaluations) == Sum(Recencies(evaluations))
    ensures TotalOverall(evaluations) == Dot(Recencies(evaluations), Overalls(evaluations))
    ensures TotalConfidence(evaluations) == Dot(Recencies(evaluations), Confidences(evaluations))
  {
    if evaluations != [] {
      var n := |evaluations| - 1;
      EvaluationSums(evaluations[..n]);
      assert Recencies(evaluations)[..n] == Recencies(evaluations[..n]);
      assert Overalls(evaluations)[..n] == Overalls(evaluations[..n]);
      assert Confidences(evaluations)[..n] == Confidences(evaluations[..n]);
    }
  }

  /** The strength is the mean strength of the records, each weighted by its status. */
  lemma StrengthIsMean(evidence: seq<Evidence>)
    ensures Near(StrengthOf(evidence), Mean(Credits(evidence), Strengths(evidence)), 0.0005)
  {
    EvidenceSums(evidence);
    if evidence != [] {
      RoundNear(TotalStrength(evidence) / MaxReal(TINY, TotalWeight(evidence)));
    }
  }

  /** The coverage is full when the statuses are worth three quarters of the records, and in
      proportion below that; a single record is worth its status. */
  lemma CoverageIsShare(evidence: seq<Evidence>)
    ensures |evidence| == 1 ==>
              CoverageOf(evidence) == match evidence[0].status
                                      case Demonstrated => 1.0
                                      case Observed => 0.7
                                      case Inferred => 0.5
                                      case Claimed => 0.4
                                      case Unknown => 0.0
    ensures |evidence| > 1 ==>
              var share := Sum(Credits(evidence)) / (0.75 * |evidence| as real);
              Near(CoverageOf(evidence), if share <= 1.0 then share else 1.0, 0.0005)
  {
    EvidenceSums(evidence);
    if |evidence| == 1 {
      OneRecord(evidence);
    } else if |evidence| > 1 {
      assert 0.75 * |evidence| as real >= 1.0;
      RoundNear(MinReal(1.0, TotalWeight(evidence) / MaxReal(1.0, |evidence| as real * 0.75)));
    }
  }

  lemma OneRecord(evidence: seq<Evidence>)
    requires |evidence| == 1
    ensures CoverageOf(evidence) == StatusWeight(evidence[0].status)
  {
    var w := StatusWeight(evidence[0].status);
    assert evidence[..0] == [];
    assert TotalWeight(evidence) == w;
    assert MinReal(1.0, w / 1.0) == w;
    assert Scaled(w, 1000) == RoundInt(Scaled(w, 1000)) as real;
  }

  lemma EvaluationsAreMeans(evaluations: seq<Evaluation>)
    requires evaluations != [] ==> Sum(Recencies(evaluations)) >= TINY
    ensures Near(ScoreOf(evaluations), Mean(Recencies(evaluations), Overalls(evaluations)), 0.005)
    ensures Near(ConfidenceOf(evaluations), Mean(Recencies(evaluations), Confidences(evaluations)), 0.005)
  {
    EvaluationSums(evaluations);
    if evaluations != [] {
      RoundNear(TotalOverall(evaluations) / MaxReal(TINY, TotalRecency(evaluations)));
      RoundNear(TotalConfidence(evaluations) / MaxReal(TINY, TotalRecency(evaluations)));
    }
  }

  /** A competency is assessed on all its own records, as often as they occur, and no others. */
  lemma {:induction false} OwnRecords(evidence: seq<Evidence>, evaluations: seq<Evaluation>, id: int)
    ensures forall e ::
              multiset(EvidenceFor(evidence, id))[e] == if e.competency == id then multiset(evidence)[e] else 0
    ensures forall e ::
              multiset(EvaluationsFor(evaluations, id))[e] == if e.competency == id then multiset(evaluations)[e] else 0
    decreases |evidence| + |evaluations|
  {
    if evidence != [] {
      OwnRecords(evidence[1..], evaluations, id);
      assert evidence == [evidence[0]] + evidence[1..];
    } else if evaluations != [] {
      OwnRecords(evidence, evaluations[1..], id);
      assert evaluations == [evaluations[0]] + evaluations[1..];
    }
  }

  // -- the blend ------------------------------------------------------------------

  function Lesser(a: real, b: real): real {
    if a <= b then a else b
  }

  /** The blend, of exact values: six parts evaluations and four parts evidence on a scale
      of ten, the evidence alone when there is no score, and at most four on thin evidence. */
  function Ideal(score: real, strength: real, scored: bool, thin: bool): real {
    var blend := if scored then 0.6 * score + 0.4 * (10.0 * strength) else 10.0 * strength;
    if thin then Lesser(4.0, blend) else blend
  }

  lemma CappedNear(coverage: real, strength: real, score: real)
    requires 0.0 <= strength <= 1.0 && 0.0 <= score <= 10.0
    ensures Near(Capped(coverage, Blend(strength, score)), Ideal(score, strength, score > 0.0, coverage < 0.3), 0.005)
  {
    var exact := Ideal(score, strength, score > 0.0, false);
    var blend := Blend(strength, score);
    RoundNear(exact);
    RoundLands(exact, 100);
    RoundUpTo(exact, 10, 100);
    assert blend == RoundTo(exact, 100);
    var cut := if coverage < 0.3 then MinReal(blend, 4.0) else blend;
    assert MinReal(10.0, cut) == cut;
    GridPoints(4);
    assert OnGrid(cut, 100);
  }

  /** One competency's numbers, up to rounding: the score is the blend of the means, the
      confidence the middle of evaluation confidence and coverage, and the level half the score. */
  lemma AssessmentIsBlend(c: Competency, evidence: seq<Evidence>, evaluations: seq<Evaluation>)
    requires forall e :: e in evidence ==> EvidenceInRange(e)
    requires forall e :: e in evaluations ==> EvaluationInRange(e)
    requires var graded := EvaluationsFor(evaluations, c.id); graded != [] ==> Sum(Recencies(graded)) >= TINY
    ensures var own, graded := EvidenceFor(evidence, c.id), EvaluationsFor(evaluations, c.id);
            var a, scored := Assess(c, evidence, evaluations), ScoreOf(graded) > 0.0;
            var score := Mean(Recencies(graded), Overalls(graded));
            var strength := Mean(Credits(own), Strengths(own));
            && Near(a.score, Ideal(score, strength, scored, a.coverage < 0.3), 0.01)
            && Near(a.confidence,
                    if scored then 0.5 * Mean(Recencies(graded), Confidences(graded)) + 0.5 * a.coverage else a.coverage,
                    0.0075)
            && a.coverage == CoverageOf(own)
            && (if a.score < 1.0 then a.level == 1 else Near(a.level as real, a.score / 2.0, 0.5))
  {
    var own, graded := EvidenceFor(evidence, c.id), EvaluationsFor(evaluations, c.id);
    AssessmentRanges(c, evidence, evaluations);
    EvidenceForIn(evidence, c.id);
    EvaluationsForIn(evaluations, c.id);
    EvidenceRanges(own);
    EvaluationRanges(graded);
    StrengthIsMean(own);
    EvaluationsAreMeans(graded);
    CappedNear(CoverageOf(own), StrengthOf(own), ScoreOf(graded));
    RoundNear(0.5 * ConfidenceOf(graded) + 0.5 * CoverageOf(own));
    RoundNear(CoverageOf(own));
    RoundIntNear(Assess(c, evidence, evaluations).score / 2.0);
  }

  // -- the overall numbers --------------------------------------------------------

  function Weights(per: seq<Assessed>): (weights: seq<real>)
    ensures |weights| == |per| && forall i :: 0 <= i < |per| ==> weights[i] == per[i].competency.weight
  {
    seq(|per|, i requires 0 <= i < |per| => per[i].competency.weight)
  }

  function Values(per: seq<Assessed>, m: Measure): (values: seq<real>)
    ensures |values| == |per| && forall i :: 0 <= i < |per| ==> values[i] == Value(per[i], m)
  {
    seq(|per|, i requires 0 <= i < |per| => Value(per[i], m))
  }

  lemma {:induction false} WeightedIsDot(per: seq<Assessed>, m: Measure)
    ensures WeightSum(per) == Sum(Weights(per)) && Weighted(per, m) == Dot(Weights(per), Values(per, m))
  {
    if per != [] {
      var n := |per| - 1;
      WeightedIsDot(per[..n], m);
      assert Weights(per)[..n] == Weights(per[..n]) && Values(per, m)[..n] == Values(per[..n], m);
    }
  }

  lemma AverageIsMean(per: seq<Assessed>, m: Measure)
    requires per != [] ==> Sum(Weights(per)) >= TINY
    ensures Near(Average(per, m), Mean(Weights(per), Values(per, m)), 0.005)
  {
    WeightedIsDot(per, m);
    if per != [] {
      RoundNear(Weighted(per, m) / MaxReal(TINY, WeightSum(per)));
    }
  }

  /** Overall score, confidence and coverage are the means of the competencies' own, each
      weighted by the competency, up to rounding. */
  lemma OverallsAreMeans(cs: seq<Competency>, evidence: seq<Evidence>, evaluations: seq<Evaluation>)
    requires var weights := Weights(AssessAll(cs, evidence, evaluations)); cs != [] ==> Sum(weights) >= TINY
    ensures var r := Computed(cs, evidence, evaluations);
            && Near(r.overall, Mean(Weights(r.per), Values(r.per, OfScore)), 0.005)
            && Near(r.confidence, Mean(Weights(r.per), Values(r.per, OfConfidence)), 0.005)
            && Near(r.coverage, Mean(Weights(r.per), Values(r.per, OfCoverage)), 0.005)
  {
    var per := AssessAll(cs, evidence, evaluations);
    AverageIsMean(per, OfScore);
    AverageIsMean(per, OfConfidence);
    AverageIsMean(per, OfCoverage);
  }
}
