/** Readiness: evidence and evaluations to a score per competency, an overall score, and
    the critical gaps. Reals stand for floats; an evaluation's recency factor, a power of
    one half, is given with it. */
module Readiness {
  import opened Rounding
  import opened StableSort

  datatype Status = Demonstrated | Observed | Inferred | Claimed | Unknown

  datatype Competency = Competency(id: int, name: string, importance: string, weight: real, level: int)
  datatype Evidence = Evidence(competency: int, status: Status, strength: real)
  datatype Evaluation = Evaluation(competency: int, overall: real, confidence: real, recency: real)

  datatype Assessed = Assessed(competency: Competency, score: real, confidence: real, coverage: real, level: int)
  datatype CriticalGap = CriticalGap(competency: Competency, demonstrated: int, score: real, gap: int)
  datatype Result = Result(overall: real, confidence: real, coverage: real, per: seq<Assessed>, gaps: seq<Keyed<CriticalGap>>)

  /** The ranges the data classes document. */
  predicate InRange(c: Competency) {
    c.weight >= 0.0 && 1 <= c.level <= 5
  }

  predicate EvidenceInRange(e: Evidence) {
    0.0 <= e.strength <= 1.0
  }

  predicate EvaluationInRange(e: Evaluation) {
    0.0 <= e.overall <= 10.0 && 0.0 <= e.confidence <= 1.0 && 0.0 < e.recency <= 1.0
  }

  function StatusWeight(s: Status): real {
    match s
    case Demonstrated => 1.0
    case Observed => 0.7
    case Inferred => 0.5
    case Claimed => 0.4
    case Unknown => 0.0
  }

  function MaxReal(a: real, b: real): real {
    if a >= b then a else b
  }

  function MinReal(a: real, b: real): real {
    if a <= b then a else b
  }

  const TINY := 0.000000001

  // -- evidence -------------------------------------------------------------------

  function TotalWeight(evidence: seq<Evidence>): real {
    if evidence == [] then 0.0
    else TotalWeight(evidence[..|evidence| - 1]) + StatusWeight(evidence[|evidence| - 1].status)
  }

  function TotalStrength(evidence: seq<Evidence>): real {
    if evidence == [] then 0.0
    else
      var last := evidence[|evidence| - 1];
      TotalStrength(evidence[..|evidence| - 1]) + StatusWeight(last.status) * last.strength
  }

  function CoverageOf(evidence: seq<Evidence>): real {
    if evidence == [] then 0.0
    else RoundTo(MinReal(1.0, TotalWeight(evidence) / MaxReal(1.0, |evidence| as real * 0.75)), 1000)
  }

  function StrengthOf(evidence: seq<Evidence>): real {
    if evidence == [] then 0.0 else RoundTo(TotalStrength(evidence) / MaxReal(TINY, TotalWeight(evidence)), 1000)
  }

  method EvidenceCoverage(evidence: seq<Evidence>) returns (coverage: real, strength: real)
    ensures coverage == CoverageOf(evidence) && strength == StrengthOf(evidence)
  {
    if evidence == [] {
      return 0.0, 0.0;
    }
    var total, strengthSum := 0.0, 0.0;
    for i := 0 to |evidence|
      invariant total == TotalWeight(evidence[..i]) && strengthSum == TotalStrength(evidence[..i])
    {
      assert evidence[..i + 1][..i] == evidence[..i];
      var weight := StatusWeight(evidence[i].status);
      total := total + weight;
      strengthSum := strengthSum + weight * evidence[i].strength;
    }
    assert evidence[..|evidence|] == evidence;
    coverage := RoundTo(MinReal(1.0, total / MaxReal(1.0, |evidence| as real * 0.75)), 1000);
    strength := RoundTo(strengthSum / MaxReal(TINY, total), 1000);
  }

  // -- evaluations ----------------------------------------------------------------

  function TotalRecency(evaluations: seq<Evaluation>): real {
    if evaluations == [] then 0.0
    else TotalRecency(evaluations[..|evaluations| - 1]) + evaluations[|evaluations| - 1].recency
  }

  function TotalOverall(evaluations: seq<Evaluation>): real {
    if evaluations == [] then 0.0
    else
      var last := evaluations[|evaluations| - 1];
      TotalOverall(evaluations[..|evaluations| - 1]) + last.recency * last.overall
  }

  function TotalConfidence(evaluations: seq<Evaluation>): real {
    if evaluations == [] then 0.0
    else
      var last := evaluations[|evaluations| - 1];
      TotalConfidence(evaluations[..|evaluations| - 1]) + last.recency * last.confidence
  }

  function ScoreOf(evaluations: seq<Evaluation>): real {
    if evaluations == [] then 0.0
    else RoundTo(TotalOverall(evaluations) / MaxReal(TINY, TotalRecency(evaluations)), 100)
  }

  function ConfidenceOf(evaluations: seq<Evaluation>): real {
    if evaluations == [] then 0.0
    else RoundTo(TotalConfidence(evaluations) / MaxReal(TINY, TotalRecency(evaluations)), 100)
  }

  method EvaluationScore(evaluations: seq<Evaluation>) returns (score: real, confidence: real)
    ensures score == ScoreOf(evaluations) && confidence == ConfidenceOf(evaluations)
  {
    if evaluations == [] {
      return 0.0, 0.0;
    }
    var weightSum, scoreSum, confSum := 0.0, 0.0, 0.0;
    for i := 0 to |evaluations|
      invariant weightSum == TotalRecency(evaluations[..i]) && scoreSum == TotalOverall(evaluations[..i])
      invariant confSum == TotalConfidence(evaluations[..i])
    {
      assert evaluations[..i + 1][..i] == evaluations[..i];
      var ev := evaluations[i];
      weightSum := weightSum + ev.recency;
      scoreSum := scoreSum + ev.recency * ev.overall;
      confSum := confSum + ev.recency * ev.confidence;
    }
    assert evaluations[..|evaluations|] == evaluations;
    score := RoundTo(scoreSum / MaxReal(TINY, weightSum), 100);
    confidence := RoundTo(confSum / MaxReal(TINY, weightSum), 100);
  }

  // -- one competency -------------------------------------------------------------

  function EvidenceFor(evidence: seq<Evidence>, id: int): seq<Evidence> {
    if evidence == [] then []
    else (if evidence[0].competency == id then [evidence[0]] else []) + EvidenceFor(evidence[1..], id)
  }

  function EvaluationsFor(evaluations: seq<Evaluation>, id: int): seq<Evaluation> {
    if evaluations == [] then []
    else (if evaluations[0].competency == id then [evaluations[0]] else []) + EvaluationsFor(evaluations[1..], id)
  }

  function Blend(strength: real, score: real): real {
    if score > 0.0 then RoundTo(0.6 * score + 0.4 * (strength * 10.0), 100) else RoundTo(strength * 10.0, 100)
  }

  /** Without evidence a score cannot be high. */
  function Capped(coverage: real, blend: real): real {
    RoundTo(MinReal(10.0, if coverage < 0.3 then MinReal(blend, 4.0) else blend), 100)
  }

  function LevelOf(score: real): int {
    var level := RoundInt(score / 2.0);
    var top := if level <= 5 then level else 5;
    if top >= 1 then top else 1
  }

  function Assess(c: Competency, evidence: seq<Evidence>, evaluations: seq<Evaluation>): Assessed {
    var own, graded := EvidenceFor(evidence, c.id), EvaluationsFor(evaluations, c.id);
    var coverage, score := CoverageOf(own), ScoreOf(graded);
    var demonstrated := Capped(coverage, Blend(StrengthOf(own), score));
    var confidence :=
      if score > 0.0 then RoundTo(0.5 * ConfidenceOf(graded) + 0.5 * coverage, 100) else RoundTo(coverage, 100);
    Assessed(c, demonstrated, confidence, coverage, LevelOf(demonstrated))
  }

  predicate Critical(a: Assessed) {
    a.competency.importance == "required" && a.level < a.competency.level
  }

  function GapOf(a: Assessed): Keyed<CriticalGap> {
    var gap := a.competency.level - a.level;
    Keyed(CriticalGap(a.competency, a.level, a.score, gap), gap as real)
  }

  function AssessAll(cs: seq<Competency>, evidence: seq<Evidence>, evaluations: seq<Evaluation>): (per: seq<Assessed>)
    ensures |per| == |cs| && forall i :: 0 <= i < |cs| ==> per[i] == Assess(cs[i], evidence, evaluations)
  {
    seq(|cs|, i requires 0 <= i < |cs| => Assess(cs[i], evidence, evaluations))
  }

  function GapsIn(per: seq<Assessed>): seq<Keyed<CriticalGap>> {
    if per == [] then []
    else
      var before, last := GapsIn(per[..|per| - 1]), per[|per| - 1];
      if Critical(last) then before + [GapOf(last)] else before
  }

  function WeightSum(per: seq<Assessed>): real {
    if per == [] then 0.0 else WeightSum(per[..|per| - 1]) + per[|per| - 1].competency.weight
  }

  datatype Measure = OfScore | OfConfidence | OfCoverage

  function Value(a: Assessed, m: Measure): real {
    match m
    case OfScore => a.score
    case OfConfidence => a.confidence
    case OfCoverage => a.coverage
  }

  function Weighted(per: seq<Assessed>, m: Measure): real {
    if per == [] then 0.0
    else
      var last := per[|per| - 1];
      Weighted(per[..|per| - 1], m) + Value(last, m) * last.competency.weight
  }

  function Average(per: seq<Assessed>, m: Measure): real {
    if per == [] then 0.0 else RoundTo(Weighted(per, m) / MaxReal(TINY, WeightSum(per)), 100)
  }

  function Summed(per: seq<Assessed>, gaps: seq<Keyed<CriticalGap>>): Result {
    Result(Average(per, OfScore), Average(per, OfConfidence), Average(per, OfCoverage), per, SortedDown(gaps))
  }

  function Computed(cs: seq<Competency>, evidence: seq<Evidence>, evaluations: seq<Evaluation>): Result {
    var per := AssessAll(cs, evidence, evaluations);
    Summed(per, GapsIn(per))
  }

  method AssessOne(c: Competency, evidence: seq<Evidence>, evaluations: seq<Evaluation>) returns (a: Assessed)
    ensures a == Assess(c, evidence, evaluations)
  {
    var own, graded := EvidenceFor(evidence, c.id), EvaluationsFor(evaluations, c.id);
    var coverage, strength := EvidenceCoverage(own);
    var score, conf := EvaluationScore(graded);
    var demonstrated, confidence;
    if score > 0.0 {
      demonstrated := RoundTo(0.6 * score + 0.4 * (strength * 10.0), 100);
      confidence := RoundTo(0.5 * conf + 0.5 * coverage, 100);
    } else {
      demonstrated := RoundTo(strength * 10.0, 100);
      confidence := RoundTo(coverage, 100);
    }
    ghost var blend := Blend(strength, score);
    assert demonstrated == blend;
    if coverage < 0.3 {
      demonstrated := MinReal(demonstrated, 4.0);
    }
    demonstrated := RoundTo(MinReal(10.0, demonstrated), 100);
    assert demonstrated == Capped(coverage, blend);
    a := Assessed(c, demonstrated, confidence, coverage, LevelOf(demonstrated));
  }

  method ComputeReadiness(cs: seq<Competency>, evidence: seq<Evidence>, evaluations: seq<Evaluation>)
    returns (r: Result)
    ensures r == Computed(cs, evidence, evaluations)
  {
    var per: seq<Assessed>, gaps: seq<Keyed<CriticalGap>> := [], [];
    ghost var all := AssessAll(cs, evidence, evaluations);
    for i := 0 to |cs|
      invariant per == all[..i] && gaps == GapsIn(all[..i])
    {
      GapsNext(all, i);
      var a := AssessOne(cs[i], evidence, evaluations);
      per := per + [a];
      if a.competency.importance == "required" && a.level < a.competency.level {
        gaps := gaps + [GapOf(a)];
      }
    }
    assert all[..|cs|] == all;
    r := Summed(per, gaps);
  }

  lemma GapsNext(all: seq<Assessed>, i: nat)
    requires i < |all|
    ensures all[..i + 1] == all[..i] + [all[i]]
    ensures GapsIn(all[..i + 1]) == if Critical(all[i]) then GapsIn(all[..i]) + [GapOf(all[i])] else GapsIn(all[..i])
  {
    assert all[..i + 1][..i] == all[..i];
  }
}
