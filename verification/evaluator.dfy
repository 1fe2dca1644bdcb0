/**
 * The fallback grader of the report evaluator: when the model-based
 * grading fails, a report is scored by five fixed conditional rules, the
 * scores are summed and the sum is mapped to a letter grade and a
 * pass / needs-improvement decision.
 */
module Evaluator {
  import opened Wrappers
  import opened Text

  // -----------------------------------------------------------------------
  // The report and grade shapes
  // -----------------------------------------------------------------------

  datatype Severity = Critical | High | Medium | Low

  /** A debugging report after normalisation to the fixed schema. */
  datatype NormalizedReport = NormalizedReport(
    summary: string,
    severity: Severity,
    suspectedCauses: seq<string>,
    evidence: seq<string>,
    impactedComponents: seq<string>,
    reproSteps: seq<string>,
    experiments: seq<string>,
    nextActions: seq<string>,
    ownerSuggestions: seq<string>,
    notes: Option<string>)

  datatype Criterion = Relevance | Clarity | Completeness | Accuracy | Actionability

  /** The order in which the criteria are reported. */
  const CriteriaOrder: seq<Criterion> := [Relevance, Clarity, Completeness, Accuracy, Actionability]

  datatype CriterionGrade = CriterionGrade(name: Criterion, score: int, rationale: string)

  /** The schema accepts criterion scores from 1 to 5 only. */
  predicate ValidScore(g: CriterionGrade) {
    1 <= g.score <= 5
  }

  datatype Letter = A | B | C | D | F

  datatype Decision = Pass | NeedsImprovement

  datatype Groundedness = High | Medium | Low

  datatype GradeResult = GradeResult(
    ok: bool,
    overallScore: int,
    grade: Letter,
    decision: Decision,
    criteria: seq<CriterionGrade>,
    groundedness: Groundedness,
    extractedFacts: seq<string>,
    missingElements: seq<string>,
    normalizedReport: Option<NormalizedReport>,
    notes: Option<string>)

  /** The overall score a grade result claims: the sum of its criterion scores. */
  function SumScores(criteria: seq<CriterionGrade>): int {
    if criteria == [] then 0 else criteria[0].score + SumScores(criteria[1..])
  }

  // -----------------------------------------------------------------------
  // Thresholds
  // -----------------------------------------------------------------------

  /** The letter ladder: A from 23, B from 19, C from 15, D from 12, else F. */
  function LetterGrade(total: int): Letter {
    if total >= 23 then A
    else if total >= 19 then B
    else if total >= 15 then C
    else if total >= 12 then D
    else F
  }

  /** Higher is better. */
  function LetterRank(g: Letter): nat {
    match g
    case A => 4
    case B => 3
    case C => 2
    case D => 1
    case F => 0
  }

  function DecisionFor(total: int): Decision {
    if total >= 18 then Pass else NeedsImprovement
  }

  /** A higher total never earns a lower letter. */
  lemma LetterGradeMonotone(s: int, t: int)
    requires s <= t
    ensures LetterRank(LetterGrade(s)) <= LetterRank(LetterGrade(t))
  {
  }

  /** A passing total always earns at least a C, and an A or B always passes. */
  lemma PassAgreesWithLetter(t: int)
    ensures DecisionFor(t) == Pass ==> LetterRank(LetterGrade(t)) >= LetterRank(C)
    ensures LetterRank(LetterGrade(t)) >= LetterRank(B) ==> DecisionFor(t) == Pass
  {
  }

  // -----------------------------------------------------------------------
  // The fallback heuristic
  // -----------------------------------------------------------------------

  const FallbackRationale := "Fallback heuristic"
  const UnavailableNote := "LLM grading unavailable: "

  /**
   * The lower-cased text the heuristic inspects: the summary, one space and
   * the suspected causes joined by spaces. The joining space is always
   * there, so the text is never empty.
   */
  function FallbackSummary(report: NormalizedReport): (s: string)
    ensures |s| == |report.summary| + 1 + |Join(report.suspectedCauses, " ")|
    ensures s[|report.summary|] == ' '
  {
    Lower(report.summary + " " + Join(report.suspectedCauses, " "))
  }

  /** The score the heuristic gives one criterion. */
  function FallbackScore(report: NormalizedReport, c: Criterion): (score: int)
    ensures 2 <= score <= 3
  {
    match c
    case Relevance => if FallbackSummary(report) != "" then 3 else 1
    case Clarity => if |report.nextActions| > 0 || |report.evidence| > 0 then 3 else 2
    case Completeness => if |report.reproSteps| > 0 && |report.nextActions| > 0 then 3 else 2
    case Accuracy => 3
    case Actionability => if |report.nextActions| > 0 then 3 else 2
  }

  function FallbackTotal(report: NormalizedReport): int {
    FallbackScore(report, Relevance) + FallbackScore(report, Clarity)
    + FallbackScore(report, Completeness) + FallbackScore(report, Accuracy)
    + FallbackScore(report, Actionability)
  }

  function FallbackCriteria(report: NormalizedReport): seq<CriterionGrade> {
    [ CriterionGrade(Relevance, FallbackScore(report, Relevance), FallbackRationale),
      CriterionGrade(Clarity, FallbackScore(report, Clarity), FallbackRationale),
      CriterionGrade(Completeness, FallbackScore(report, Completeness), FallbackRationale),
      CriterionGrade(Accuracy, FallbackScore(report, Accuracy), FallbackRationale),
      CriterionGrade(Actionability, FallbackScore(report, Actionability), FallbackRationale) ]
  }

  /**
   * The grade returned when the model call fails with an error whose type
   * is named `errorName`.
   */
  function FallbackGrade(report: NormalizedReport, errorName: string): GradeResult {
    var total := FallbackTotal(report);
    GradeResult(
      false, total, LetterGrade(total), DecisionFor(total), FallbackCriteria(report),
      Groundedness.Medium, [], [], Some(report), Some(UnavailableNote + errorName))
  }

  /** Relevance is always 3, whatever the report says. */
  lemma RelevanceAlwaysThree(report: NormalizedReport)
    ensures FallbackScore(report, Relevance) == 3
  {
  }

  /**
   * The fallback total lies in [12, 15]: it is 15 exactly when there are
   * next actions and repro steps, and 12 exactly when there are neither
   * next actions nor evidence.
   */
  lemma FallbackTotalRange(report: NormalizedReport)
    ensures 12 <= FallbackTotal(report) <= 15
    ensures FallbackTotal(report) == 15 <==> |report.nextActions| > 0 && |report.reproSteps| > 0
    ensures FallbackTotal(report) == 12 <==> |report.nextActions| == 0 && |report.evidence| == 0
  {
    RelevanceAlwaysThree(report);
  }

  /** The complete shape of a fallback grade. */
  lemma FallbackGradeShape(report: NormalizedReport, errorName: string)
    ensures var r := FallbackGrade(report, errorName);
      && !r.ok
      && r.groundedness == Groundedness.Medium
      && |r.criteria| == |CriteriaOrder|
      && (forall i :: 0 <= i < |r.criteria| ==> r.criteria[i].name == CriteriaOrder[i])
      && (forall i :: 0 <= i < |r.criteria| ==> ValidScore(r.criteria[i]))
      && r.overallScore == SumScores(r.criteria)
      && (r.grade == C <==> r.overallScore == 15)
      && (r.grade == D <==> r.overallScore != 15)
      && r.decision == NeedsImprovement
      && r.extractedFacts == [] && r.missingElements == []
      && r.normalizedReport == Some(report)
      && r.notes == Some(UnavailableNote + errorName)
  {
    FallbackTotalRange(report);
    SumOfFive(FallbackGrade(report, errorName).criteria);
  }

  lemma SumOfFive(cs: seq<CriterionGrade>)
    requires |cs| == 5
    ensures SumScores(cs) == cs[0].score + cs[1].score + cs[2].score + cs[3].score + cs[4].score
  {
    assert SumScores(cs[4..]) == cs[4].score + SumScores(cs[5..]);
    assert SumScores(cs[3..]) == cs[3].score + SumScores(cs[4..]);
    assert SumScores(cs[2..]) == cs[2].score + SumScores(cs[3..]);
    assert SumScores(cs[1..]) == cs[1].score + SumScores(cs[2..]);
  }
}
