/**
 * The report view (components/AnalysisDashboard.tsx): a pure function of one
 * analysis result. What it computes on its own is a handful of tier choices,
 * the first three key moments and the numbering of the action steps; every
 * other value it shows is copied from the result.
 */
module AnalysisDashboard {
  import opened Types
  import Transcript

  /** The caption under the overall score. */
  datatype ScoreTier = ExcellentExecution | AveragePerformance | NeedsImprovement

  function TierCaption(t: ScoreTier): string {
    match t
    case ExcellentExecution => "Excellent Execution"
    case AveragePerformance => "Average Performance"
    case NeedsImprovement => "Needs Improvement"
  }

  /** The three captions are different texts, so the caption shown identifies the tier. */
  lemma TierCaptionsDistinct(a: ScoreTier, b: ScoreTier)
    ensures TierCaption(a) == TierCaption(b) <==> a == b
  {
    if a != b {
      assert TierCaption(a)[0] != TierCaption(b)[0];
    }
  }

  /** 2 for the best caption, 0 for the worst. */
  function TierRank(t: ScoreTier): nat {
    match t
    case ExcellentExecution => 2
    case AveragePerformance => 1
    case NeedsImprovement => 0
  }

  /** The caption for an overall score: above 75, above 50, or neither. */
  function OverallTier(score: real): (t: ScoreTier)
    ensures t == ExcellentExecution <==> score > 75.0
    ensures t == AveragePerformance <==> 50.0 < score <= 75.0
    ensures t == NeedsImprovement <==> score <= 50.0
  {
    if score > 75.0 then ExcellentExecution
    else if score > 50.0 then AveragePerformance
    else NeedsImprovement
  }

  /** A higher overall score never gets a worse caption. */
  lemma OverallTierMonotone(a: real, b: real)
    requires a <= b
    ensures TierRank(OverallTier(a)) <= TierRank(OverallTier(b))
  {
  }

  /** The shield drawn beside the deal risk. */
  datatype Shield = ShieldAlert | ShieldCheck

  /** Text colours the risk panel uses: #B91C1C, Tailwind's amber-500, #D4AF37. */
  datatype Colour = Crimson | Amber | Gold

  /** The alert shield (in crimson) for high risk; the check shield (in gold) otherwise. */
  function RiskShield(level: RiskLevel): (s: Shield)
    ensures s == ShieldAlert <==> level == High
  {
    if level == High then ShieldAlert else ShieldCheck
  }

  function ShieldColour(s: Shield): Colour {
    if s == ShieldAlert then Crimson else Gold
  }

  /** The colour of the risk label: one colour per risk level. */
  function RiskColour(level: RiskLevel): (c: Colour)
    ensures c == Crimson <==> level == High
    ensures c == Amber <==> level == Medium
    ensures c == Gold <==> level == Low
  {
    match level
    case High => Crimson
    case Medium => Amber
    case Low => Gold
  }

  /** The shield and the label are alike in colour except for medium risk. */
  lemma ShieldMatchesLabel(level: RiskLevel)
    ensures ShieldColour(RiskShield(level)) == RiskColour(level) <==> level != Medium
  {
  }

  /** The badge behind a coaching-matrix score out of 10. */
  datatype Badge = GreenBadge | AmberBadge | RedBadge

  function CoachingBadge(score: real): (b: Badge)
    ensures b == GreenBadge <==> score >= 8.0
    ensures b == AmberBadge <==> 5.0 <= score < 8.0
    ensures b == RedBadge <==> score < 5.0
  {
    if score >= 8.0 then GreenBadge
    else if score >= 5.0 then AmberBadge
    else RedBadge
  }

  /** `slice(0, 3)`: at most the first three moments, in their order. */
  function KeyMoments(moments: seq<HighValueMoment>): (shown: seq<HighValueMoment>)
    ensures |shown| == if |moments| < 3 then |moments| else 3
    ensures forall i :: 0 <= i < |shown| ==> shown[i] == moments[i]
  {
    if |moments| <= 3 then moments else moments[..3]
  }

  /** One action step with the number drawn in its circle. */
  datatype NumberedStep = NumberedStep(number: int, text: string)

  /** Steps numbered consecutively from `first`. */
  function NumberFrom(steps: seq<string>, first: int): (r: seq<NumberedStep>)
    ensures |r| == |steps|
    ensures forall i :: 0 <= i < |steps| ==> r[i].number == first + i && r[i].text == steps[i]
    decreases |steps|
  {
    if steps == [] then [] else [NumberedStep(first, steps[0])] + NumberFrom(steps[1..], first + 1)
  }

  /** The coach's orders: every action step, in order, numbered 1 to n. */
  function NumberedActionSteps(steps: seq<string>): (r: seq<NumberedStep>)
    ensures |r| == |steps|
    ensures forall i :: 0 <= i < |steps| ==> r[i].number == i + 1 && r[i].text == steps[i]
  {
    NumberFrom(steps, 1)
  }

  /** One card of the framework analysis. */
  datatype MatrixCard = MatrixCard(skillArea: string, score: real, badge: Badge, evidenceQuote: string, advice: string)

  function RenderMatrixItem(item: CoachingMatrixItem): MatrixCard {
    MatrixCard(item.skillArea, item.score, CoachingBadge(item.score), item.evidenceQuote, item.advice)
  }

  /** The top row of the dashboard. */
  datatype Summary = Summary(
    overallScore: real,
    tier: ScoreTier,
    caption: string,
    riskLevel: RiskLevel,
    shield: Shield,
    riskColour: Colour,
    momentum: real,
    momentumBarPercent: real,
    coachability: real,
    coachabilityBarPercent: real,
    keyMoments: seq<HighValueMoment>)

  /** Everything the dashboard shows, in the order it shows it. */
  datatype Dashboard = Dashboard(
    summary: Summary,
    sentiment: seq<SentimentPoint>,
    talkRatioRep: real,
    interruptions: real,
    avgQuestionDepth: real,
    monologues: real,
    transcript: seq<Transcript.TurnBlock>,
    actionSteps: seq<NumberedStep>,
    matrix: seq<MatrixCard>,
    missedOpportunities: seq<string>)

  /** The dashboard for one result: scores shown verbatim, each bar as wide as its score in percent. */
  function Render(data: AnalysisResult): (d: Dashboard)
    ensures d.summary.overallScore == data.performanceMetrics.overallScore
    ensures d.summary.tier == OverallTier(data.performanceMetrics.overallScore)
    ensures d.summary.caption == TierCaption(d.summary.tier)
    ensures d.summary.riskLevel == data.performanceMetrics.dealRiskLevel
    ensures d.summary.shield == RiskShield(data.performanceMetrics.dealRiskLevel)
    ensures d.summary.riskColour == RiskColour(data.performanceMetrics.dealRiskLevel)
    ensures d.summary.momentum == d.summary.momentumBarPercent == data.performanceMetrics.dealMomentumScore
    ensures d.summary.coachability == d.summary.coachabilityBarPercent == data.performanceMetrics.coachabilityScore
    ensures d.summary.keyMoments == KeyMoments(data.highValueMoments)
    ensures d.sentiment == data.sentimentGraphData
    ensures d.talkRatioRep == data.performanceMetrics.talkRatioRep
    ensures d.interruptions == data.performanceMetrics.interruptionCount
    ensures d.avgQuestionDepth == data.performanceMetrics.avgQuestionDepth
    ensures d.monologues == data.performanceMetrics.monologueFatigueSegments
    ensures d.transcript == Transcript.RenderTranscript(data.transcript)
    ensures d.actionSteps == NumberedActionSteps(data.coachingCard.actionSteps)
    ensures |d.matrix| == |data.coachingMatrix|
    ensures forall i :: 0 <= i < |d.matrix| ==>
      d.matrix[i].skillArea == data.coachingMatrix[i].skillArea &&
      d.matrix[i].score == data.coachingMatrix[i].score && d.matrix[i].badge == CoachingBadge(data.coachingMatrix[i].score) &&
      d.matrix[i].evidenceQuote == data.coachingMatrix[i].evidenceQuote && d.matrix[i].advice == data.coachingMatrix[i].advice
    ensures d.missedOpportunities == data.coachingCard.missedOpportunities
  {
    var m := data.performanceMetrics;
    var summary := Summary(
      m.overallScore, OverallTier(m.overallScore), TierCaption(OverallTier(m.overallScore)),
      m.dealRiskLevel, RiskShield(m.dealRiskLevel), RiskColour(m.dealRiskLevel),
      m.dealMomentumScore, m.dealMomentumScore,
      m.coachabilityScore, m.coachabilityScore,
      KeyMoments(data.highValueMoments));
    Dashboard(
      summary,
      data.sentimentGraphData,
      m.talkRatioRep, m.interruptionCount, m.avgQuestionDepth, m.monologueFatigueSegments,
      Transcript.RenderTranscript(data.transcript),
      NumberedActionSteps(data.coachingCard.actionSteps),
      seq(|data.coachingMatrix|, i requires 0 <= i < |data.coachingMatrix| => RenderMatrixItem(data.coachingMatrix[i])),
      data.coachingCard.missedOpportunities)
  }

  /**
   * The dashboard does not depend on the strengths or on the customer's talk
   * ratio: neither is shown.
   */
  lemma {:induction false} UnshownFieldsIgnored(data: AnalysisResult, strengths: seq<string>, talkRatioCustomer: real)
    ensures var other := data.(
      coachingCard := data.coachingCard.(strengths := strengths),
      performanceMetrics := data.performanceMetrics.(talkRatioCustomer := talkRatioCustomer));
      Render(other) == Render(data)
  {
  }
}
