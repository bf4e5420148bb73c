/**
 * The shape of an analysis report (types.ts) and the option lists of the
 * configuration selects (constants.ts). Every score is a `real`: the
 * report's numbers come from the analysis service as JSON numbers.
 */
module Types {

  datatype Option<+T> = None | Some(value: T)

  datatype SalesFramework = MEDDIC | SPICED | BANT | Challenger | Sandler

  datatype DealStage = ColdCall | Discovery | Demo | Negotiation | Closing

  datatype RiskLevel = Low | Medium | High

  /** The text shown for a framework, and sent to the analysis service. */
  function FrameworkName(f: SalesFramework): string {
    match f
    case MEDDIC => "MEDDIC"
    case SPICED => "SPICED"
    case BANT => "BANT"
    case Challenger => "Challenger"
    case Sandler => "Sandler"
  }

  /** The text shown for a deal stage, and sent to the analysis service. */
  function StageName(d: DealStage): string {
    match d
    case ColdCall => "Cold Call"
    case Discovery => "Discovery"
    case Demo => "Demo"
    case Negotiation => "Negotiation"
    case Closing => "Closing"
  }

  /** The options of the framework select, in display order. */
  const SalesFrameworks: seq<SalesFramework> := [MEDDIC, SPICED, BANT, Challenger, Sandler]

  /** The options of the deal-stage select, in display order. */
  const DealStages: seq<DealStage> := [ColdCall, Discovery, Demo, Negotiation, Closing]

  /** Every framework is offered exactly once, under its own name. */
  lemma FrameworkOptionsComplete()
    ensures forall f :: f in SalesFrameworks
    ensures forall i, j :: 0 <= i < j < |SalesFrameworks| ==> SalesFrameworks[i] != SalesFrameworks[j]
    ensures forall f, g :: FrameworkName(f) == FrameworkName(g) ==> f == g
  {
    forall f ensures f in SalesFrameworks {
      match f
      case MEDDIC => assert SalesFrameworks[0] == f;
      case SPICED => assert SalesFrameworks[1] == f;
      case BANT => assert SalesFrameworks[2] == f;
      case Challenger => assert SalesFrameworks[3] == f;
      case Sandler => assert SalesFrameworks[4] == f;
    }
  }

  /** Every deal stage is offered exactly once, under its own name. */
  lemma StageOptionsComplete()
    ensures forall d :: d in DealStages
    ensures forall i, j :: 0 <= i < j < |DealStages| ==> DealStages[i] != DealStages[j]
    ensures forall d, e :: StageName(d) == StageName(e) ==> d == e
  {
    forall d ensures d in DealStages {
      match d
      case ColdCall => assert DealStages[0] == d;
      case Discovery => assert DealStages[1] == d;
      case Demo => assert DealStages[2] == d;
      case Negotiation => assert DealStages[3] == d;
      case Closing => assert DealStages[4] == d;
    }
  }

  datatype TranscriptTurn = TranscriptTurn(speaker: string, timestamp: string, text: string)

  datatype SentimentPoint = SentimentPoint(time: string, sentimentScore: real, engagementScore: real)

  datatype PerformanceMetrics = PerformanceMetrics(
    overallScore: real,
    dealRiskLevel: RiskLevel,
    talkRatioRep: real,
    talkRatioCustomer: real,
    interruptionCount: real,
    avgQuestionDepth: real,
    monologueFatigueSegments: real,
    dealMomentumScore: real,
    coachabilityScore: real)

  datatype HighValueMoment = HighValueMoment(timestamp: string, summary: string)

  datatype CoachingMatrixItem = CoachingMatrixItem(
    skillArea: string, score: real, evidenceQuote: string, timestamp: string, advice: string)

  datatype CoachingCardData = CoachingCardData(
    strengths: seq<string>, missedOpportunities: seq<string>, actionSteps: seq<string>)

  /** One report, as returned by one successful analysis. */
  datatype AnalysisResult = AnalysisResult(
    transcript: seq<TranscriptTurn>,
    sentimentGraphData: seq<SentimentPoint>,
    performanceMetrics: PerformanceMetrics,
    highValueMoments: seq<HighValueMoment>,
    coachingMatrix: seq<CoachingMatrixItem>,
    coachingCard: CoachingCardData)
}
