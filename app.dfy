/**
 * The session owner (App.tsx): the credential gate, the capture
 * configuration and the four-state flow locked -> idle -> analyzing ->
 * results -> idle. The asynchronous call to the analysis service is split
 * into `BeginAnalysis`, which returns the request it sends, and
 * `CompleteAnalysis`, which receives the service's outcome.
 *
 * Each handler bound to a control requires the view that renders that
 * control. `handleAudioReady` is different: a file reader or a recorder
 * started in the idle view may deliver its payload after that view is gone,
 * so analyses may overlap and complete in any order.
 */
module App {
  import opened Types
  import opened JsText

  datatype AppState = Locked | Idle | Analyzing | Results

  /** A credential unlocks only when its trimmed length exceeds this. */
  const MinKeyLength: nat := 10

  const InvalidKeyMessage: string := "Please enter a valid Gemini API Key."

  const AnalysisFailedMessage: string := "Analysis failed. Please check your API key and try again."

  /** The credential gate: the trimmed key is longer than 10 UTF-16 code units. */
  predicate KeyAccepted(key: string) {
    Utf16Length(Trim(key)) > MinKeyLength
  }

  /** On plain ASCII keys the gate is a length test: 10 characters are refused, 11 accepted. */
  lemma {:induction false} KeyThreshold(key: string)
    requires forall i :: 0 <= i < |key| ==> ' ' < key[i] <= '~'
    ensures KeyAccepted(key) <==> |key| > 10
  {
    TrimOfTrimmed(key);
    Utf16LengthOfBmp(key);
  }

  /** Whitespace around a key never changes whether it is accepted. */
  lemma KeyPaddingIgnored(pre: string, key: string, post: string)
    requires AllTrimmable(pre) && AllTrimmable(post)
    ensures KeyAccepted(pre + key + post) == KeyAccepted(key)
  {
    TrimIgnoresAnyPadding(pre, key, post);
  }

  /** What the service is asked, fixed when the analysis begins. */
  datatype AnalysisRequest = AnalysisRequest(
    apiKey: string, base64: string, mimeType: string, framework: SalesFramework, dealStage: DealStage)

  /** What the service call ends in: a report, or any thrown error. */
  datatype AnalysisOutcome = Success(result: AnalysisResult) | Failure

  class Session {
    var apiKey: string
    /** The text in the key field. */
    var tempKey: string
    var isPromptOpen: bool
    var appState: AppState
    var framework: SalesFramework
    var dealStage: DealStage
    var error: Option<string>
    var analysisData: Option<AnalysisResult>
    /** How many service calls have been made and not yet answered. */
    ghost var pending: nat

    /**
     * What every reachable state satisfies: past the gate the key held was
     * accepted; nothing is sent before the gate opens; the progress view is
     * shown only while a call is unanswered and without an error; results
     * always have a report. Results may still show the failure message of
     * an overlapping analysis, since success does not clear the error.
     */
    ghost predicate Valid()
      reads this
    {
      (appState != Locked ==> KeyAccepted(apiKey)) &&
      (appState == Locked ==> analysisData == None && pending == 0 && (error == None || error == Some(InvalidKeyMessage))) &&
      (appState == Idle ==> error == None || error == Some(AnalysisFailedMessage)) &&
      (appState == Analyzing ==> error == None && pending > 0) &&
      (appState == Results ==> analysisData.Some? && (error == None || error == Some(AnalysisFailedMessage)))
    }

    /** The key form: only while locked. */
    predicate ShowsUnlockForm()
      reads this
    {
      appState == Locked
    }

    /** The framework and stage selects and the audio input: only while idle. */
    predicate ShowsCaptureControls()
      reads this
    {
      appState == Idle
    }

    /** The progress panel: only while analyzing. */
    predicate ShowsProgress()
      reads this
    {
      appState == Analyzing
    }

    /** The dashboard and its "Start New Analysis" button: in results, when there is a report. */
    predicate ShowsDashboard()
      reads this
    {
      appState == Results && analysisData.Some?
    }

    /** The "Deal Momentum" badge in the header: shown whenever a report is held, in any state. */
    function MomentumBadge(): (badge: Option<real>)
      reads this
      ensures badge.Some? <==> analysisData.Some?
      ensures badge.Some? ==> badge.value == analysisData.value.performanceMetrics.dealMomentumScore
    {
      match analysisData
      case None => None
      case Some(data) => Some(data.performanceMetrics.dealMomentumScore)
    }

    /** In every reachable state exactly one of the four main views is shown. */
    lemma ExactlyOneView()
      requires Valid()
      ensures ShowsUnlockForm() || ShowsCaptureControls() || ShowsProgress() || ShowsDashboard()
      ensures !(ShowsUnlockForm() && ShowsCaptureControls()) && !(ShowsUnlockForm() && ShowsProgress())
      ensures !(ShowsUnlockForm() && ShowsDashboard()) && !(ShowsCaptureControls() && ShowsProgress())
      ensures !(ShowsCaptureControls() && ShowsDashboard()) && !(ShowsProgress() && ShowsDashboard())
    {
    }

    /** The initial state: locked, MEDDIC at Discovery, no key, no error, no report. */
    constructor()
      ensures Valid()
      ensures appState == Locked && framework == MEDDIC && dealStage == Discovery
      ensures apiKey == "" && tempKey == "" && !isPromptOpen && error == None && analysisData == None
      ensures pending == 0
    {
      apiKey := "";
      tempKey := "";
      isPromptOpen := false;
      appState := Locked;
      framework := MEDDIC;
      dealStage := Discovery;
      error := None;
      analysisData := None;
      pending := 0;
    }

    /** Typing in the key field. */
    method EditKey(text: string)
      requires Valid() && ShowsUnlockForm()
      modifies this`tempKey
      ensures Valid() && tempKey == text
    {
      tempKey := text;
    }

    /**
     * `handleUnlock`: an accepted key is kept as typed, untrimmed, and opens
     * the idle view; a refused one leaves everything but the error message.
     */
    method Unlock()
      requires Valid() && ShowsUnlockForm()
      modifies this`apiKey, this`appState, this`error
      ensures Valid()
      ensures KeyAccepted(tempKey) ==> apiKey == tempKey && appState == Idle && error == None
      ensures !KeyAccepted(tempKey) ==>
        apiKey == old(apiKey) && appState == old(appState) && error == Some(InvalidKeyMessage)
    {
      if KeyAccepted(tempKey) {
        apiKey := tempKey;
        appState := Idle;
        error := None;
      } else {
        error := Some(InvalidKeyMessage);
      }
    }

    method SelectFramework(f: SalesFramework)
      requires Valid() && ShowsCaptureControls()
      modifies this`framework
      ensures Valid() && framework == f
    {
      framework := f;
    }

    method SelectDealStage(d: DealStage)
      requires Valid() && ShowsCaptureControls()
      modifies this`dealStage
      ensures Valid() && dealStage == d
    {
      dealStage := d;
    }

    /**
     * The first step of `handleAudioReady`: the view turns to the progress
     * panel, the error is cleared, and the request carries the key,
     * framework and stage current at this moment. Nothing guards it against
     * an analysis already in flight or a report already shown: any payload
     * delivered after the gate opened starts one.
     */
    method BeginAnalysis(base64: string, mimeType: string) returns (request: AnalysisRequest)
      requires Valid() && appState != Locked
      modifies this`appState, this`error, this`pending
      ensures Valid()
      ensures appState == Analyzing && error == None && pending == old(pending) + 1
      ensures request == AnalysisRequest(apiKey, base64, mimeType, framework, dealStage)
      ensures KeyAccepted(request.apiKey)
    {
      appState := Analyzing;
      error := None;
      pending := pending + 1;
      request := AnalysisRequest(apiKey, base64, mimeType, framework, dealStage);
    }

    /**
     * The rest of `handleAudioReady`, once the service has answered one of
     * the unanswered calls: a report replaces the held one and is shown,
     * leaving the error as it is; a failure returns to idle with the fixed
     * message and keeps the previous report.
     */
    method CompleteAnalysis(outcome: AnalysisOutcome)
      requires Valid() && pending > 0
      modifies this`appState, this`error, this`analysisData, this`pending
      ensures Valid() && pending == old(pending) - 1
      ensures outcome.Success? ==>
        analysisData == Some(outcome.result) && appState == Results && error == old(error)
      ensures outcome.Failure? ==>
        appState == Idle && error == Some(AnalysisFailedMessage) && analysisData == old(analysisData)
    {
      pending := pending - 1;
      match outcome
      case Success(result) =>
        analysisData := Some(result);
        appState := Results;
      case Failure =>
        error := Some(AnalysisFailedMessage);
        appState := Idle;
    }

    /**
     * Two payloads delivered from the idle view, answered failure first and
     * success second: the report is shown under the failure message.
     */
    method OverlappingAnalysesShowStaleFailure(base64: string, mimeType: string, report: AnalysisResult)
      requires Valid() && ShowsCaptureControls()
      modifies this`appState, this`error, this`analysisData, this`pending
      ensures Valid() && pending == old(pending)
      ensures ShowsDashboard() && analysisData == Some(report) && error == Some(AnalysisFailedMessage)
    {
      var first := BeginAnalysis(base64, mimeType);
      var second := BeginAnalysis(base64, mimeType);
      CompleteAnalysis(Failure);
      CompleteAnalysis(Success(report));
    }

    /** "Start New Analysis": back to idle, the report kept (so the momentum badge stays). */
    method StartNewAnalysis()
      requires Valid() && ShowsDashboard()
      modifies this`appState
      ensures Valid() && appState == Idle
      ensures MomentumBadge() == old(MomentumBadge()) && MomentumBadge().Some?
    {
      appState := Idle;
    }

    /** The logo opens the prompt viewer; its close button shuts it. */
    method SetPromptOpen(open: bool)
      requires Valid()
      modifies this`isPromptOpen
      ensures Valid() && isPromptOpen == open
    {
      isPromptOpen := open;
    }
  }
}
