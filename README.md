# GAIMvantage sales-call dashboard: a Dafny model of its own logic

The application lets a sales coach unlock it with an API key, choose a
sales framework and a deal stage, then record or upload a call. It shows
the report that an external analysis service returns. All transcription and
scoring happen in that service. This model covers the logic the application
carries out itself:

- **Session** (`App`, app.dfy). The session has four states: locked, idle,
  analyzing and results. It also has the credential gate, the framework and
  stage selects, and the analysis call, split into a begin step and a
  completion step. It is a class whose fields are the component's state
  variables. A `Valid()` invariant holds in every reachable state. It says:
  - past the gate, the key held was accepted;
  - nothing is sent before the gate opens;
  - the progress view is shown only while a call is unanswered, and never
    with an error;
  - results always have a report.
- **Audio input** (`AudioInput`, audio_input.dfy):
  - The recorder is a class. It keeps the recording flag, the shown file
    name and a buffer that holds only non-empty chunks. It also tracks
    whether the microphone is open. A recorder can stop on its own when the
    microphone track ends. Its stop event then delivers the recording and
    releases the microphone while the recording flag stays set.
  - The file picker hands on the chosen file's contents.
  - `ExtractPayload` splits `data:<type>;base64,<text>` the way the pattern
    `^data:(.+);base64,(.+)$` does. This includes greedy matching and the
    rule that `.` never matches a line terminator. The lemmas prove it
    sound, complete and greedy against a reference definition of a match
    (`MatchesAs`).
- **Dashboard** (`AnalysisDashboard`, analysis_dashboard.dfy). These are
  pure functions: the overall-score caption, the risk shield and colour,
  the coaching badge, the first three key moments, and the numbering of
  the action steps. `Render` builds the whole view and shows the report's
  values unchanged.
- **Transcript** (`Transcript`, transcript.dfy). A turn is the rep's turn
  iff the lower-cased speaker name contains "rep". Rep turns are
  right-aligned and all other turns left-aligned.
- **JavaScript primitives** (`JsText`, js_text.dfy). These are `trim` with
  ECMAScript's full whitespace set, `length` in UTF-16 code units, ASCII
  `toLowerCase` and `includes`.
- **Types** (`Types`, types.dfy). These are the report records and the
  enumerations. Every numeric field is a `real`.

Behaviours of the code a reader might not expect:

- "Start New Analysis" keeps the held report, so the Deal Momentum badge
  stays visible. It does not discard the report.
- The error is cleared when an analysis begins, not when it succeeds.
- An empty recording never reaches the session, because its data URL does
  not match the pattern. It does not lead to a reported analysis failure.
- `startRecording` has no guard of its own. The toggle button stops a
  recording that is running. It does not prevent a second start while the
  microphone request of the first is still pending (see "Left out").
- Nothing stops a second analysis while one is in flight. A file reader
  or recorder started in the idle view can deliver its payload after that
  view has gone. Answers may then arrive in any order. A success does not
  clear the error, so a report can be shown under the failure message of
  an earlier overlapping analysis (`OverlappingAnalysesShowStaleFailure`).
- The credential gate counts UTF-16 code units after trimming ECMAScript
  whitespace.

Each session handler bound to a control requires the view that renders
the control, for example `ShowsCaptureControls()` for the selects.
`BeginAnalysis` runs whenever a payload is delivered after the gate has
opened. `CompleteAnalysis` runs whenever an unanswered call is answered.
A ghost counter, `pending`, tracks the unanswered calls.

## Model

| member | source | states |
|---|---|---|
| `Types.FrameworkOptionsComplete` | constants.ts:18 | The framework select offers each of the five frameworks exactly once, under distinct names. |
| `Types.StageOptionsComplete` | constants.ts:19 | The stage select offers each of the five deal stages exactly once, under distinct names. |
| `JsText.TrimSpec` | App.tsx:25 | `trim` returns one infix of the key whose ends are not whitespace. What it removes on both sides is whitespace. |
| `JsText.TrimStartSpec` | App.tsx:25 | Leading-whitespace removal keeps a suffix, drops only whitespace and stops at the first kept character. |
| `JsText.TrimEndSpec` | App.tsx:25 | Trailing-whitespace removal keeps a prefix, drops only whitespace and stops at the last kept character. |
| `JsText.TrimStartUnique` | App.tsx:25 | Leading-whitespace removal is the only suffix that drops only whitespace and starts with a kept character. |
| `JsText.TrimEndUnique` | App.tsx:25 | Trailing-whitespace removal is the only prefix that drops only whitespace and ends with a kept character. |
| `JsText.TrimOfTrimmed` | App.tsx:25 | A key whose ends are not whitespace is its own trim. |
| `JsText.Trim` | App.tsx:25 | `trim`: leading whitespace is removed, then trailing whitespace. Its contract is given by `TrimSpec` and the uniqueness lemmas. |
| `JsText.TrimIgnoresPadding` | App.tsx:25 | Whitespace added around a trimmed, non-empty string does not change what `trim` returns. |
| `JsText.TrimIgnoresAnyPadding` | App.tsx:25 | Whitespace added around any string, including an empty or all-whitespace one, does not change what `trim` returns. |
| `JsText.TrimOfAllTrimmable` | App.tsx:25 | A key of whitespace only trims to the empty string. |
| `JsText.CodeUnits` | App.tsx:25 | A character is two UTF-16 code units iff it lies above the Basic Multilingual Plane, otherwise one. |
| `JsText.Utf16Length` | App.tsx:25 | `length` counts between one and two code units per character. |
| `JsText.Utf16LengthOfBmp` | App.tsx:25 | On text without astral characters, `length` equals the character count. |
| `JsText.LowerChar` | components/Transcript.tsx:20 | An ASCII capital becomes its lower-case letter. Every other character is unchanged. |
| `JsText.ToLower` | components/Transcript.tsx:20 | Lower-casing keeps the length and maps each character by the ASCII rule. |
| `JsText.Includes` | components/Transcript.tsx:20 | `includes` is true iff the substring occurs at some position. |
| `App.KeyThreshold` | App.tsx:25 | For a printable ASCII key with no spaces, unlocking succeeds iff its length exceeds 10. A key of length 10 is refused and one of length 11 is accepted. |
| `App.KeyAccepted` | App.tsx:25 | The gate: the trimmed key is longer than 10 UTF-16 code units. `KeyThreshold` and `KeyPaddingIgnored` characterize it. |
| `App.KeyPaddingIgnored` | App.tsx:25 | Whitespace around any key never changes whether the key is accepted. |
| `App.Session.Valid` | App.tsx:13-46 | The invariant of every reachable state. Past the gate, the key held was accepted. While locked there is no report, no unanswered call and no error but the key message. Idle shows no error but the failure message. Analyzing has an unanswered call and no error. Results has a report. |
| `App.Session.ShowsUnlockForm` | App.tsx:97-131 | The key form is rendered iff the state is locked. |
| `App.Session.ShowsCaptureControls` | App.tsx:134-166 | The selects and the audio input are rendered iff the state is idle. |
| `App.Session.ShowsProgress` | App.tsx:169-183 | The progress panel is rendered iff the state is analyzing. |
| `App.Session.ShowsDashboard` | App.tsx:186-198 | The dashboard and the "Start New Analysis" button are rendered iff the state is results and a report is held. |
| `App.Session.constructor` | App.tsx:13-22 | Initial state: locked, MEDDIC, Discovery, empty key, prompt closed, no error, no report. |
| `App.Session.EditKey` | App.tsx:112-118 | Typing replaces only the key-field text. |
| `App.Session.Unlock` | App.tsx:24-32 | An accepted key is stored untrimmed, the state becomes idle and the error is cleared. A refused key leaves the state and the stored key unchanged and sets the fixed message. |
| `App.Session.SelectFramework` | App.tsx:144-150 | Only the framework changes. |
| `App.Session.SelectDealStage` | App.tsx:154-160 | Only the deal stage changes. |
| `App.Session.BeginAnalysis` | App.tsx:34-39 | Allowed in any state past the gate. The state becomes analyzing, the error is cleared and one more call is unanswered. The request carries the current key, framework and stage, and that key was accepted by the gate. |
| `App.Session.CompleteAnalysis` | App.tsx:38-46 | Answers one unanswered call, in any state. Success stores the report and moves to results, leaving the error as it was. Failure returns to idle with the fixed message. Framework, stage and the previous report are kept. |
| `App.Session.OverlappingAnalysesShowStaleFailure` | App.tsx:34-46 | Two analyses started from idle and answered failure first, then success, end on the dashboard with the new report under the failure message. |
| `App.Session.StartNewAnalysis` | App.tsx:186-196 | Only the state changes, to idle. The report is kept, so the momentum badge is unchanged and still shown. |
| `App.Session.SetPromptOpen` | App.tsx:56-62 | Only the prompt-viewer flag changes. |
| `App.Session.MomentumBadge` | App.tsx:76-81 | The header badge is shown iff a report is held. It shows that report's deal-momentum score. |
| `App.Session.ExactlyOneView` | App.tsx:96-198 | In every reachable state exactly one of the locked, idle, analyzing and results views is shown. |
| `AudioInput.DataUrl` | components/AudioInput.tsx:58-67 | The string `readAsDataURL` produces: "data:", the media type, ";base64,", then the base64 text. |
| `AudioInput.MatchesAs` | components/AudioInput.tsx:62 | The reference meaning of the pattern. The string is that data URL, both groups are non-empty, and neither holds a line terminator. |
| `AudioInput.Concat` | components/AudioInput.tsx:27 | `new Blob(chunks)`: the chunks' bytes joined in order. |
| `AudioInput.LastMarker` | components/AudioInput.tsx:62 | Finds the last ";base64," position in a range, or reports that there is none. |
| `AudioInput.ExtractPayload` | components/AudioInput.tsx:56-68 | Whatever is passed to `onAudioReady` is a match of the pattern. The base64 text comes first and the media type second. |
| `AudioInput.ExtractPayloadComplete` | components/AudioInput.tsx:62-64 | Whenever the pattern matches, the callback is called, with the longest media type any match allows (the greedy first group). |
| `AudioInput.MatchDeterminedByLength` | components/AudioInput.tsx:62 | Two matches whose media types have the same length are the same match. |
| `AudioInput.DataUrlRoundTrip` | components/AudioInput.tsx:62-64 | For non-empty base64 text and a non-empty media type, which may contain ";", splitting the data URL gives back exactly that text and type. |
| `AudioInput.EmptyPayloadNotDelivered` | components/AudioInput.tsx:62-63 | A data URL with empty base64 text and a media type without ";" never reaches the callback. |
| `AudioInput.EmptyRecordingNotDelivered` | components/AudioInput.tsx:26-28 | An empty recording ("data:audio/webm;base64,") never reaches the callback. |
| `AudioInput.ConcatLength` | components/AudioInput.tsx:27 | A buffer of non-empty chunks joins to at least one byte per chunk. The joined bytes are empty iff the buffer is. |
| `AudioInput.Recorder.constructor` | components/AudioInput.tsx:10-13 | Initially there is no recording, no name, no recorder and an empty buffer. |
| `AudioInput.Recorder.StartRecording` | components/AudioInput.tsx:15-39 | If the microphone is granted, the buffer is emptied, recording starts and the name becomes "Microphone Recording". If it is refused, nothing changes. |
| `AudioInput.Recorder.OnDataAvailable` | components/AudioInput.tsx:22-24 | A chunk is appended iff its size is positive. The buffer stays in arrival order. |
| `AudioInput.Recorder.StopRecording` | components/AudioInput.tsx:41-46 | The recorder is stopped iff one exists and is recording. Afterwards nothing is recording. |
| `AudioInput.Recorder.ClickRecordButton` | components/AudioInput.tsx:84-86 | The button stops an active recording, keeping buffer, name, recorder and microphone. Otherwise it starts one exactly as `StartRecording` does, or changes nothing if the microphone is refused. |
| `AudioInput.Recorder.OnStop` | components/AudioInput.tsx:26-30 | Whenever the recorder stops, asked to or on its own, the buffer becomes one "audio/webm" blob, empty iff no chunk arrived. The microphone is released either way, and the recording flag is left as it was. |
| `AudioInput.Recorder.UploadFile` | components/AudioInput.tsx:48-54 | With no file nothing happens. Otherwise the file's name is shown and its contents are read. |
| `AnalysisDashboard.TierCaption` | components/AnalysisDashboard.tsx:24 | The caption text of each tier: "Excellent Execution", "Average Performance", "Needs Improvement". |
| `AnalysisDashboard.TierCaptionsDistinct` | components/AnalysisDashboard.tsx:24 | The three captions are different, so the text shown identifies the tier. |
| `AnalysisDashboard.OverallTier` | components/AnalysisDashboard.tsx:24 | "Excellent Execution" iff the score is above 75, "Average Performance" iff it is in (50, 75], otherwise "Needs Improvement". |
| `AnalysisDashboard.OverallTierMonotone` | components/AnalysisDashboard.tsx:24 | A higher score never gets a worse caption. |
| `AnalysisDashboard.RiskShield` | components/AnalysisDashboard.tsx:32 | The alert shield is shown iff the risk is High. |
| `AnalysisDashboard.RiskColour` | components/AnalysisDashboard.tsx:34 | The label is crimson iff the risk is High, amber iff Medium and gold iff Low. |
| `AnalysisDashboard.ShieldMatchesLabel` | components/AnalysisDashboard.tsx:32-34 | The shield and the label have the same colour except for Medium risk. |
| `AnalysisDashboard.CoachingBadge` | components/AnalysisDashboard.tsx:149 | The badge is green iff the score is at least 8, amber iff it is in [5, 8), and red iff it is below 5. |
| `AnalysisDashboard.KeyMoments` | components/AnalysisDashboard.tsx:65 | Shows the first min(3, n) moments, in their original order. |
| `AnalysisDashboard.RenderMatrixItem` | components/AnalysisDashboard.tsx:145-158 | One framework card: skill area, score, quote and advice as given, with the badge from `CoachingBadge`. `Render`'s contract states this for every card. |
| `AnalysisDashboard.NumberFrom` | components/AnalysisDashboard.tsx:131-134 | Numbers the steps consecutively from a given start, keeping every step's text. |
| `AnalysisDashboard.NumberedActionSteps` | components/AnalysisDashboard.tsx:131-134 | Every action step is shown, in order, numbered 1 to n. |
| `AnalysisDashboard.Render` | components/AnalysisDashboard.tsx:11-174 | The overall, momentum and coachability scores, the risk level, the sentiment series, the rep's talk ratio, interruptions, question depth, monologue segments, each card's skill area, score, quote and advice, and the missed opportunities are shown unchanged. Each bar is as wide as its score in percent. The caption is the tier's text. Tiers, moments, steps, badges and transcript come from the functions above. |
| `AnalysisDashboard.UnshownFieldsIgnored` | components/AnalysisDashboard.tsx:11-174 | The view does not depend on the strengths or on the customer's talk ratio. |
| `Transcript.IsRepSpeaker` | components/Transcript.tsx:20 | The rep test: the lower-cased speaker name includes "rep". `RepIsCaseInsensitive` characterizes it. |
| `Transcript.IsCustomerSpeaker` | components/Transcript.tsx:21 | The customer test: the lower-cased speaker name includes "customer". Nothing drawn depends on it. |
| `Transcript.RepIsCaseInsensitive` | components/Transcript.tsx:20 | A speaker is a rep iff "r", "e", "p" appear consecutively in the name, in any case. |
| `Transcript.RepFromOccurrence` | components/Transcript.tsx:20 | An occurrence of "rep" in the lower-cased name is a case-insensitive "rep" in the name. |
| `Transcript.OccurrenceFromRep` | components/Transcript.tsx:20 | A case-insensitive "rep" in the name makes the speaker a rep. |
| `Transcript.RepExamples` | components/Transcript.tsx:20 | "Sales Rep" and "REPRESENTATIVE" are reps. "Customer" is not. |
| `Transcript.BothWordsExample` | components/Transcript.tsx:20-21 | "Rep / Customer" counts as both rep and customer. |
| `Transcript.RepWinsOverCustomer` | components/Transcript.tsx:21-24 | A speaker that is both rep and customer is aligned as the rep. |
| `Transcript.RenderTurn` | components/Transcript.tsx:24-36 | A turn's speaker, timestamp and text are shown unchanged. It is right-aligned iff the speaker is a rep. |
| `Transcript.RenderTranscript` | components/Transcript.tsx:19-39 | One block per turn, in input order, with the fields unchanged. It is right-aligned iff the speaker is a rep. |

## Left out

- The analysis service call (services/geminiService.ts) is not part of this
  model. Its result is the parameter of `CompleteAnalysis`, either a report
  or a failure. The response schema is sent to the service and never checked
  locally, so the model has no schema validation.
- Browser I/O is left out:
  - Microphone access is a boolean parameter of `StartRecording`.
  - `MediaRecorder` events are the methods `OnDataAvailable` and `OnStop`.
  - `FileReader.readAsDataURL` is the function `DataUrl`, with the base64
    text as an input. Base64 encoding itself and the media type that
    browsers give files without a type are not modelled.
  - `alert` and `console.error` have no effect on state and are omitted.
- Async scheduling is left out. Each handler is atomic. `handleAudioReady`
  is the pair `BeginAnalysis` and `CompleteAnalysis`. Calls may overlap,
  but which answer belongs to which request is not tracked.
- `AudioInput.Recorder.StartRecording`: it is atomic, so the wait for the
  microphone is not modelled. In the source a second click during that
  wait starts a second recorder. The start that finishes last replaces
  the other recorder in `mediaRecorderRef`. With in-order resolution, that
  is the recorder created first. The replaced recorder is never stopped,
  and its microphone stream is never released.
- `AudioInput.Recorder.ClickRecordButton`: it cannot show that race either.
  Stopping before starting twice holds only for clicks made after the
  first start has finished.
- `AudioInput.Recorder`: it models one mounting of the component. The
  component exists only in the idle view and has no cleanup. Leaving idle
  discards its state, and returning to idle starts afresh (the
  constructor). A recording that is running when the view leaves idle is
  not stopped, and its microphone is not released. The model does not
  capture that loss, since its recorder is never discarded.
- `App.Session.BeginAnalysis`: the request takes the framework and stage
  current when the payload arrives. A recording's stop handler keeps the
  `onAudioReady` callback from the moment recording started. That
  callback holds that moment's framework and stage, so a framework or
  stage chosen during a recording is not sent. Likewise, a chosen file's
  reader keeps the callback, with the framework and stage, from the moment
  the file was chosen. A change made while the file is still being read is
  not sent. The model does not capture either case.
- The `disabled` property of the audio input is always false where it is
  used, so it is not modelled.
- Charts (components/Charts.tsx) and the prompt viewer's contents
  (components/PromptViewer.tsx) are not part of this model. Only the
  viewer's open flag is kept. Styling is left out apart from the tier
  colours.
- JavaScript numbers are modelled as `real`. NaN, infinities and rounding
  are not modelled.
- `JsText.ToLower`: lower-cases ASCII letters only, not the full Unicode
  mapping of `toLowerCase`.
- `AudioInput.ExtractPayload`: its own contract states only soundness.
  Completeness and greediness are the separate lemmas
  `ExtractPayloadComplete` and `MatchDeterminedByLength`.
- `JsText.Utf16Length`: its contract bounds the count. The exact count is
  stated only for text without astral characters (`Utf16LengthOfBmp`).
