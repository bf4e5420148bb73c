/**
 * Audio capture (components/AudioInput.tsx): a microphone recorder that
 * buffers chunks, a file picker, and the split of the browser's data URL
 * into the base64 text and the media type handed to `onAudioReady`.
 *
 * The browser is not modelled: whether the microphone is granted is a
 * parameter, and the base64 text `FileReader.readAsDataURL` produces for a
 * blob is an input of `DataUrl`.
 */
module AudioInput {
  import opened Types
  import opened JsText

  newtype byte = x: int | 0 <= x < 256

  type Bytes = seq<byte>

  /** A blob: its bytes and the media type it is tagged with. */
  datatype Blob = Blob(bytes: Bytes, mimeType: string)

  /** A file chosen in the picker. */
  datatype File = File(name: string, content: Blob)

  /** The two arguments of `onAudioReady`, in their order: the base64 text, then the media type. */
  datatype AudioPayload = AudioPayload(base64: string, mimeType: string)

  /** The media type a microphone recording is tagged with. */
  const RecordingMimeType: string := "audio/webm"

  /** The name shown while a recording is the input. */
  const RecordingFileName: string := "Microphone Recording"

  const DataPrefix: string := "data:"

  const Marker: string := ";base64,"

  /** A data URL as `readAsDataURL` writes it. */
  function DataUrl(mimeType: string, base64: string): string {
    DataPrefix + mimeType + Marker + base64
  }

  predicate NoLineTerminator(s: string) {
    forall i :: 0 <= i < |s| ==> !IsLineTerminator(s[i])
  }

  /**
   * `s` matches `^data:(.+);base64,(.+)$` with `mimeType` as the first group
   * and `base64` as the second: both groups are non-empty and, like every
   * `.`, hold no line terminator.
   */
  ghost predicate MatchesAs(s: string, mimeType: string, base64: string) {
    s == DataUrl(mimeType, base64) && mimeType != [] && base64 != [] &&
    NoLineTerminator(mimeType) && NoLineTerminator(base64)
  }

  /** ";base64," starts at position `k` of `s`. */
  predicate MarkerAt(s: string, k: int) {
    0 <= k && k + |Marker| <= |s| && s[k..k + |Marker|] == Marker
  }

  /** The last marker of `s` at a position in [6, hi]: after a non-empty media type. */
  function LastMarker(s: string, hi: int): (r: Option<nat>)
    ensures r.Some? ==> 6 <= r.value <= hi && MarkerAt(s, r.value)
    ensures r.Some? ==> forall k :: r.value < k <= hi ==> !MarkerAt(s, k)
    ensures r.None? ==> forall k :: 6 <= k <= hi ==> !MarkerAt(s, k)
    decreases hi
  {
    if hi < 6 then None
    else if MarkerAt(s, hi) then Some(hi)
    else LastMarker(s, hi - 1)
  }

  /**
   * What `processFile` does with the data URL: `Some` of the arguments it
   * passes to `onAudioReady`, or `None` when the URL does not match and the
   * callback is never called. The first group is greedy, so the split is at
   * the last ";base64," that has at least one character after it.
   */
  function ExtractPayload(s: string): (r: Option<AudioPayload>)
    ensures r.Some? ==> MatchesAs(s, r.value.mimeType, r.value.base64)
  {
    if |s| < 15 || s[..5] != DataPrefix || !NoLineTerminator(s) then None
    else
      match LastMarker(s, |s| - 9)
      case None => None
      case Some(k) =>
        SplitAt(s, k);
        Some(AudioPayload(s[k + 8..], s[5..k]))
  }

  /** Cutting a data URL around a marker gives back its media type and base64 text. */
  lemma SplitAt(s: string, k: int)
    requires 6 <= k && k + 8 < |s| && s[..5] == DataPrefix && MarkerAt(s, k) && NoLineTerminator(s)
    ensures MatchesAs(s, s[5..k], s[k + 8..])
  {
    var mimeType, base64 := s[5..k], s[k + 8..];
    assert s == s[..5] + s[5..k] + s[k..k + 8] + s[k + 8..];
    forall i | 0 <= i < |mimeType| ensures !IsLineTerminator(mimeType[i]) {
      assert mimeType[i] == s[5 + i];
    }
    forall i | 0 <= i < |base64| ensures !IsLineTerminator(base64[i]) {
      assert base64[i] == s[k + 8 + i];
    }
  }

  /** Where the pieces of a match sit in the matched string. */
  lemma MatchLayout(s: string, mimeType: string, base64: string)
    requires MatchesAs(s, mimeType, base64)
    ensures |s| >= 15 && s[..5] == DataPrefix && NoLineTerminator(s)
    ensures MarkerAt(s, 5 + |mimeType|) && 6 <= 5 + |mimeType| <= |s| - 9
    ensures s[5..5 + |mimeType|] == mimeType && s[5 + |mimeType| + 8..] == base64
  {
    var k := 5 + |mimeType|;
    assert s[..5] == DataPrefix;
    assert s[5..k] == mimeType;
    assert s[k..k + 8] == Marker;
    assert s[k + 8..] == base64;
    forall i | 0 <= i < |s| ensures !IsLineTerminator(s[i]) {
      if i < 5 {
        assert s[i] == DataPrefix[i];
      } else if i < k {
        assert s[i] == mimeType[i - 5];
      } else if i < k + 8 {
        assert s[i] == Marker[i - k];
      } else {
        assert s[i] == base64[i - k - 8];
      }
    }
  }

  /** Whenever the pattern matches, the callback is called, with the longest possible media type. */
  lemma {:induction false} ExtractPayloadComplete(s: string, mimeType: string, base64: string)
    requires MatchesAs(s, mimeType, base64)
    ensures ExtractPayload(s).Some?
    ensures |mimeType| <= |ExtractPayload(s).value.mimeType|
  {
    MatchLayout(s, mimeType, base64);
    var k := 5 + |mimeType|;
    assert LastMarker(s, |s| - 9).Some?;
  }

  /** Two matches with media types of the same length are the same match. */
  lemma MatchDeterminedByLength(s: string, m1: string, b1: string, m2: string, b2: string)
    requires MatchesAs(s, m1, b1) && MatchesAs(s, m2, b2) && |m1| == |m2|
    ensures m1 == m2 && b1 == b2
  {
    MatchLayout(s, m1, b1);
    MatchLayout(s, m2, b2);
  }

  /** The characters of standard base64 text: letters, digits, '+', '/' and the '=' padding. */
  predicate IsBase64Text(s: string) {
    forall i :: 0 <= i < |s| ==>
      ('A' <= s[i] <= 'Z') || ('a' <= s[i] <= 'z') || ('0' <= s[i] <= '9') ||
      s[i] == '+' || s[i] == '/' || s[i] == '='
  }

  /** Base64 text has no ';' and no line terminator. */
  lemma Base64Chars(base64: string)
    requires IsBase64Text(base64)
    ensures NoLineTerminator(base64)
    ensures forall i :: 0 <= i < |base64| ==> base64[i] != ';'
  {
  }

  /** After the marker that precedes base64 text, no other marker starts. */
  lemma NoMarkerInBase64(mimeType: string, base64: string)
    requires IsBase64Text(base64)
    ensures var s := DataUrl(mimeType, base64);
      forall j :: 5 + |mimeType| < j <= |s| - 9 ==> !MarkerAt(s, j)
  {
    var s := DataUrl(mimeType, base64);
    var k := 5 + |mimeType|;
    Base64Chars(base64);
    forall j | k < j <= |s| - 9 ensures !MarkerAt(s, j) {
      if j < k + 8 {
        assert s[j] == Marker[j - k];
      } else {
        assert s[j] == base64[j - k - 8];
      }
      assert s[j..j + 8][0] == s[j] != ';';
    }
  }

  /**
   * Round trip: for any non-empty base64 text and any non-empty media type
   * (even one with parameters, such as "audio/webm;codecs=opus"), the split
   * of the data URL gives back exactly the text and the type.
   */
  lemma {:induction false} DataUrlRoundTrip(mimeType: string, base64: string)
    requires mimeType != [] && NoLineTerminator(mimeType)
    requires base64 != [] && IsBase64Text(base64)
    ensures ExtractPayload(DataUrl(mimeType, base64)) == Some(AudioPayload(base64, mimeType))
  {
    var s := DataUrl(mimeType, base64);
    Base64Chars(base64);
    assert MatchesAs(s, mimeType, base64);
    ExtractPayloadComplete(s, mimeType, base64);
    var r := ExtractPayload(s).value;
    NoMarkerInBase64(mimeType, base64);
    MatchLayout(s, r.mimeType, r.base64);
    MatchDeterminedByLength(s, mimeType, base64, r.mimeType, r.base64);
  }

  /**
   * A data URL with empty base64 text, which is what an empty recording
   * gives, never reaches the callback when the media type has no ';'.
   */
  lemma EmptyPayloadNotDelivered(mimeType: string)
    requires ';' !in mimeType
    ensures ExtractPayload(DataUrl(mimeType, "")) == None
  {
    var s := DataUrl(mimeType, "");
    // Every position that could start a marker with text after it lies in the media type.
    forall j | 6 <= j <= |s| - 9 ensures !MarkerAt(s, j) {
      assert s[j] == mimeType[j - 5];
    }
    assert LastMarker(s, |s| - 9).None?;
  }

  /** In particular the data URL of an empty microphone recording. */
  lemma EmptyRecordingNotDelivered()
    ensures ExtractPayload(DataUrl(RecordingMimeType, "")) == None
  {
    EmptyPayloadNotDelivered(RecordingMimeType);
  }

  /** The chunks joined into one byte sequence, as `new Blob(chunks)` does. */
  function Concat(chunks: seq<Bytes>): Bytes {
    if chunks == [] then [] else chunks[0] + Concat(chunks[1..])
  }

  predicate AllNonEmpty(chunks: seq<Bytes>) {
    forall i :: 0 <= i < |chunks| ==> chunks[i] != []
  }

  /** A buffer of non-empty chunks holds at least one byte per chunk. */
  lemma {:induction false} ConcatLength(chunks: seq<Bytes>)
    requires AllNonEmpty(chunks)
    ensures |Concat(chunks)| >= |chunks|
    ensures Concat(chunks) == [] <==> chunks == []
  {
    if chunks != [] {
      ConcatLength(chunks[1..]);
    }
  }

  /** The recording part of the component, and the name shown above the buttons. */
  class Recorder {
    var isRecording: bool
    var fileName: Option<string>
    /** A media recorder has been created (`mediaRecorderRef.current` is set). */
    var hasRecorder: bool
    /** The microphone stream's tracks are live. */
    var microphoneOpen: bool
    /** The chunk buffer (`chunksRef.current`), in arrival order. */
    var chunks: seq<Bytes>

    ghost predicate Valid()
      reads this
    {
      AllNonEmpty(chunks) && (isRecording ==> hasRecorder)
    }

    constructor()
      ensures Valid()
      ensures !isRecording && fileName == None && !hasRecorder && !microphoneOpen && chunks == []
    {
      isRecording := false;
      fileName := None;
      hasRecorder := false;
      microphoneOpen := false;
      chunks := [];
    }

    /**
     * `startRecording`: when the microphone is granted, a new recorder starts
     * with an empty buffer; when it is refused, nothing changes.
     */
    method StartRecording(microphoneGranted: bool)
      requires Valid()
      modifies this
      ensures Valid()
      ensures microphoneGranted ==>
        hasRecorder && microphoneOpen && chunks == [] && isRecording && fileName == Some(RecordingFileName)
      ensures !microphoneGranted ==> unchanged(this)
    {
      if microphoneGranted {
        hasRecorder := true;
        microphoneOpen := true;
        chunks := [];
        isRecording := true;
        fileName := Some(RecordingFileName);
      }
    }

    /** `ondataavailable`: only a chunk with data is appended. */
    method OnDataAvailable(chunk: Bytes)
      requires Valid()
      modifies this`chunks
      ensures Valid()
      ensures chunks == if |chunk| > 0 then old(chunks) + [chunk] else old(chunks)
    {
      if |chunk| > 0 {
        chunks := chunks + [chunk];
      }
    }

    /** `stopRecording`: stops the recorder only when one exists and is recording. */
    method StopRecording() returns (stopRequested: bool)
      requires Valid()
      modifies this`isRecording
      ensures Valid()
      ensures stopRequested <==> old(hasRecorder && isRecording)
      ensures isRecording == (old(isRecording) && !stopRequested)
      ensures !isRecording
    {
      stopRequested := hasRecorder && isRecording;
      if stopRequested {
        isRecording := false;
      }
    }

    /** The record button: stop while recording, start otherwise. */
    method ClickRecordButton(microphoneGranted: bool) returns (stopRequested: bool)
      requires Valid()
      modifies this
      ensures Valid()
      ensures stopRequested <==> old(isRecording)
      ensures old(isRecording) ==>
        !isRecording && chunks == old(chunks) && fileName == old(fileName) &&
        hasRecorder == old(hasRecorder) && microphoneOpen == old(microphoneOpen)
      ensures !old(isRecording) && microphoneGranted ==>
        isRecording && hasRecorder && microphoneOpen && chunks == [] && fileName == Some(RecordingFileName)
      ensures !old(isRecording) && !microphoneGranted ==> unchanged(this)
    {
      if isRecording {
        stopRequested := StopRecording();
      } else {
        StartRecording(microphoneGranted);
        stopRequested := false;
      }
    }

    /**
     * `onstop`, fired once the recorder has stopped, whether asked to or on
     * its own (the microphone track ended): the buffered chunks become one
     * blob tagged "audio/webm", and the microphone is released whether or
     * not any chunk arrived. The recording flag is left as it is, so after a
     * spontaneous stop the button still reads "Stop Recording".
     */
    method OnStop() returns (blob: Blob)
      requires Valid() && hasRecorder
      modifies this`microphoneOpen
      ensures Valid() && isRecording == old(isRecording)
      ensures blob.bytes == Concat(chunks) && blob.mimeType == RecordingMimeType
      ensures blob.bytes == [] <==> chunks == []
      ensures !microphoneOpen
    {
      ConcatLength(chunks);
      blob := Blob(Concat(chunks), RecordingMimeType);
      microphoneOpen := false;
    }

    /** `handleFileUpload`: with no file chosen nothing happens; otherwise its name is shown and it is read. */
    method UploadFile(file: Option<File>) returns (toRead: Option<Blob>)
      requires Valid()
      modifies this`fileName
      ensures Valid()
      ensures file.None? ==> toRead == None && fileName == old(fileName)
      ensures file.Some? ==> toRead == Some(file.value.content) && fileName == Some(file.value.name)
    {
      if file.Some? {
        fileName := Some(file.value.name);
        toRead := Some(file.value.content);
      } else {
        toRead := None;
      }
    }
  }
}
