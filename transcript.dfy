/**
 * The diarized transcript view (components/Transcript.tsx): one block per
 * turn, in order, aligned right for the sales rep and left for everyone else.
 */
module Transcript {
  import opened Types
  import opened JsText

  /** `items-end` (right) or `items-start` (left). */
  datatype Alignment = AlignEnd | AlignStart

  /** One rendered turn: the turn's own text fields and the side it is drawn on. */
  datatype TurnBlock = TurnBlock(speaker: string, timestamp: string, text: string, alignment: Alignment)

  /** The speaker name, lower-cased, contains "rep". */
  predicate IsRepSpeaker(speaker: string) {
    Includes(ToLower(speaker), "rep")
  }

  /** Computed by the view beside `IsRepSpeaker`, and used by nothing it draws. */
  predicate IsCustomerSpeaker(speaker: string) {
    Includes(ToLower(speaker), "customer")
  }

  /** "r", "e", "p", in either case, start at position `i` of `s`. */
  predicate RepAt(s: string, i: int) {
    0 <= i && i + 3 <= |s| &&
    LowerChar(s[i]) == 'r' && LowerChar(s[i + 1]) == 'e' && LowerChar(s[i + 2]) == 'p'
  }

  /** An occurrence of "rep" in the lower-cased name is a case-insensitive "rep" in the name. */
  lemma RepFromOccurrence(speaker: string)
    requires IsRepSpeaker(speaker)
    ensures exists i :: RepAt(speaker, i)
  {
    var low := ToLower(speaker);
    var i, j :| 0 <= i <= j <= |low| && j - i == 3 && low[i..j] == "rep";
    var w := low[i..j];
    assert w[0] == low[i] && w[1] == low[i + 1] && w[2] == low[i + 2];
    assert RepAt(speaker, i);
  }

  /** A case-insensitive "rep" in the name is an occurrence of "rep" in the lower-cased name. */
  lemma OccurrenceFromRep(speaker: string, i: int)
    requires RepAt(speaker, i)
    ensures IsRepSpeaker(speaker)
  {
    var low := ToLower(speaker);
    var w := low[i..i + 3];
    assert w[0] == low[i] && w[1] == low[i + 1] && w[2] == low[i + 2];
    assert w == "rep";
    assert Occurs(low, "rep");
  }

  /** A speaker is a rep iff "r", "e", "p" appear consecutively in its name, in either case. */
  lemma RepIsCaseInsensitive(speaker: string)
    ensures IsRepSpeaker(speaker) <==> exists i :: RepAt(speaker, i)
  {
    if IsRepSpeaker(speaker) {
      RepFromOccurrence(speaker);
    }
    if exists i :: RepAt(speaker, i) {
      var i :| RepAt(speaker, i);
      OccurrenceFromRep(speaker, i);
    }
  }

  /** The speaker names the view is meant for, classified. */
  lemma RepExamples()
    ensures IsRepSpeaker("Sales Rep")
    ensures IsRepSpeaker("REPRESENTATIVE")
    ensures !IsRepSpeaker("Customer")
  {
    OccurrenceFromRep("Sales Rep", 6);
    OccurrenceFromRep("REPRESENTATIVE", 0);
    RepIsCaseInsensitive("Customer");
  }

  /** A name with both words is drawn as the rep's turn. */
  lemma BothWordsExample()
    ensures IsRepSpeaker("Rep / Customer") && IsCustomerSpeaker("Rep / Customer")
  {
    OccurrenceFromRep("Rep / Customer", 0);
    var low := ToLower("Rep / Customer");
    assert low[6..14] == "customer";
    assert Occurs(low, "customer");
  }

  /** The block drawn for one turn. */
  function RenderTurn(turn: TranscriptTurn): (b: TurnBlock)
    ensures b.speaker == turn.speaker && b.timestamp == turn.timestamp && b.text == turn.text
    ensures b.alignment == AlignEnd <==> IsRepSpeaker(turn.speaker)
  {
    var isRep := IsRepSpeaker(turn.speaker);
    TurnBlock(turn.speaker, turn.timestamp, turn.text, if isRep then AlignEnd else AlignStart)
  }

  /** The whole transcript: one block per turn, in input order, with the turn's fields verbatim. */
  function RenderTranscript(turns: seq<TranscriptTurn>): (blocks: seq<TurnBlock>)
    ensures |blocks| == |turns|
    ensures forall i :: 0 <= i < |turns| ==>
      blocks[i].speaker == turns[i].speaker && blocks[i].timestamp == turns[i].timestamp &&
      blocks[i].text == turns[i].text &&
      (blocks[i].alignment == AlignEnd <==> IsRepSpeaker(turns[i].speaker))
  {
    seq(|turns|, i requires 0 <= i < |turns| => RenderTurn(turns[i]))
  }

  /** A speaker that is both a rep and a customer is drawn as the rep. */
  lemma RepWinsOverCustomer(turn: TranscriptTurn)
    requires IsRepSpeaker(turn.speaker) && IsCustomerSpeaker(turn.speaker)
    ensures RenderTurn(turn).alignment == AlignEnd
  {
  }
}
