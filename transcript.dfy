/**
 * The transcript and speaking-state reducer of the interview page
 * (`handleMessage` in src/pages/Interview.tsx).
 *
 * Each server event either extends the transcript, toggles the speaking flag,
 * or is ignored. The `setTranscript` updaters of the source are pure: they
 * build a new array from the previous one, so they are modelled here as the
 * function `Step` on `seq<Entry>`, and a stream of events as a left fold.
 */
module Transcript {
  import opened Wrappers

  datatype Role = Assistant | User

  /** One line of the visible conversation: `{ role, text }`. */
  datatype Entry = Entry(role: Role, text: string)

  /** A server event as it arrives on the data channel: its `type` tag and the two payload fields read. */
  datatype RawEvent = RawEvent(eventType: string, delta: Option<string>, transcript: string)

  /** A server event after its `type` tag has been classified. */
  datatype Event =
    | AssistantTranscriptDelta(delta: Option<string>)   // response.audio_transcript.delta
    | InputTranscriptionCompleted(transcript: string)   // conversation.item.input_audio_transcription.completed
    | AudioDelta                                        // response.audio.delta
    | AudioDone                                         // response.audio.done
    | Unknown(eventType: string)                        // any other type: ignored

  const AssistantDeltaType := "response.audio_transcript.delta"
  const UserCompletedType := "conversation.item.input_audio_transcription.completed"
  const AudioDeltaType := "response.audio.delta"
  const AudioDoneType := "response.audio.done"

  /** The four type tags the page reacts to. */
  predicate IsKnownType(t: string) {
    t == AssistantDeltaType || t == UserCompletedType || t == AudioDeltaType || t == AudioDoneType
  }

  /** The if/else-if chain on `event.type`: the first matching tag decides, everything else is ignored. */
  function Classify(raw: RawEvent): (e: Event)
    ensures raw.eventType == AssistantDeltaType ==> e == AssistantTranscriptDelta(raw.delta)
    ensures raw.eventType == UserCompletedType ==> e == InputTranscriptionCompleted(raw.transcript)
    ensures raw.eventType == AudioDeltaType ==> e == AudioDelta
    ensures raw.eventType == AudioDoneType ==> e == AudioDone
    ensures !IsKnownType(raw.eventType) ==> e == Unknown(raw.eventType)
  {
    if raw.eventType == AssistantDeltaType then AssistantTranscriptDelta(raw.delta)
    else if raw.eventType == UserCompletedType then InputTranscriptionCompleted(raw.transcript)
    else if raw.eventType == AudioDeltaType then AudioDelta
    else if raw.eventType == AudioDoneType then AudioDone
    else Unknown(raw.eventType)
  }

  /** `event.delta || ''`: an absent delta contributes the empty string. */
  function DeltaText(d: Option<string>): string {
    match d
    case Some(s) => s
    case None => ""
  }

  predicate EndsWithAssistant(t: seq<Entry>) {
    |t| > 0 && t[|t| - 1].role == Assistant
  }

  /** Does event `e` carry transcript text (as opposed to audio or unknown events)? */
  predicate IsTextEvent(e: Event) {
    e.AssistantTranscriptDelta? || e.InputTranscriptionCompleted?
  }

  /**
   * The `setTranscript` updater for one event. An assistant delta is merged
   * into a trailing assistant entry, or else opens a new assistant entry; a
   * completed user transcription always appends a user entry; every other
   * event leaves the transcript as it was.
   */
  function Step(t: seq<Entry>, e: Event): (r: seq<Entry>)
    // every event keeps all entries but the last, and never shortens the transcript
    ensures |t| <= |r| <= |t| + 1
    ensures forall k :: 0 <= k < |t| - 1 ==> r[k] == t[k]
    // merge into a trailing assistant entry
    ensures e.AssistantTranscriptDelta? && EndsWithAssistant(t) ==>
      |r| == |t| && r[..|t| - 1] == t[..|t| - 1] &&
      r[|t| - 1] == Entry(Assistant, t[|t| - 1].text + DeltaText(e.delta))
    // otherwise a fresh assistant entry holding exactly the delta
    ensures e.AssistantTranscriptDelta? && !EndsWithAssistant(t) ==>
      |r| == |t| + 1 && r[..|t|] == t && r[|t|] == Entry(Assistant, DeltaText(e.delta))
    // a completed user transcription always appends one user entry
    ensures e.InputTranscriptionCompleted? ==>
      |r| == |t| + 1 && r[..|t|] == t && r[|t|] == Entry(User, e.transcript)
    // audio and unknown events do not touch the transcript
    ensures !IsTextEvent(e) ==> r == t
  {
    match e
    case AssistantTranscriptDelta(d) =>
      if EndsWithAssistant(t) then
        t[..|t| - 1] + [Entry(Assistant, t[|t| - 1].text + DeltaText(d))]
      else
        t + [Entry(Assistant, DeltaText(d))]
    case InputTranscriptionCompleted(s) => t + [Entry(User, s)]
    case _ => t
  }

  /** The `setIsSpeaking` calls: audio delta raises the flag, audio done lowers it, nothing else touches it. */
  function Speaking(s: bool, e: Event): (r: bool)
    ensures e.AudioDelta? ==> r
    ensures e.AudioDone? ==> !r
    ensures !(e.AudioDelta? || e.AudioDone?) ==> r == s
  {
    match e
    case AudioDelta => true
    case AudioDone => false
    case _ => s
  }

  /** What each type tag does to the transcript and the speaking flag once classified. */
  lemma {:induction false} TagEffects(raw: RawEvent, t: seq<Entry>, speaking: bool)
    ensures raw.eventType == AssistantDeltaType ==>
      Speaking(speaking, Classify(raw)) == speaking &&
      (EndsWithAssistant(t) ==>
         Step(t, Classify(raw)) == t[..|t| - 1] + [Entry(Assistant, t[|t| - 1].text + DeltaText(raw.delta))]) &&
      (!EndsWithAssistant(t) ==> Step(t, Classify(raw)) == t + [Entry(Assistant, DeltaText(raw.delta))])
    ensures raw.eventType == UserCompletedType ==>
      Speaking(speaking, Classify(raw)) == speaking && Step(t, Classify(raw)) == t + [Entry(User, raw.transcript)]
    ensures raw.eventType == AudioDeltaType ==> Speaking(speaking, Classify(raw)) && Step(t, Classify(raw)) == t
    ensures raw.eventType == AudioDoneType ==> !Speaking(speaking, Classify(raw)) && Step(t, Classify(raw)) == t
    ensures !IsKnownType(raw.eventType) ==>
      Speaking(speaking, Classify(raw)) == speaking && Step(t, Classify(raw)) == t
  {
  }

  /** The transcript after the events `es`, delivered in order, starting from `t`. */
  function FoldTranscript(t: seq<Entry>, es: seq<Event>): seq<Entry>
    decreases |es|
  {
    if es == [] then t else FoldTranscript(Step(t, es[0]), es[1..])
  }

  /** The speaking flag after the events `es`, delivered in order, starting from `s`. */
  function FoldSpeaking(s: bool, es: seq<Event>): bool
    decreases |es|
  {
    if es == [] then s else FoldSpeaking(Speaking(s, es[0]), es[1..])
  }

  /** No completed user transcription among the events: nothing closes the assistant's turn. */
  predicate NoUserTurn(es: seq<Event>) {
    forall k :: 0 <= k < |es| ==> !es[k].InputTranscriptionCompleted?
  }

  predicate HasAssistantDelta(es: seq<Event>) {
    exists k :: 0 <= k < |es| && es[k].AssistantTranscriptDelta?
  }

  /** The texts of the assistant deltas among `es`, concatenated in arrival order; other events contribute nothing. */
  function AssistantText(es: seq<Event>): string
    decreases |es|
  {
    if es == [] then ""
    else (if es[0].AssistantTranscriptDelta? then DeltaText(es[0].delta) else "") + AssistantText(es[1..])
  }

  /** "No two adjacent assistant entries": every run of assistant deltas was merged into one entry. */
  predicate NoAdjacentAssistant(t: seq<Entry>) {
    forall k :: 0 <= k < |t| - 1 ==> !(t[k].role == Assistant && t[k + 1].role == Assistant)
  }

  // ---------------------------------------------------------------------------
  // Properties of single events
  // ---------------------------------------------------------------------------

  /** A missing delta is a no-op on a trailing assistant entry ... */
  lemma MissingDeltaOnAssistant(t: seq<Entry>)
    requires EndsWithAssistant(t)
    ensures Step(t, AssistantTranscriptDelta(None)) == t
  {
    assert t[|t| - 1].text + "" == t[|t| - 1].text;
    assert t[..|t| - 1] + [t[|t| - 1]] == t;
  }

  /** ... but still opens an empty assistant entry after a user entry or on an empty transcript. */
  lemma MissingDeltaElsewhere(t: seq<Entry>)
    requires !EndsWithAssistant(t)
    ensures Step(t, AssistantTranscriptDelta(None)) == t + [Entry(Assistant, "")]
  {
  }

  /** No event creates two adjacent assistant entries: a delta after an assistant entry merges instead of appending. */
  lemma StepPreservesNoAdjacent(t: seq<Entry>, e: Event)
    requires NoAdjacentAssistant(t)
    ensures NoAdjacentAssistant(Step(t, e))
  {
  }

  // ---------------------------------------------------------------------------
  // Properties of event sequences
  // ---------------------------------------------------------------------------

  /** Delivering `a` and then `b` is delivering `a + b`. */
  lemma {:induction false} FoldTranscriptAppend(t: seq<Entry>, a: seq<Event>, b: seq<Event>)
    ensures FoldTranscript(t, a + b) == FoldTranscript(FoldTranscript(t, a), b)
    decreases |a|
  {
    if a == [] {
      assert a + b == b;
    } else {
      assert (a + b)[0] == a[0];
      assert (a + b)[1..] == a[1..] + b;
      FoldTranscriptAppend(Step(t, a[0]), a[1..], b);
    }
  }

  /**
   * Over any event sequence the transcript only grows, and every entry but the
   * one that was last stays exactly as it was.
   */
  lemma {:induction false} FoldPreservesEarlierEntries(t: seq<Entry>, es: seq<Event>)
    ensures |FoldTranscript(t, es)| >= |t|
    ensures forall k :: 0 <= k < |t| - 1 ==> FoldTranscript(t, es)[k] == t[k]
    ensures |t| > 0 ==>
      FoldTranscript(t, es)[|t| - 1].role == t[|t| - 1].role &&
      t[|t| - 1].text <= FoldTranscript(t, es)[|t| - 1].text
    decreases |es|
  {
    if es != [] {
      var t' := Step(t, es[0]);
      FoldPreservesEarlierEntries(t', es[1..]);
      if |t| > 0 {
        var r := FoldTranscript(t, es);
        assert r == FoldTranscript(t', es[1..]);
        if |t'| == |t| {
          assert t[|t| - 1].text <= t'[|t| - 1].text;
        } else {
          assert t'[|t| - 1] == t[|t| - 1] by { assert t'[..|t|] == t; }
          assert r[|t| - 1] == t'[|t| - 1];
        }
      }
    }
  }

  /**
   * While no user turn arrives, the assistant deltas after a trailing
   * assistant entry extend that entry's text in arrival order; audio and
   * unknown events in between contribute nothing.
   */
  lemma {:induction false} DeltaRunMerges(t: seq<Entry>, es: seq<Event>)
    requires EndsWithAssistant(t)
    requires NoUserTurn(es)
    ensures FoldTranscript(t, es) ==
      t[..|t| - 1] + [Entry(Assistant, t[|t| - 1].text + AssistantText(es))]
    decreases |es|
  {
    if es == [] {
      assert t[|t| - 1].text + "" == t[|t| - 1].text;
      assert t[..|t| - 1] + [t[|t| - 1]] == t;
    } else {
      var t' := Step(t, es[0]);
      var head := if es[0].AssistantTranscriptDelta? then DeltaText(es[0].delta) else "";
      assert NoUserTurn(es[1..]) by {
        forall k | 0 <= k < |es[1..]| ensures !es[1..][k].InputTranscriptionCompleted? {
          assert es[1..][k] == es[k + 1];
        }
      }
      assert t' == t[..|t| - 1] + [Entry(Assistant, t[|t| - 1].text + head)] by {
        if !es[0].AssistantTranscriptDelta? {
          assert t[|t| - 1].text + "" == t[|t| - 1].text;
          assert t[..|t| - 1] + [t[|t| - 1]] == t;
        }
      }
      DeltaRunMerges(t', es[1..]);
      assert t'[..|t'| - 1] == t[..|t| - 1];
      assert t[|t| - 1].text + head + AssistantText(es[1..])
          == t[|t| - 1].text + (head + AssistantText(es[1..]));
    }
  }

  /**
   * Starting from a transcript whose last entry is not an assistant entry,
   * events with at least one assistant delta and no user turn add exactly one
   * entry: an assistant entry holding the delta texts concatenated in arrival
   * order.
   */
  lemma {:induction false} DeltaRunAddsOneEntry(t: seq<Entry>, es: seq<Event>)
    requires !EndsWithAssistant(t)
    requires NoUserTurn(es) && HasAssistantDelta(es)
    ensures FoldTranscript(t, es) == t + [Entry(Assistant, AssistantText(es))]
    decreases |es|
  {
    var t' := Step(t, es[0]);
    assert NoUserTurn(es[1..]) by {
      forall k | 0 <= k < |es[1..]| ensures !es[1..][k].InputTranscriptionCompleted? {
        assert es[1..][k] == es[k + 1];
      }
    }
    if es[0].AssistantTranscriptDelta? {
      assert t' == t + [Entry(Assistant, DeltaText(es[0].delta))];
      DeltaRunMerges(t', es[1..]);
      assert t'[..|t'| - 1] == t;
    } else {
      assert t' == t;
      var k :| 0 <= k < |es| && es[k].AssistantTranscriptDelta?;
      assert es[1..][k - 1] == es[k];
      DeltaRunAddsOneEntry(t, es[1..]);
      assert "" + AssistantText(es[1..]) == AssistantText(es[1..]);
    }
  }

  /** "No two adjacent assistant entries" holds after any event sequence that starts from such a transcript. */
  lemma {:induction false} FoldPreservesNoAdjacent(t: seq<Entry>, es: seq<Event>)
    requires NoAdjacentAssistant(t)
    ensures NoAdjacentAssistant(FoldTranscript(t, es))
    decreases |es|
  {
    if es != [] {
      StepPreservesNoAdjacent(t, es[0]);
      FoldPreservesNoAdjacent(Step(t, es[0]), es[1..]);
    }
  }

  /** Events that carry no text (audio and unknown events) leave the transcript unchanged. */
  lemma {:induction false} NonTextEventsKeepTranscript(t: seq<Entry>, es: seq<Event>)
    requires forall k :: 0 <= k < |es| ==> !IsTextEvent(es[k])
    ensures FoldTranscript(t, es) == t
    decreases |es|
  {
    if es != [] {
      assert forall k :: 0 <= k < |es[1..]| ==> es[1..][k] == es[k + 1];
      NonTextEventsKeepTranscript(Step(t, es[0]), es[1..]);
    }
  }

  predicate IsAudioEvent(e: Event) {
    e.AudioDelta? || e.AudioDone?
  }

  /** With no audio event in `es`, the speaking flag keeps its value. */
  lemma {:induction false} SpeakingWithoutAudio(s: bool, es: seq<Event>)
    requires forall k :: 0 <= k < |es| ==> !IsAudioEvent(es[k])
    ensures FoldSpeaking(s, es) == s
    decreases |es|
  {
    if es != [] {
      assert forall k :: 0 <= k < |es[1..]| ==> es[1..][k] == es[k + 1];
      SpeakingWithoutAudio(s, es[1..]);
    }
  }

  /** After a sequence of events, the speaking flag is set exactly when the last audio event was an audio delta. */
  lemma {:induction false} SpeakingFollowsLastAudioEvent(s: bool, es: seq<Event>, last: nat)
    requires last < |es| && IsAudioEvent(es[last])
    requires forall k :: last < k < |es| ==> !IsAudioEvent(es[k])
    ensures FoldSpeaking(s, es) == es[last].AudioDelta?
    decreases |es|
  {
    if last == 0 {
      assert forall k :: 0 <= k < |es[1..]| ==> es[1..][k] == es[k + 1];
      SpeakingWithoutAudio(Speaking(s, es[0]), es[1..]);
    } else {
      assert forall k :: last - 1 < k < |es[1..]| ==> es[1..][k] == es[k + 1];
      SpeakingFollowsLastAudioEvent(Speaking(s, es[0]), es[1..], last - 1);
    }
  }

  /** A worked conversation: two assistant deltas merge into one entry, a user turn follows, then a new assistant entry. */
  lemma ExampleConversation()
    ensures FoldTranscript([], [
      AssistantTranscriptDelta(Some("Hello")),
      AssistantTranscriptDelta(Some(" there")),
      InputTranscriptionCompleted("Hi, I'm ready."),
      AssistantTranscriptDelta(Some("Great, let's start."))
    ]) == [
      Entry(Assistant, "Hello there"),
      Entry(User, "Hi, I'm ready."),
      Entry(Assistant, "Great, let's start.")
    ]
  {
    var e1 := AssistantTranscriptDelta(Some("Hello"));
    var e2 := AssistantTranscriptDelta(Some(" there"));
    var e3 := InputTranscriptionCompleted("Hi, I'm ready.");
    var e4 := AssistantTranscriptDelta(Some("Great, let's start."));
    var t1 := [Entry(Assistant, "Hello")];
    var t2 := [Entry(Assistant, "Hello there")];
    var t3 := t2 + [Entry(User, "Hi, I'm ready.")];
    var t4 := t3 + [Entry(Assistant, "Great, let's start.")];
    assert Step([], e1) == t1;
    assert "Hello" + " there" == "Hello there";
    assert Step(t1, e2) == t2;
    assert Step(t2, e3) == t3;
    assert Step(t3, e4) == t4;
    FoldTranscriptAppend([], [e1], [e2, e3, e4]);
    FoldTranscriptAppend(t1, [e2], [e3, e4]);
    FoldTranscriptAppend(t2, [e3], [e4]);
    assert [e1] + [e2, e3, e4] == [e1, e2, e3, e4];
    assert [e2] + [e3, e4] == [e2, e3, e4];
    assert [e3] + [e4] == [e3, e4];
  }
}
