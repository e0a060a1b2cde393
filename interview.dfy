/**
 * The interview page's session state (src/pages/Interview.tsx): three flags,
 * the transcript, and the reference to the realtime chat object, updated in
 * place by `handleMessage`, `startInterview` and `endInterview`.
 *
 * The realtime chat itself (WebRTC negotiation, microphone, playback) is
 * foreign code; its `init()` enters this model only as a success/failure
 * outcome and its `disconnect()` only as a count of calls.
 */
module Interview {
  import opened Wrappers
  import opened Transcript

  class InterviewSession {
    var isConnecting: bool
    var isConnected: bool
    var isSpeaking: bool
    var transcript: seq<Entry>
    /** Whether `chatRef.current` holds a chat object. */
    var hasChat: bool
    /** How many times `disconnect()` has been called on the chat object. */
    var disconnects: nat

    /** The page as first rendered: every flag false, nothing said yet, no chat object. */
    constructor ()
      ensures !isConnecting && !isConnected && !isSpeaking
      ensures transcript == [] && !hasChat && disconnects == 0
    {
      isConnecting, isConnected, isSpeaking := false, false, false;
      transcript := [];
      hasChat, disconnects := false, 0;
    }

    /** `handleMessage`: classify the event, then update the transcript and the speaking flag. */
    method HandleMessage(raw: RawEvent)
      modifies this
      ensures transcript == Step(old(transcript), Classify(raw))
      ensures isSpeaking == Speaking(old(isSpeaking), Classify(raw))
      ensures isConnecting == old(isConnecting) && isConnected == old(isConnected)
      ensures hasChat == old(hasChat) && disconnects == old(disconnects)
    {
      var e := Classify(raw);
      match e {
        case AssistantTranscriptDelta(_) =>
          transcript := Step(transcript, e);
        case InputTranscriptionCompleted(_) =>
          transcript := Step(transcript, e);
        case AudioDelta =>
          isSpeaking := true;
        case AudioDone =>
          isSpeaking := false;
        case Unknown(_) =>
      }
    }

    /** The part of `startInterview` before `await init()`: raise `isConnecting` and create a fresh chat object. */
    method BeginStart()
      modifies this
      ensures isConnecting && hasChat
      ensures isConnected == old(isConnected) && isSpeaking == old(isSpeaking)
      ensures transcript == old(transcript) && disconnects == old(disconnects)
    {
      isConnecting := true;
      hasChat := true;
    }

    /**
     * The part of `startInterview` after `init()` settles: on success mark the
     * session connected; on failure (the catch block) only clear `isConnecting`.
     */
    method FinishStart(initSucceeded: bool)
      modifies this
      ensures !isConnecting
      ensures isConnected == (old(isConnected) || initSucceeded)
      ensures isSpeaking == old(isSpeaking) && transcript == old(transcript)
      ensures hasChat == old(hasChat) && disconnects == old(disconnects)
    {
      if initSucceeded {
        isConnected := true;
        isConnecting := false;
      } else {
        isConnecting := false;
      }
    }

    /** `startInterview` with no events delivered while `init()` is pending. */
    method StartInterview(initSucceeded: bool)
      modifies this
      ensures initSucceeded ==> isConnected && !isConnecting
      ensures !initSucceeded ==> !isConnecting && isConnected == old(isConnected)
      ensures hasChat
      ensures isSpeaking == old(isSpeaking) && transcript == old(transcript)
      ensures disconnects == old(disconnects)
    {
      BeginStart();
      FinishStart(initSucceeded);
    }

    /**
     * `endInterview`: disconnect the chat object if there is one, clear
     * `isConnected` and `isSpeaking`, and hand the transcript on to the
     * feedback page.
     */
    method EndInterview() returns (feedback: seq<Entry>)
      modifies this
      ensures !isConnected && !isSpeaking
      ensures feedback == old(transcript) && transcript == old(transcript)
      ensures isConnecting == old(isConnecting) && hasChat == old(hasChat)
      ensures disconnects == old(disconnects) + (if old(hasChat) then 1 else 0)
    {
      if hasChat {
        disconnects := disconnects + 1;
      }
      isConnected := false;
      isSpeaking := false;
      feedback := transcript;
    }
  }

  /**
   * A whole interview as the page drives it: a successful start, a
   * conversation with audio events and an unknown event interleaved, then the
   * end of the interview.
   */
  method ExampleInterview() returns (feedback: seq<Entry>)
    ensures feedback == [
      Entry(Assistant, "Hello there"),
      Entry(User, "Hi, I'm ready."),
      Entry(Assistant, "Great, let's start.")
    ]
  {
    var session := new InterviewSession();
    session.BeginStart();
    session.HandleMessage(RawEvent("session.created", None, ""));
    session.FinishStart(true);
    assert session.isConnected && !session.isConnecting;
    session.HandleMessage(RawEvent(AudioDeltaType, None, ""));
    assert session.isSpeaking;
    session.HandleMessage(RawEvent(AssistantDeltaType, Some("Hello"), ""));
    session.HandleMessage(RawEvent(AssistantDeltaType, Some(" there"), ""));
    session.HandleMessage(RawEvent(AudioDoneType, None, ""));
    assert !session.isSpeaking;
    assert "Hello" + " there" == "Hello there";
    session.HandleMessage(RawEvent(UserCompletedType, None, "Hi, I'm ready."));
    session.HandleMessage(RawEvent(AssistantDeltaType, Some("Great, let's start."), ""));
    feedback := session.EndInterview();
    assert !session.isConnected && session.disconnects == 1;
  }
}
