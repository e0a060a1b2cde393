# Interview transcript reducer and job-analysis handler, in Dafny

This project models the two pieces of deterministic logic in an
interview-practice web application.

- **The voice-interview page** (`src/pages/Interview.tsx`). Server events arrive on the
  realtime data channel. `handleMessage` folds each one into the visible
  conversation transcript, a sequence of `{role, text}` entries, and into the
  `isSpeaking` flag. `startInterview` and `endInterview` drive the
  `isConnecting`, `isConnected` and `isSpeaking` flags around the realtime chat
  object.
- **The `analyze-job` edge function** (`supabase/functions/analyze-job/index.ts`).
  It validates the request and asks an AI gateway about the job description.
  It extracts the `{…}` span from the reply with `/\{[\s\S]*\}/`, or falls back
  to a fixed verdict. It maps anything thrown to a 500 answer.

Files and modules:

- `wrappers.dfy` (`Wrappers`): `Option` and `Result`.
- `transcript.dfy` (`Transcript`): the pure `setTranscript` updater, written as
  `Step`, and the value each event gives `setIsSpeaking`, written as `Speaking`. Event streams are left folds
  (`FoldTranscript`, `FoldSpeaking`). The module holds lemmas about merging,
  appending and concatenation over event sequences.
- `interview.dfy` (`Interview`): the class `InterviewSession`. Its fields are the
  page's state and its methods are `handleMessage`, `startInterview` and
  `endInterview`.
  - `startInterview` is split at its `await init()`. `BeginStart` covers lines
    74-76 and `FinishStart` covers 79-80 and 88, so a caller can deliver events
    while `init()` is pending. `StartInterview` runs the two back to back.
- `brace_span.dfy` (`BraceSpan`): the regex match has a reference definition,
  `IsLeftmostGreedy`. The functions that compute it (`IndexOf`, `LastIndexOf`,
  `MatchBounds`, `JsonMatch`) are proved to agree with it.
- `analyze_job.dfy` (`AnalyzeJob`): the handler as a function from the request
  and the opaque collaborators to a status, headers and body.
  - `Analyze` is the body of the `try` block. Its contract states the
    validation order and which outcome each path gives. `Handle` turns that
    outcome into the answer, and a lemma beside `Handle` states each path.

Behaviour of the code that a reader might expect otherwise:

- A delta with no text contributes nothing only when the last entry is an
  assistant entry. After a user entry, or on an empty transcript, it still
  opens an empty assistant entry (`MissingDeltaElsewhere`).
- Only assistant deltas are merged. A completed user transcription always
  appends, so two user entries can be adjacent. What is preserved is "no two
  adjacent assistant entries" (`FoldPreservesNoAdjacent`).
- The page has no error state, no rejection of a second start, no
  cancellation of a pending connect, no ordered teardown and no silence
  timeout. The model adds none of them.
- When `init()` fails, the code clears only `isConnecting`. `isConnected` keeps
  its previous value. It is false whenever the start button is shown (lines
  185-190).

## Model

| member | source | states |
|---|---|---|
| `Transcript.Classify` | src/pages/Interview.tsx:52-69 | Each of the four type tags gives its own event, carrying the delta or transcript payload the page reads. Any other tag gives an Unknown event carrying that tag. |
| `Transcript.TagEffects` | src/pages/Interview.tsx:52-69 | Takes one event. `response.audio_transcript.delta` merges into a trailing assistant entry or appends one. `conversation.item.input_audio_transcription.completed` appends a user entry. `response.audio.delta` sets `isSpeaking` and `response.audio.done` clears it, both leaving the transcript alone. Any other tag changes neither. |
| `Transcript.Step` | src/pages/Interview.tsx:52-64 | Takes one event. A delta on a trailing assistant entry keeps the length and all earlier entries; the last text becomes old text + delta. A delta anywhere else appends one assistant entry holding the delta. A completed user transcription appends one user entry. Other events change nothing. Every event keeps all entries but the last and grows the transcript by at most one. |
| `Transcript.Speaking` | src/pages/Interview.tsx:65-69 | An audio delta sets the speaking flag and an audio done clears it. Every other event leaves it unchanged. |
| `Transcript.MissingDeltaOnAssistant` | src/pages/Interview.tsx:55-58 | A delta with no text leaves a transcript that ends with an assistant entry unchanged. |
| `Transcript.MissingDeltaElsewhere` | src/pages/Interview.tsx:61 | A delta with no text still appends an empty assistant entry after a user entry or on an empty transcript. |
| `Transcript.StepPreservesNoAdjacent` | src/pages/Interview.tsx:53-64 | No single event creates two adjacent assistant entries. |
| `Transcript.FoldTranscriptAppend` | src/pages/Interview.tsx:49-70 | Processing events `a` and then `b` gives the same transcript as processing `a + b`. |
| `Transcript.FoldPreservesEarlierEntries` | src/pages/Interview.tsx:53-64 | Over any event sequence the transcript never shrinks. Every entry before the original last one is left exactly as it was. The original last entry keeps its role, and its old text is a prefix of its new text. |
| `Transcript.DeltaRunMerges` | src/pages/Interview.tsx:52-60 | Takes events with no user turn among them, possibly mixing audio and unknown events. After a trailing assistant entry they extend that entry's text by the delta texts concatenated in order. Nothing else changes. |
| `Transcript.DeltaRunAddsOneEntry` | src/pages/Interview.tsx:52-61 | Starts from a transcript whose last entry is not an assistant entry. Takes events with at least one assistant delta and no user turn. They add exactly one entry: an assistant entry whose text is the delta texts concatenated in order. |
| `Transcript.FoldPreservesNoAdjacent` | src/pages/Interview.tsx:52-64 | "No two adjacent assistant entries" holds after any event sequence that starts from a transcript where it holds. |
| `Transcript.NonTextEventsKeepTranscript` | src/pages/Interview.tsx:65-69 | A sequence of audio and unknown events leaves the transcript unchanged. |
| `Transcript.SpeakingWithoutAudio` | src/pages/Interview.tsx:52-64 | Events other than audio delta/done never change the speaking flag. |
| `Transcript.SpeakingFollowsLastAudioEvent` | src/pages/Interview.tsx:65-68 | After any event sequence, the speaking flag is true exactly when the last audio event was an audio delta. |
| `Transcript.ExampleConversation` | src/pages/Interview.tsx:52-64 | Deltas "Hello" and " there", a user turn, then another delta give three entries, the first being "Hello there". |
| `Interview.InterviewSession.constructor` | src/pages/Interview.tsx:14-19 | The page starts with every flag false, an empty transcript and no chat object. |
| `Interview.InterviewSession.HandleMessage` | src/pages/Interview.tsx:49-70 | Sets the transcript to `Step` of the classified event and the speaking flag to `Speaking` of it. The connection flags and the chat object are untouched. |
| `Interview.InterviewSession.BeginStart` | src/pages/Interview.tsx:74-76 | Raises `isConnecting` and installs a chat object. Nothing else changes. |
| `Interview.InterviewSession.FinishStart` | src/pages/Interview.tsx:77-88 | Once `init()` settles, `isConnecting` is false. `isConnected` becomes true on success and keeps its old value on failure. |
| `Interview.InterviewSession.StartInterview` | src/pages/Interview.tsx:72-95 | A successful start ends connected and not connecting. A failed start ends not connecting, with `isConnected` as before. The transcript and speaking flag are untouched. |
| `Interview.InterviewSession.EndInterview` | src/pages/Interview.tsx:97-104 | Clears `isConnected` and `isSpeaking` and leaves the transcript unchanged. Calls `disconnect()` once if there is a chat object. Hands the transcript to the feedback page. |
| `Interview.ExampleInterview` | src/pages/Interview.tsx:49-104 | A whole session gives the feedback page the three expected entries: a successful start, the conversation of `ExampleConversation` with audio and unknown events interleaved, then an end. |
| `BraceSpan.IndexOf` | supabase/functions/analyze-job/index.ts:73 | Returns the first position at or after `from` that holds the character, or none if no position does. |
| `BraceSpan.LastIndexOf` | supabase/functions/analyze-job/index.ts:73 | Returns the last position that holds the character, or none if no position does. |
| `BraceSpan.MatchBounds` | supabase/functions/analyze-job/index.ts:73 | The reported bounds are the leftmost-greedy match of `/\{[\s\S]*\}/`. No bounds are reported only when no substring matches at all. |
| `BraceSpan.JsonMatch` | supabase/functions/analyze-job/index.ts:73 | A span is found exactly when some substring matches. The span is a contiguous substring that begins with `{`, ends with `}`, and is the leftmost-greedy match. |
| `BraceSpan.LeftmostGreedyUnique` | supabase/functions/analyze-job/index.ts:73 | At most one match is leftmost-greedy, so the reference definition fixes the span. |
| `BraceSpan.JsonMatchIdempotent` | supabase/functions/analyze-job/index.ts:73 | Matching again on an extracted span returns that span unchanged. |
| `BraceSpan.JsonMatchFirstToLast` | supabase/functions/analyze-job/index.ts:73 | When a `}` follows the first `{`, the span runs from that first `{` to the last `}`, both included. |
| `BraceSpan.JsonMatchNone` | supabase/functions/analyze-job/index.ts:73-74 | When no `}` follows any `{`, including when there is no `{`, nothing is extracted. |
| `AnalyzeJob.Fallback` | supabase/functions/analyze-job/index.ts:74-78 | The fallback verdict: legit, confidence 0.5, reasoning "Unable to parse AI response". |
| `AnalyzeJob.Analyze` | supabase/functions/analyze-job/index.ts:13-83 | An unreadable body is the error. The description is checked first, then the API key. Success is possible only for a valid request whose gateway round trip gave a reply. Once both checks pass, a non-ok status fails with "AI analysis failed", a thrown value is the error, and a reply is interpreted. |
| `AnalyzeJob.InterpretReply` | supabase/functions/analyze-job/index.ts:73-78 | With no span, the result is the fallback. With a span, the result is what `JSON.parse` makes of it: its value, or its thrown error. |
| `AnalyzeJob.Handle` | supabase/functions/analyze-job/index.ts:8-93 | An `OPTIONS` request gets status 200, no body and the CORS headers. Any other request gets the JSON headers. Status 500 happens exactly when the `try` block throws, and its body is `{error: message}` ("Unknown error" for a non-Error value). Otherwise status 200 carries the verdict. |
| `AnalyzeJob.OptionsIgnoresEverythingElse` | supabase/functions/analyze-job/index.ts:9-11 | The answer to a preflight request does not depend on its body, the API key, the gateway or the parser. |
| `AnalyzeJob.UnreadableBodyRejected` | supabase/functions/analyze-job/index.ts:14 | A body that `req.json()` cannot read gives 500 with the thrown message. |
| `AnalyzeJob.DescriptionCheckedFirst` | supabase/functions/analyze-job/index.ts:17-19 | A missing or empty description gives 500 "Job description is required", whatever the API key and gateway. |
| `AnalyzeJob.MissingKeyRejected` | supabase/functions/analyze-job/index.ts:21-24 | With a description but a missing or empty API key, the answer is 500 "LOVABLE_API_KEY not configured", whatever the gateway. |
| `AnalyzeJob.GatewayFailureRejected` | supabase/functions/analyze-job/index.ts:62-66 | A non-ok gateway answer gives 500 "AI analysis failed". |
| `AnalyzeJob.GatewayThrowRejected` | supabase/functions/analyze-job/index.ts:27-69 | A gateway round trip that throws (`fetch`, `response.json()` or reading `choices[0].message.content`) gives 500 with the thrown message. |
| `AnalyzeJob.NoSpanGivesFallback` | supabase/functions/analyze-job/index.ts:73-78 | A reply where no `}` follows a `{` gives 200 with the fallback verdict. |
| `AnalyzeJob.SpanIsParsed` | supabase/functions/analyze-job/index.ts:73-83 | An extracted span that `JSON.parse` accepts is sent back as parsed with 200. One it rejects gives 500 with the parse error's message, not the fallback. |

## Left out

- `RealtimeChat`: its code is not part of this model. It does the WebRTC and data-channel negotiation, microphone capture, audio playback, `init` and `disconnect`, all of it foreign I/O. `init()` enters only as a success/failure outcome. `disconnect()` enters only as a count of calls.
- `Interview.InterviewSession.StartInterview`: a `RealtimeChat` constructor that throws is not modelled. The model installs the chat object before `init()` can fail.
- `Interview.InterviewSession.EndInterview`: uses the current transcript. In the source, `navigate` receives the `transcript` captured by the render that created the handler.
- React state batching and async scheduling: each setter call takes effect at once. Events that arrive while `init()` is pending are handled by calling `HandleMessage` between `BeginStart` and `FinishStart`.
- The unmount cleanup effect (src/pages/Interview.tsx:106-110), JSX rendering, `toast`, `navigate`, `console.log`: UI and framework lifecycle.
- Roles: typed as the datatype `Role` (`Assistant`, `User`), so "only `assistant` and `user` roles are produced" holds by typing rather than by a lemma.
- Event payloads: `delta` is an optional string and `transcript` a string. A completed-transcription event without a `transcript` field would store `undefined` in the source. Non-string payloads are not modelled.
- `jobDescription` and the API key: optional strings, each falsy when absent or empty. JavaScript truthiness of other value types is not modelled.
- The AI gateway round trip (`fetch`, `response.text()`, `response.json()`, `choices[0].message.content`): network code, so it is the opaque `gateway` outcome. The request text and model name sent to it are not modelled.
- `req.json()`: its outcome is a field of the request.
- `JSON.parse` and `JSON.stringify`: library code. `JSON.parse` is the opaque `parse` parameter. The answer body is the value handed to `JSON.stringify`.
- The confidence 0.5 of the fallback is a Dafny `real`. No floating-point arithmetic is done on it.
- supabase/functions/process-resume/index.ts, src/pages/JobAnalysis.tsx, src/pages/ResumeUpload.tsx, src/pages/Landing.tsx: presentational pages, form and network glue. process-resume's summary comes from `Math.random()` and `new Date()`, so it is nondeterministic.
