# Transcription comparison demo — a Dafny model of its logic

The demo records or uploads an audio clip and sends it to two speech-to-text
providers: an immediate provider that returns the transcript in the reply to one
request, and a job-based provider that takes an upload, a job submission and
then a poll of the job's status until it is `completed` or `error`. Both
transcripts are normalised into one word record `{word, start, end, speaker,
confidence}` and shown with a "Speaker n:" label wherever the speaker changes.

This project models the three pieces of that demo that are logic rather than
glue, with every HTTP call replaced by the reply it produced:

- `words.dfy` — module `Words`: the normalised `Word` record, `Field` for a
  JSON field that is absent (`undefined`), `null` or present, and `Flatten`, the
  concatenation of a sequence of sequences.
- `transcription_buttons.dfy` — module `TranscriptionButtons`
  (`src/components/TranscriptionButtons.tsx`): the immediate provider's envelope
  check and word extraction (`ImmediateOutcome`); the job-based provider's poll
  loop as a method over a finite, scripted sequence of status replies
  (`PollStatus`, specified by `FirstStop`), the word renaming `text → word`
  (`MapWords`) and the whole job flow (`JobOutcome`); the message stored in
  `error` (`ErrorMessage`); and the `isProcessing` / `error` flags with the
  completion callbacks as the class `TranscriptionPanel`.
- `diarized_transcript.dfy` — module `DiarizedTranscript`
  (`src/components/DiarizedTranscript.tsx`): the view as one span per word with
  an optional speaker label (`Render`), the maximal runs of one speaker as an
  independent reference (`Runs`), and the proof that there is one label per run.
- `audio_recorder.dfy` — module `AudioRecorder`
  (`src/components/AudioRecorder.tsx`): the capture session as the class
  `RecorderSession` holding the chunk buffer; a ghost record of every chunk
  delivered since the last hand-off keeps the buffer equal to the non-empty
  deliveries in arrival order, and the hand-off is proved to contain every
  delivered byte.

Inputs that stand for the outside world: `Reply<T>` (a decoded body, a body that
decoded to `null`, or the `Fault` the request threw) for each HTTP request; a `seq` of status replies for
the poll; `StartStep` for how far microphone acquisition and recorder start got;
the `isRecording` property as a parameter of `StopRecording`; and chunks as the
arguments of `HandleDataAvailable`.

The model follows the code in these details:

- On the immediate path a first alternative whose `words` is absent or `null`
  gives an empty transcript (`|| []`), not a failure; only a missing `results`,
  missing `channels` or empty `channels` is rejected by the explicit check. A
  missing or empty `alternatives` fails with the runtime's `TypeError`, and so
  does a body that is `null`.
- The job-based flow does not check that the upload returned a URL or that the
  submission returned an id; the model lets those replies through as the code
  does, and their effect is whatever the next reply is.
- A completed job whose `words` is absent or `null` fails with the runtime's
  `TypeError` from `.map`, and a `null` body from the upload, the submission or
  a status request fails with the `TypeError` of reading its first field; and a terminal `error` status fails with the code's own message
  "Transcription failed or timed out"; there are no distinct error kinds, only
  the message string stored in `error`.
- A `TypeError` message says whether the value read was `undefined` or `null`,
  so the model keeps the two apart wherever the code reads through a field.
- Polling has no attempt limit: when the scripted replies run out with no
  terminal status the outcome is `Pending`, and `isProcessing` stays true.

## Model

| member | source | states |
|---|---|---|
| TranscriptionButtons.ReadOfMissing | src/components/TranscriptionButtons.tsx:39 | the fault of reading a property of `null` or `undefined` is a `TypeError` whose message starts "Cannot read properties of " and differs from the code's own two messages |
| TranscriptionButtons.ErrorMessage | src/components/TranscriptionButtons.tsx:44-48 | the message starts with "Error processing audio: "; for an HTTP-client error the server's `message` follows when present and non-empty, else the error's own message; an `Error` gives its message; anything else "Unknown error" |
| TranscriptionButtons.ImmediateOutcome | src/components/TranscriptionButtons.tsx:35-39 | a rejected request fails with what it threw; a `null` body fails reading `results` of null; no `results`, no `channels` or empty `channels` fails with "Unexpected response format from Deepgram API"; absent or `null` `alternatives` fails reading `0` of undefined or null, an empty one reading `words` of undefined; a transcript exactly when the envelope holds and the first alternative exists; that transcript is the alternative's `words`, or empty when `words` is absent or `null`; never pending |
| TranscriptionButtons.FirstStop | src/components/TranscriptionButtons.tsx:87-95 | the index found is of a reply that ends the loop (terminal status, thrown request or `null` body) and every earlier reply does not; with no index, no reply ends the loop |
| TranscriptionButtons.PollStatus | src/components/TranscriptionButtons.tsx:86-98 | polling stops at the first reply that ends it (terminal status or thrown request) and returns that reply; every earlier reply was non-terminal, so status requests = its index + 1; waits = requests − 1 (no wait after the terminal reply); with no such reply every scripted reply is requested and each is followed by a wait |
| TranscriptionButtons.MapWords | src/components/TranscriptionButtons.tsx:102-108 | same length and order as the provider words; each output `word` is the input `text` and `start`, `end`, `speaker`, `confidence` are copied unchanged |
| TranscriptionButtons.SettledOutcome | src/components/TranscriptionButtons.tsx:91-113 | a transcript exactly when the last reply is `completed` with `words` present, and then it is the mapped words; `completed` with absent or `null` `words` fails reading `map` of undefined or null; `error` fails with "Transcription failed or timed out"; a `null` body fails reading `status` of null; a thrown request fails with what it threw; never pending |
| TranscriptionButtons.JobOutcome | src/components/TranscriptionButtons.tsx:58-113 | a thrown upload or submission fails with its fault, a `null` upload or submission body with the `TypeError` of reading `upload_url` or `id`; pending exactly when both succeeded and no scripted status ends polling; otherwise the reply that ended polling decides as `SettledOutcome` says; a transcript exactly when that reply is `completed` with words, equal to its mapped words; a terminal `error` fails with "Transcription failed or timed out"; a thrown status request fails with its fault |
| TranscriptionButtons.PollScenario | src/components/TranscriptionButtons.tsx:86-113 | replies processing, processing, completed stop at index 2 after 3 status requests and give the third reply's words mapped; an `error` in second place fails instead |
| TranscriptionButtons.TranscriptionPanel.constructor | src/components/TranscriptionButtons.tsx:15-16 | not processing, no error, no completion callback called |
| TranscriptionButtons.TranscriptionPanel.Begin | src/components/TranscriptionButtons.tsx:19-20 | processing is set and the previous error cleared; no callback is called |
| TranscriptionButtons.TranscriptionPanel.Settle | src/components/TranscriptionButtons.tsx:41-51 | processing ends in every case; on success the callback gets the transcript and `error` is left as it was; on failure `error` gets the message and no callback is called |
| TranscriptionButtons.TranscriptionPanel.ProcessImmediate | src/components/TranscriptionButtons.tsx:18-52 | after the immediate flow processing is off; success calls the immediate provider's callback with `ImmediateOutcome`'s words and leaves `error` null; failure sets the message and calls no callback |
| TranscriptionButtons.TranscriptionPanel.ProcessJob | src/components/TranscriptionButtons.tsx:54-124 | status requests as `FirstStop` dictates and a wait after each but the last; pending leaves processing on with no error and no callback; success calls the job provider's callback with the mapped words, `error` null; failure sets the message, no callback; processing off after every outcome |
| DiarizedTranscript.Render | src/components/DiarizedTranscript.tsx:15-33 | nothing exactly for an empty transcript; otherwise one span per word in input order carrying that word; a label before word i exactly when i = 0 or its speaker differs from word i−1's, and the label shows word i's speaker |
| DiarizedTranscript.RunsFlatten | src/components/DiarizedTranscript.tsx:24-31 | the maximal runs, concatenated, give the transcript back, and the first run starts with the first word |
| DiarizedTranscript.RunsMaximal | src/components/DiarizedTranscript.tsx:26 | every run is non-empty and of one speaker, and adjacent runs have different speakers |
| DiarizedTranscript.LabelsCountRuns | src/components/DiarizedTranscript.tsx:24-30 | the number of labels in the view equals the number of maximal runs of one speaker |
| DiarizedTranscript.ThreeRunsExample | src/components/DiarizedTranscript.tsx:26-28 | speakers 0, 0, 1, 1, 0 give three labels, for speakers 0, 1 and 0: non-adjacent runs are not merged |
| AudioRecorder.NonEmpty | src/components/AudioRecorder.tsx:40-44 | the kept chunks are no more than those delivered, each of size > 0 and one of the delivered chunks |
| AudioRecorder.NonEmptySnoc | src/components/AudioRecorder.tsx:41-43 | one more delivery appends that chunk at the end when its size is > 0 and changes nothing otherwise |
| AudioRecorder.NonEmptyKeepsBytes | src/components/AudioRecorder.tsx:46-48 | dropping empty chunks loses no byte: the kept chunks concatenate to the bytes of all deliveries |
| AudioRecorder.RecorderSession.constructor | src/components/AudioRecorder.tsx:15-17 | no recorder, empty buffer, no error, no callback called |
| AudioRecorder.RecorderSession.StartRecording | src/components/AudioRecorder.tsx:19-32 | success assigns a recording recorder, calls `onStart` once and clears `error`; a failure sets the microphone message and does not call `onStart`; a recorder that failed to start stays assigned; the buffer is untouched |
| AudioRecorder.RecorderSession.StopRecording | src/components/AudioRecorder.tsx:34-38 | the recorder is asked to stop exactly when one exists and `isRecording` is set; otherwise nothing changes |
| AudioRecorder.RecorderSession.HandleDataAvailable | src/components/AudioRecorder.tsx:40-44 | a chunk of size > 0 is appended at the end of the buffer, an empty chunk leaves it unchanged; the buffer stays the non-empty deliveries in arrival order |
| AudioRecorder.RecorderSession.HandleStop | src/components/AudioRecorder.tsx:46-50 | the payload is the in-order concatenation of the buffered chunks with type audio/webm, equal to every byte delivered since the last hand-off; it is passed to `onStop` and the buffer is empty afterwards |

## Left out

- HTTP requests, endpoint URLs, headers, the model names and the API-key lookup: each request is replaced by its `Reply`; the upload URL and job id are carried but never used.
- The elapsed time passed to the completion callbacks (`Date.now()` and a floating-point division) and the 3-second wait between polls: waits are counted, not timed.
- Unbounded polling: the status replies are a finite script; when it runs out with no terminal status the model reports `Pending` rather than polling for ever.
- Values of the wrong JSON type (a number where an object or array is expected, a `status` that is not a string): a non-object, non-`null` body reads as an object with every field absent, which the model covers; other mistyped values are not modelled.
- `null` entries inside a JSON array (`channels[0]`, `alternatives[0]`, an element of the job's `words`): reading through one throws a `TypeError` in the source; the model's arrays hold only records.
- A provider word with missing fields: the source copies `undefined` into the normalised record and nothing throws; the model's word records always carry every field.
- The wording of runtime `TypeError` messages is that of the V8 engine; other engines word them differently.
- Speaker values are copied and compared, never computed with; they are modelled as integers, as the declared word interface types them.
- A `null` transcript given to the view: a Dafny sequence cannot be null, so only the empty transcript is modelled; the view's heading, CSS classes and JSX are not modelled.
- Browser and media APIs: `getUserMedia`, `MediaRecorder` construction and event delivery (the model's event handlers are called directly, in whatever order the caller chooses), `Blob` construction (a payload is its bytes and type), and stopping the stream's tracks (`src/components/AudioRecorder.tsx:51-54`).
- A recorder replaced by a new start while it still runs keeps firing its events into the same buffer; the model has one recorder slot and does not distinguish whose events arrive.
- The `isRecording` property belongs to the page component, which sets it in `onStart` and `onStop`; the model takes it as a parameter.
- UI and concurrency: React state hooks, button `disabled` wiring, rendering, and any interleaving of the two provider flows, which share the same `isProcessing` and `error` flags.
- `src/App.tsx`: page wiring (state setters, playback, file input) with no logic beyond passing values through.
