/** The two transcription flows of the transcription buttons: the immediate
    provider (one request, the transcript in the reply) and the job-based
    provider (upload, submit a job, poll its status until it is terminal),
    each normalised into one word list, plus the `isProcessing`/`error` flags
    the buttons keep.  HTTP calls are replaced by the replies they produced. */
module TranscriptionButtons {
  import opened Words

  /** What a failed step threw, as far as the catch block can tell. */
  datatype Fault =
    | Http(dataMessage: Field<string>, message: string)   // an HTTP-client error: `response?.data?.message` and its own message
    | Raised(message: string)                             // any other `Error` instance
    | NonError                                            // a thrown value that is not an `Error`

  /** The reply to one HTTP request: its decoded body, a body that decoded to
      `null`, or what the request threw. A body that is some other non-object
      (an empty string, say) reads as an object with every field absent. */
  datatype Reply<T> = Delivered(data: T) | NullBody | Rejected(fault: Fault)

  /** How one transcription attempt ends. `Pending` is the job-based flow still
      polling when the scripted status replies run out. */
  datatype Outcome = Transcribed(words: seq<Word>) | Failed(fault: Fault) | Pending

  const ErrorPrefix := "Error processing audio: "
  const UnexpectedFormat := "Unexpected response format from Deepgram API"
  const JobFailed := "Transcription failed or timed out"
  const UnknownError := "Unknown error"

  const TypeErrorPrefix := "Cannot read properties of "

  /** The `TypeError` raised by reading `property` of `null` (when `isNull`) or
      of `undefined` (the wording is that of the V8 engine). */
  function ReadOfMissing(isNull: bool, property: string): (f: Fault)
    ensures f.Raised? && |TypeErrorPrefix| <= |f.message| && f.message[..|TypeErrorPrefix|] == TypeErrorPrefix
    ensures f.message != UnexpectedFormat && f.message != JobFailed
  {
    var message := TypeErrorPrefix + (if isNull then "null" else "undefined") + " (reading '" + property + "')";
    assert message[..|TypeErrorPrefix|] == TypeErrorPrefix;
    assert message[0] == 'C';
    Raised(message)
  }

  /** The message the catch block stores in `error`. The server's message wins
      over the client's own only when it is present and non-empty, because the
      source chooses between them with `||`. */
  function ErrorMessage(f: Fault): (m: string)
    ensures |ErrorPrefix| <= |m| && m[..|ErrorPrefix|] == ErrorPrefix
    ensures f.Http? && f.dataMessage.Present? && f.dataMessage.value != "" ==> m[|ErrorPrefix|..] == f.dataMessage.value
    ensures f.Http? && (!f.dataMessage.Present? || f.dataMessage.value == "") ==> m[|ErrorPrefix|..] == f.message
    ensures f.Raised? ==> m[|ErrorPrefix|..] == f.message
    ensures f.NonError? ==> m[|ErrorPrefix|..] == UnknownError
  {
    match f
    case Http(dataMessage, message) =>
      ErrorPrefix + (if dataMessage.Present? && dataMessage.value != "" then dataMessage.value else message)
    case Raised(message) => ErrorPrefix + message
    case NonError => ErrorPrefix + UnknownError
  }

  // ---------------------------------------------------------------------------
  // Immediate provider

  /** `results.channels[k].alternatives[j].words`, every field possibly absent or `null`. */
  datatype Alternative = Alternative(words: Field<seq<Word>>)
  datatype Channel = Channel(alternatives: Field<seq<Alternative>>)
  datatype Results = Results(channels: Field<seq<Channel>>)
  datatype ListenBody = ListenBody(results: Field<Results>)

  /** The envelope check: `results` and `channels` are present and `channels` is non-empty. */
  predicate EnvelopeOk(b: ListenBody)
  {
    b.results.Present? && b.results.value.channels.Present? && |b.results.value.channels.value| > 0
  }

  /** `alternatives` of the first channel. */
  function FirstAlternatives(b: ListenBody): Field<seq<Alternative>>
    requires EnvelopeOk(b)
  {
    b.results.value.channels.value[0].alternatives
  }

  /** `alternatives[0]`: absent when the list is empty. */
  function FirstAlternative(alternatives: seq<Alternative>): Field<Alternative>
  {
    if |alternatives| > 0 then Present(alternatives[0]) else Absent
  }

  /** What the immediate-provider flow produces from the reply to its one request. */
  function ImmediateOutcome(reply: Reply<ListenBody>): (r: Outcome)
    ensures !r.Pending?
    ensures reply.Rejected? ==> r == Failed(reply.fault)
    // reading `results` of a null body throws before the envelope check
    ensures reply.NullBody? ==> r == Failed(ReadOfMissing(true, "results"))
    // envelope rejection
    ensures reply.Delivered? && !EnvelopeOk(reply.data) ==> r == Failed(Raised(UnexpectedFormat))
    // `alternatives[0]` of a missing `alternatives` throws, naming `null` or `undefined`
    ensures reply.Delivered? && EnvelopeOk(reply.data) && !FirstAlternatives(reply.data).Present? ==>
              r == Failed(ReadOfMissing(FirstAlternatives(reply.data).Null?, "0"))
    // `.words` of the first alternative of an empty list throws
    ensures reply.Delivered? && EnvelopeOk(reply.data) && FirstAlternatives(reply.data) == Present([]) ==>
              r == Failed(ReadOfMissing(false, "words"))
    // a transcript exactly when the envelope holds and the first alternative can be read
    ensures r.Transcribed? <==>
              && reply.Delivered? && EnvelopeOk(reply.data) && FirstAlternatives(reply.data).Present?
              && FirstAlternative(FirstAlternatives(reply.data).value).Present?
    // absent or `null` words is an empty transcript, present words are passed on as they are
    ensures r.Transcribed? ==>
              r.words == match FirstAlternative(FirstAlternatives(reply.data).value).value.words
                         case Present(ws) => ws
                         case _ => []
  {
    match reply
    case Rejected(f) => Failed(f)
    case NullBody => Failed(ReadOfMissing(true, "results"))
    case Delivered(b) =>
      if !EnvelopeOk(b) then Failed(Raised(UnexpectedFormat))
      else
        var alternatives := FirstAlternatives(b);
        if !alternatives.Present? then Failed(ReadOfMissing(alternatives.Null?, "0"))
        else match FirstAlternative(alternatives.value)
          case Present(first) =>
            (match first.words
             case Present(ws) => Transcribed(ws)
             case _ => Transcribed([]))
          case _ => Failed(ReadOfMissing(false, "words"))
  }

  // ---------------------------------------------------------------------------
  // Job-based provider

  datatype UploadBody = UploadBody(uploadUrl: Field<string>)
  datatype JobBody = JobBody(id: Field<string>)
  /** A provider word: `{text, start, end, speaker, confidence}`. */
  datatype JobWord = JobWord(text: string, start: real, end: real, speaker: int, confidence: real)
  /** One status reply: `{status, words?}`. */
  datatype StatusBody = StatusBody(status: string, words: Field<seq<JobWord>>)

  const Completed := "completed"
  const Errored := "error"

  predicate IsTerminal(status: string)
  {
    status == Completed || status == Errored
  }

  /** A status reply ends the poll loop when its status is terminal, or when
      the request or the read of `status` from a `null` body threw (the
      exception leaves the loop). */
  predicate StopsPolling(reply: Reply<StatusBody>)
  {
    !reply.Delivered? || IsTerminal(reply.data.status)
  }

  /** The index of the first reply that ends the poll loop, if any. */
  function FirstStop(script: seq<Reply<StatusBody>>): (k: Option<nat>)
    ensures k.Some? ==> k.value < |script| && StopsPolling(script[k.value])
    ensures k.Some? ==> forall j :: 0 <= j < k.value ==> !StopsPolling(script[j])
    ensures k.None? ==> forall j :: 0 <= j < |script| ==> !StopsPolling(script[j])
  {
    if script == [] then None
    else if StopsPolling(script[0]) then Some(0)
    else match FirstStop(script[1..])
      case None => None
      case Some(k) => Some(k + 1)
  }

  /** Where polling a scripted sequence of status replies leaves off. */
  datatype PollResult = Settled(last: Reply<StatusBody>) | Exhausted

  /** The poll loop: request the status, stop on a terminal status or a thrown
      request, otherwise wait and request again. The waits are counted, not timed.
      Polling stops at the first reply that ends it: that reply is the last one
      requested and every reply before it did not end polling. */
  method PollStatus(script: seq<Reply<StatusBody>>) returns (stop: PollResult, requests: nat, waits: nat)
    ensures requests <= |script|
    ensures stop.Settled? ==> 0 < requests && stop.last == script[requests - 1] && StopsPolling(stop.last)
    ensures stop.Settled? ==> forall j :: 0 <= j < requests - 1 ==> !StopsPolling(script[j])
    // no wait after the reply that ended polling
    ensures stop.Settled? ==> waits == requests - 1
    // a script with no terminal reply is requested in full, with a wait after each
    ensures stop.Exhausted? ==> forall j :: 0 <= j < |script| ==> !StopsPolling(script[j])
    ensures stop.Exhausted? ==> requests == |script| && waits == requests
  {
    stop, requests, waits := Exhausted, 0, 0;
    while requests < |script|
      invariant requests <= |script|
      invariant waits == requests
      invariant stop == Exhausted
      invariant forall j :: 0 <= j < requests ==> !StopsPolling(script[j])
    {
      var reply := script[requests];
      requests := requests + 1;
      if StopsPolling(reply) {
        stop := Settled(reply);
        break;
      }
      waits := waits + 1;
    }
  }

  /** The renaming of a provider word into the normalised record. */
  function ToWord(w: JobWord): Word
  {
    Word(w.text, w.start, w.end, w.speaker, w.confidence)
  }

  /** The mapping applied to `result.words` of a completed job. */
  function MapWords(ws: seq<JobWord>): (r: seq<Word>)
    ensures |r| == |ws|
    ensures forall i :: 0 <= i < |ws| ==>
              && r[i].word == ws[i].text
              && r[i].start == ws[i].start
              && r[i].end == ws[i].end
              && r[i].speaker == ws[i].speaker
              && r[i].confidence == ws[i].confidence
  {
    if ws == [] then [] else [ToWord(ws[0])] + MapWords(ws[1..])
  }

  /** What the reply that ended polling makes of the job: a `completed` status
      maps its words, an `error` status fails, a thrown request fails with what it threw. */
  function SettledOutcome(last: Reply<StatusBody>): (r: Outcome)
    requires StopsPolling(last)
    ensures !r.Pending?
    ensures r.Transcribed? <==> last.Delivered? && last.data.status == Completed && last.data.words.Present?
    ensures r.Transcribed? ==> r.words == MapWords(last.data.words.value)
    // `.map` of absent or `null` words throws, naming which
    ensures last.Delivered? && last.data.status == Completed && !last.data.words.Present? ==>
              r == Failed(ReadOfMissing(last.data.words.Null?, "map"))
    ensures last.Delivered? && last.data.status == Errored ==> r == Failed(Raised(JobFailed))
    ensures last.NullBody? ==> r == Failed(ReadOfMissing(true, "status"))
    ensures last.Rejected? ==> r == Failed(last.fault)
  {
    match last
    case Rejected(f) => Failed(f)
    case NullBody => Failed(ReadOfMissing(true, "status"))
    case Delivered(body) =>
      if body.status == Completed then
        match body.words
        case Present(ws) => Transcribed(MapWords(ws))
        case _ => Failed(ReadOfMissing(body.words.Null?, "map"))
      else Failed(Raised(JobFailed))
  }

  /** The fault of a reply that was not delivered as an object: what the request
      threw, or the `TypeError` of reading `property` of its `null` body. */
  function ReplyFault<T>(reply: Reply<T>, property: string): Fault
    requires !reply.Delivered?
  {
    if reply.Rejected? then reply.fault else ReadOfMissing(true, property)
  }

  /** The whole job-based flow: upload, submit, poll the scripted status replies. */
  function JobOutcome(upload: Reply<UploadBody>, submit: Reply<JobBody>, script: seq<Reply<StatusBody>>): (r: Outcome)
    ensures upload.Rejected? ==> r == Failed(upload.fault)
    ensures upload.NullBody? ==> r == Failed(ReadOfMissing(true, "upload_url"))
    ensures upload.Delivered? && submit.Rejected? ==> r == Failed(submit.fault)
    ensures upload.Delivered? && submit.NullBody? ==> r == Failed(ReadOfMissing(true, "id"))
    // still polling exactly when every scripted status was non-terminal
    ensures r.Pending? <==> upload.Delivered? && submit.Delivered? && FirstStop(script).None?
    // once polling stops, the reply that stopped it decides
    ensures upload.Delivered? && submit.Delivered? && FirstStop(script).Some? ==>
              r == SettledOutcome(script[FirstStop(script).value])
    // a transcript exactly from a `completed` first terminal reply with words, and then its mapped words
    ensures r.Transcribed? <==>
              && upload.Delivered? && submit.Delivered? && FirstStop(script).Some?
              && var last := script[FirstStop(script).value];
              && last.Delivered? && last.data.status == Completed && last.data.words.Present?
    ensures r.Transcribed? ==> r.words == MapWords(script[FirstStop(script).value].data.words.value)
    // a terminal error status, or a status request that threw, fails
    ensures upload.Delivered? && submit.Delivered? && FirstStop(script).Some?
            && script[FirstStop(script).value].Delivered?
            && script[FirstStop(script).value].data.status == Errored
            ==> r == Failed(Raised(JobFailed))
    ensures upload.Delivered? && submit.Delivered? && FirstStop(script).Some?
            && script[FirstStop(script).value].Rejected?
            ==> r == Failed(script[FirstStop(script).value].fault)
  {
    if !upload.Delivered? then Failed(ReplyFault(upload, "upload_url"))
    else if !submit.Delivered? then Failed(ReplyFault(submit, "id"))
    else match FirstStop(script)
      case None => Pending
      case Some(k) => SettledOutcome(script[k])
  }

  /** Number of status requests the job-based flow issues for a script. */
  function StatusRequests(upload: Reply<UploadBody>, submit: Reply<JobBody>, script: seq<Reply<StatusBody>>): nat
  {
    if !upload.Delivered? || !submit.Delivered? then 0
    else match FirstStop(script)
      case None => |script|
      case Some(k) => k + 1
  }

  /** Two `processing` replies and then `completed`: three status requests, two
      waits, and the transcript is the third reply's words renamed. A terminal
      `error` in their place fails with no transcript. */
  lemma PollScenario(ws: seq<JobWord>, upload: UploadBody, job: JobBody)
    ensures var busy := Delivered(StatusBody("processing", Absent));
            var done := Delivered(StatusBody(Completed, Present(ws)));
            var failed := Delivered(StatusBody(Errored, Present(ws)));
            && FirstStop([busy, busy, done]) == Some(2)
            && StatusRequests(Delivered(upload), Delivered(job), [busy, busy, done]) == 3
            && JobOutcome(Delivered(upload), Delivered(job), [busy, busy, done]) == Transcribed(MapWords(ws))
            && JobOutcome(Delivered(upload), Delivered(job), [busy, failed, done]) == Failed(Raised(JobFailed))
  {
    var busy := Delivered(StatusBody("processing", Absent));
    var done := Delivered(StatusBody(Completed, Present(ws)));
    var failed := Delivered(StatusBody(Errored, Present(ws)));
    assert !StopsPolling(busy);
    assert [busy, busy, done][1..] == [busy, done];
    assert [busy, done][1..] == [done];
    assert [busy, failed, done][1..] == [failed, done];
    assert StopsPolling(done) && StopsPolling(failed);
    assert FirstStop([done]) == Some(0);
    assert FirstStop([busy, done]) == Some(1);
    assert FirstStop([failed, done]) == Some(0);
  }

  // ---------------------------------------------------------------------------
  // The buttons' state

  datatype Provider = Immediate | JobBased

  /** One call of a completion callback (the elapsed time is not modelled). */
  datatype Completion = Completion(provider: Provider, transcript: seq<Word>)

  class TranscriptionPanel {
    var isProcessing: bool
    var error: Option<string>
    /** The completion callbacks called so far, in order. */
    var completions: seq<Completion>

    constructor ()
      ensures !isProcessing && error == None && completions == []
    {
      isProcessing := false;
      error := None;
      completions := [];
    }

    /** Entry of either flow: processing starts and the previous error is cleared. */
    method Begin()
      modifies this
      ensures isProcessing && error == None
      ensures completions == old(completions)
    {
      isProcessing := true;
      error := None;
    }

    /** The end of either flow: the callback on success, the message on failure,
        and processing off in every case. */
    method Settle(provider: Provider, outcome: Outcome)
      requires !outcome.Pending?
      modifies this
      ensures !isProcessing
      ensures outcome.Transcribed? ==>
                error == old(error) && completions == old(completions) + [Completion(provider, outcome.words)]
      ensures outcome.Failed? ==> error == Some(ErrorMessage(outcome.fault)) && completions == old(completions)
    {
      match outcome {
        case Transcribed(ws) =>
          completions := completions + [Completion(provider, ws)];
        case Failed(f) =>
          error := Some(ErrorMessage(f));
      }
      isProcessing := false;
    }

    method ProcessImmediate(reply: Reply<ListenBody>)
      modifies this
      ensures !isProcessing
      ensures var r := ImmediateOutcome(reply);
              && (r.Transcribed? ==> error == None && completions == old(completions) + [Completion(Immediate, r.words)])
              && (r.Failed? ==> error == Some(ErrorMessage(r.fault)) && completions == old(completions))
    {
      Begin();
      Settle(Immediate, ImmediateOutcome(reply));
    }

    method ProcessJob(upload: Reply<UploadBody>, submit: Reply<JobBody>, script: seq<Reply<StatusBody>>)
      returns (requests: nat, waits: nat)
      modifies this
      ensures requests == StatusRequests(upload, submit, script)
      // a wait follows every status request except the one that ended polling
      ensures JobOutcome(upload, submit, script).Pending? ==> waits == requests
      ensures !JobOutcome(upload, submit, script).Pending? ==> waits == if requests == 0 then 0 else requests - 1
      ensures var r := JobOutcome(upload, submit, script);
              && (r.Pending? ==> isProcessing && error == None && completions == old(completions))
              && (r.Transcribed? ==> !isProcessing && error == None && completions == old(completions) + [Completion(JobBased, r.words)])
              && (r.Failed? ==> !isProcessing && error == Some(ErrorMessage(r.fault)) && completions == old(completions))
    {
      Begin();
      requests, waits := 0, 0;
      if !upload.Delivered? {
        Settle(JobBased, Failed(ReplyFault(upload, "upload_url")));
        return;
      }
      if !submit.Delivered? {
        Settle(JobBased, Failed(ReplyFault(submit, "id")));
        return;
      }
      var polled;
      polled, requests, waits := PollStatus(script);
      match polled
      case Exhausted =>
        assert FirstStop(script).None?;
      case Settled(last) =>
        assert FirstStop(script) == Some(requests - 1);
        assert JobOutcome(upload, submit, script) == SettledOutcome(last);
        Settle(JobBased, SettledOutcome(last));
    }
  }
}
