/** The audio recorder: a capture session that buffers the non-empty chunks the
    media recorder delivers and, when the recorder stops, hands their
    concatenation on as one payload and empties the buffer. */
module AudioRecorder {
  import opened Words

  newtype byte = b: int | 0 <= b < 256

  /** One chunk of encoded audio, as delivered by a `dataavailable` event. */
  type Chunk = seq<byte>

  /** The recorded clip handed to `onStop`. */
  datatype Payload = Payload(bytes: seq<byte>, mimeType: string)

  const RecordingType := "audio/webm"
  const MicrophoneError := "Error accessing microphone. Please make sure you have granted microphone permissions."

  /** The chunks of a delivery sequence that the buffer keeps: those of size > 0, in order. */
  function NonEmpty(arrivals: seq<Chunk>): (r: seq<Chunk>)
    ensures |r| <= |arrivals|
    ensures forall i :: 0 <= i < |r| ==> |r[i]| > 0 && r[i] in arrivals
  {
    if arrivals == [] then []
    else (if |arrivals[0]| > 0 then [arrivals[0]] else []) + NonEmpty(arrivals[1..])
  }

  /** Filtering is incremental: one more delivery adds at most that chunk, at the end. */
  lemma {:induction false} NonEmptySnoc(arrivals: seq<Chunk>, chunk: Chunk)
    ensures NonEmpty(arrivals + [chunk]) == NonEmpty(arrivals) + (if |chunk| > 0 then [chunk] else [])
  {
    if arrivals != [] {
      assert (arrivals + [chunk])[1..] == arrivals[1..] + [chunk];
      NonEmptySnoc(arrivals[1..], chunk);
    } else {
      assert arrivals + [chunk] == [chunk];
      assert NonEmpty([chunk][1..]) == [];
    }
  }

  /** Dropping the empty chunks loses no byte: the kept chunks concatenate to
      exactly the bytes of everything delivered. */
  lemma {:induction false} NonEmptyKeepsBytes(arrivals: seq<Chunk>)
    ensures Flatten(NonEmpty(arrivals)) == Flatten(arrivals)
  {
    if arrivals != [] {
      NonEmptyKeepsBytes(arrivals[1..]);
      var head := if |arrivals[0]| > 0 then [arrivals[0]] else [];
      FlattenAppend(head, NonEmpty(arrivals[1..]));
      if head == [] {
        assert arrivals[0] == [];
      } else {
        assert Flatten(head) == arrivals[0] + Flatten([]);
      }
    }
  }

  /** How far `startRecording` gets: microphone or recorder creation fails
      (nothing is assigned), the new recorder is assigned but `start()` throws,
      or everything succeeds. */
  datatype StartStep = AcquireFailed | StartFailed | Started

  class RecorderSession {
    /** `mediaRecorderRef.current` is set. */
    var hasRecorder: bool
    /** The recorder in the ref is in its recording state. */
    var recording: bool
    /** `chunksRef.current`. */
    var chunks: seq<Chunk>
    var error: Option<string>
    /** How many times `onStart` has been called. */
    var startCalls: nat
    /** The payloads passed to `onStop`, in order. */
    var handedOff: seq<Payload>
    /** Every chunk delivered since the buffer was last emptied, empty ones included. */
    ghost var arrivals: seq<Chunk>

    /** The buffer holds exactly the non-empty deliveries, in arrival order. */
    ghost predicate Valid()
      reads this
    {
      chunks == NonEmpty(arrivals)
    }

    constructor ()
      ensures Valid()
      ensures !hasRecorder && !recording && chunks == [] && error == None
      ensures startCalls == 0 && handedOff == [] && arrivals == []
    {
      hasRecorder, recording := false, false;
      chunks, arrivals := [], [];
      error := None;
      startCalls := 0;
      handedOff := [];
    }

    /** `startRecording`: `onStart` is called and `error` cleared only when the
        microphone was acquired and the recorder started; otherwise `error` is set. */
    method StartRecording(step: StartStep)
      requires Valid()
      modifies this
      ensures Valid()
      ensures chunks == old(chunks) && arrivals == old(arrivals) && handedOff == old(handedOff)
      ensures step == Started ==>
                hasRecorder && recording && startCalls == old(startCalls) + 1 && error == None
      ensures step == StartFailed ==>
                hasRecorder && !recording && startCalls == old(startCalls) && error == Some(MicrophoneError)
      ensures step == AcquireFailed ==>
                && hasRecorder == old(hasRecorder) && recording == old(recording)
                && startCalls == old(startCalls) && error == Some(MicrophoneError)
    {
      match step {
        case AcquireFailed =>
          error := Some(MicrophoneError);
        case StartFailed =>
          hasRecorder, recording := true, false;
          error := Some(MicrophoneError);
        case Started =>
          hasRecorder, recording := true, true;
          startCalls := startCalls + 1;
          error := None;
      }
    }

    /** `stopRecording`: asks the recorder to stop only when one exists and the
        `isRecording` property is set; `stopped` tells whether it asked. */
    method StopRecording(isRecording: bool) returns (stopped: bool)
      requires Valid()
      modifies this
      ensures Valid()
      ensures stopped <==> old(hasRecorder) && isRecording
      ensures recording == (old(recording) && !stopped)
      ensures hasRecorder == old(hasRecorder) && chunks == old(chunks) && arrivals == old(arrivals)
      ensures error == old(error) && startCalls == old(startCalls) && handedOff == old(handedOff)
    {
      stopped := hasRecorder && isRecording;
      if stopped {
        recording := false;
      }
    }

    /** `handleDataAvailable`: a chunk of size > 0 is appended; an empty one is dropped. */
    method HandleDataAvailable(chunk: Chunk)
      requires Valid()
      modifies this
      ensures Valid()
      ensures arrivals == old(arrivals) + [chunk]
      ensures chunks == if |chunk| > 0 then old(chunks) + [chunk] else old(chunks)
      ensures hasRecorder == old(hasRecorder) && recording == old(recording)
      ensures error == old(error) && startCalls == old(startCalls) && handedOff == old(handedOff)
    {
      NonEmptySnoc(arrivals, chunk);
      if |chunk| > 0 {
        chunks := chunks + [chunk];
      }
      arrivals := arrivals + [chunk];
    }

    /** `handleStop`: the buffered chunks, concatenated in order, go to `onStop`
        as one payload, and the buffer is emptied. The payload holds every byte
        delivered since the buffer was last emptied. */
    method HandleStop() returns (payload: Payload)
      requires Valid()
      modifies this
      ensures Valid()
      ensures payload == Payload(Flatten(old(chunks)), RecordingType)
      ensures payload.bytes == Flatten(old(arrivals))
      ensures handedOff == old(handedOff) + [payload]
      ensures chunks == [] && arrivals == []
      ensures hasRecorder == old(hasRecorder) && recording == old(recording)
      ensures error == old(error) && startCalls == old(startCalls)
    {
      NonEmptyKeepsBytes(arrivals);
      payload := Payload(Flatten(chunks), RecordingType);
      handedOff := handedOff + [payload];
      chunks := [];
      arrivals := [];
    }
  }

  /** A whole capture as a client sees it: start, three deliveries (one empty),
      stop; the payload is the two non-empty chunks back to back. */
  method CaptureSession(first: Chunk, second: Chunk)
  {
    var session := new RecorderSession();
    session.StartRecording(Started);
    session.HandleDataAvailable(first);
    session.HandleDataAvailable([]);
    session.HandleDataAvailable(second);
    assert session.arrivals == [first, [], second];
    var stopped := session.StopRecording(true);
    assert stopped;
    var payload := session.HandleStop();
    assert payload.bytes == Flatten([first, [], second]);
    assert session.chunks == [] && session.handedOff == [payload];
  }
}
