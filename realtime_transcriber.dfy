/**
 * The worker's transcription engine (python/realtime_transcriber.py): session
 * state, the cumulative transcript, the audio queue the recording callback
 * fills, and one pass of the processing loop that cuts the buffered audio into
 * fixed-size chunks, each sent to the speech model preceded by the tail of
 * the previous chunk.
 *
 * The recording and processing threads become method calls (`AudioBlock`,
 * `ProcessIteration`); the speech model is the function `recognise` from the
 * audio to the text of its segments; the output callback's argument is the
 * record a method returns, `None` when no callback is set.
 */
module Realtime {
  import opened Wrappers
  import opened Text
  import opened Json

  /** Audio samples. */
  type Samples = seq<int>

  function Min(a: nat, b: nat): nat { if a <= b then a else b }

  /** The queued blocks one after another. */
  function Flatten(blocks: seq<Samples>): Samples
  {
    if blocks == [] then [] else blocks[0] + Flatten(blocks[1..])
  }

  lemma {:induction false} FlattenSnoc(blocks: seq<Samples>, b: Samples)
    ensures Flatten(blocks + [b]) == Flatten(blocks) + b
  {
    if blocks != [] {
      assert (blocks + [b])[1..] == blocks[1..] + [b];
      FlattenSnoc(blocks[1..], b);
    }
  }

  // ---------------------------------------------------------------------------
  // The overlap rule

  /** Python's `c[start:]`: a negative start counts from the end and is clamped to the front. */
  function SliceFrom(c: Samples, start: int): (r: Samples)
    ensures |r| <= |c|
    ensures start < 0 && -start <= |c| ==> |r| == -start
    ensures start >= 0 && start <= |c| ==> |r| == |c| - start
    ensures r == c[|c| - |r|..]
  {
    var i := if start < 0 then (if |c| + start < 0 then 0 else |c| + start)
             else (if start > |c| then |c| else start);
    c[i..]
  }

  /**
   * The next overlap as the loop computes it: `c[-k:]` when the chunk holds
   * at least `k` samples, else the whole chunk. For `k == 0` the slice is
   * `c[-0:]`, which is `c[0:]`, the whole chunk.
   */
  function OverlapAsWritten(c: Samples, k: nat): Samples
  {
    if |c| >= k then SliceFrom(c, -(k as int)) else c
  }

  /** The code's overlap is a suffix of the chunk, at most `k` long when `k` is positive. */
  lemma OverlapIsSuffix(c: Samples, k: nat)
    ensures var r := OverlapAsWritten(c, k);
      |r| <= |c| && r == c[|c| - |r|..] && (k > 0 ==> |r| <= k)
  {
  }

  /** The intended overlap: the last `min(k, |c|)` samples of the chunk. */
  function OverlapTail(c: Samples, k: nat): (r: Samples)
    ensures |r| == Min(k, |c|) && r == c[|c| - |r|..]
    ensures k == 0 ==> r == []
    ensures |c| <= k ==> r == c
  {
    c[|c| - Min(k, |c|)..]
  }

  /** For every positive overlap size the loop computes the intended overlap. */
  lemma OverlapAgrees(c: Samples, k: nat)
    requires k > 0
    ensures OverlapAsWritten(c, k) == OverlapTail(c, k)
  {
    if |c| >= k {
      assert |SliceFrom(c, -(k as int))| == k;
    }
  }

  /**
   * With an overlap size of zero the loop keeps the whole chunk as the overlap,
   * so the next chunk is sent to the model behind a full copy of this one.
   */
  lemma OverlapZeroKeepsWholeChunk(c: Samples)
    ensures OverlapAsWritten(c, 0) == c
    ensures OverlapTail(c, 0) == []
  {
    assert SliceFrom(c, 0) == c[0..];
  }

  /**
   * The engine's invariant on values: the audio taken, then the buffer, then
   * the queue, is the audio heard, and the overlap is a suffix of what was
   * taken, at most `k` long, or at most a chunk of `n` when `k` is 0.
   */
  ghost predicate Accounted(taken: Samples, buffer: Samples, queue: seq<Samples>, heard: Samples,
                            overlap: Samples, k: nat, n: nat)
  {
    taken + buffer + Flatten(queue) == heard
    && |overlap| <= (if k > 0 then k else n)
    && |overlap| <= |taken|
    && overlap == taken[|taken| - |overlap|..]
  }

  /**
   * Taking the first `n` buffered samples as a chunk keeps the invariant, and
   * the old overlap followed by the chunk is the end of what was taken.
   */
  lemma ChunkAccounted(taken: Samples, buffer: Samples, queue: seq<Samples>, heard: Samples,
                       overlap: Samples, k: nat, n: nat)
    requires Accounted(taken, buffer, queue, heard, overlap, k, n) && |buffer| >= n
    ensures var chunk := buffer[..n];
      var taken2 := taken + chunk;
      chunk + buffer[n..] == buffer
      && Accounted(taken2, buffer[n..], queue, heard, OverlapAsWritten(chunk, k), k, n)
      && overlap + chunk == taken2[|taken2| - |overlap + chunk|..]
  {
    var chunk := buffer[..n];
    var taken2 := taken + chunk;
    assert chunk + buffer[n..] == buffer;
    assert taken2 + buffer[n..] + Flatten(queue) == heard by {
      assert taken + (chunk + buffer[n..]) == taken2 + buffer[n..];
    }
    assert taken2[|taken2| - |overlap + chunk|..] == taken[|taken| - |overlap|..] + chunk;
    var o := OverlapAsWritten(chunk, k);
    OverlapIsSuffix(chunk, k);
    assert taken2[|taken2| - |o|..] == chunk[|chunk| - |o|..];
  }

  // ---------------------------------------------------------------------------
  // Records handed to the output callback

  /** `{'type': 'clear', 'session_id': …, 'text': '', 'full_transcript': ''}` */
  function ClearRecord(session: Value): (r: Value)
    ensures Field(r, "session_id") == Some(session) && Field(r, "full_transcript") == Some(Str(""))
  {
    var ms := [Member("type", Str("clear")), Member("session_id", session),
               Member("text", Str("")), Member("full_transcript", Str(""))];
    GetAt(ms, 1);
    GetAt(ms, 3);
    Obj(ms)
  }

  /** The record of one transcribed text; `timestamp` is `datetime.now().isoformat()`. */
  function TranscriptionRecord(session: Value, text: string, full: string, timestamp: string): Value
  {
    Obj([Member("type", Str("transcription")), Member("session_id", session), Member("text", Str(text)),
         Member("full_transcript", Str(full)), Member("timestamp", Str(timestamp))])
  }

  /** What a reader of the record finds under each key. */
  lemma TranscriptionRecordFields(session: Value, text: string, full: string, timestamp: string)
    ensures var r := TranscriptionRecord(session, text, full, timestamp);
      Field(r, "type") == Some(Str("transcription")) && Field(r, "session_id") == Some(session)
      && Field(r, "text") == Some(Str(text)) && Field(r, "full_transcript") == Some(Str(full))
      && Field(r, "timestamp") == Some(Str(timestamp))
  {
    var ms := TranscriptionRecord(session, text, full, timestamp).members;
    RecordType(ms);
    RecordSession(ms);
    RecordText(ms);
    RecordFull(ms);
    GetAt(ms, 4);
  }

  lemma RecordType(ms: seq<Member>)
    requires |ms| == 5 && ms[0].key == "type" && ms[1].key == "session_id" && ms[2].key == "text"
    requires ms[3].key == "full_transcript" && ms[4].key == "timestamp"
    ensures Get(ms, "type") == Some(ms[0].val)
  {
    assert "type"[1] != "text"[1];
    GetAt(ms, 0);
  }

  lemma RecordSession(ms: seq<Member>)
    requires |ms| == 5 && ms[1].key == "session_id" && ms[2].key == "text"
    requires ms[3].key == "full_transcript" && ms[4].key == "timestamp"
    ensures Get(ms, "session_id") == Some(ms[1].val)
  {
    GetAt(ms, 1);
  }

  lemma RecordText(ms: seq<Member>)
    requires |ms| == 5 && ms[2].key == "text" && ms[3].key == "full_transcript" && ms[4].key == "timestamp"
    ensures Get(ms, "text") == Some(ms[2].val)
  {
    GetAt(ms, 2);
  }

  lemma RecordFull(ms: seq<Member>)
    requires |ms| == 5 && ms[3].key == "full_transcript" && ms[4].key == "timestamp"
    ensures Get(ms, "full_transcript") == Some(ms[3].val)
  {
    GetAt(ms, 3);
  }

  /** The text of a chunk before stripping: every segment's text followed by a space. */
  function ChunkText(segments: seq<string>): string
  {
    if segments == [] then "" else ChunkText(segments[..|segments| - 1]) + segments[|segments| - 1] + " "
  }

  predicate Blank(s: string)
  {
    forall i :: 0 <= i < |s| ==> IsPySpace(s[i])
  }

  /** A chunk's text strips to nothing exactly when every segment's text is whitespace only. */
  lemma {:induction false} ChunkTextBlank(segments: seq<string>)
    ensures PyStrip(ChunkText(segments)) == "" <==> forall j :: 0 <= j < |segments| ==> Blank(segments[j])
  {
    ChunkTextAllSpace(segments);
    TrimEmpty(ChunkText(segments), IsPySpace);
  }

  lemma {:induction false} ChunkTextAllSpace(segments: seq<string>)
    ensures Blank(ChunkText(segments)) <==> forall j :: 0 <= j < |segments| ==> Blank(segments[j])
  {
    if segments != [] {
      var n := |segments| - 1;
      var init := segments[..n];
      ChunkTextAllSpace(init);
      var head := ChunkText(init);
      var t := head + segments[n] + " ";
      assert Blank(t) <==> Blank(head) && Blank(segments[n]) by {
        if Blank(t) {
          forall i | 0 <= i < |head| ensures IsPySpace(head[i]) { assert t[i] == head[i]; }
          forall i | 0 <= i < |segments[n]| ensures IsPySpace(segments[n][i]) {
            assert t[|head| + i] == segments[n][i];
          }
        }
      }
      if forall j :: 0 <= j < |init| ==> Blank(init[j]) {
        if Blank(segments[n]) {
          forall j | 0 <= j < |segments| ensures Blank(segments[j]) {
            if j < n { assert segments[j] == init[j]; }
          }
        }
      }
      if forall j :: 0 <= j < |segments| ==> Blank(segments[j]) {
        assert Blank(segments[n]);
        forall j | 0 <= j < |init| ensures Blank(init[j]) { assert init[j] == segments[j]; }
      }
    }
  }

  /** `_handle_transcription` on the buffer: a blank text changes nothing, any other is appended with a space. */
  function AppendText(buffer: string, text: string): (r: string)
    ensures PyStrip(text) == "" ==> r == buffer
    ensures PyStrip(text) != "" ==> r == buffer + text + " " && |r| == |buffer| + |text| + 1
  {
    if PyStrip(text) == "" then buffer else buffer + text + " "
  }

  /** Texts handled one after another. */
  function AppendAll(buffer: string, texts: seq<string>): string
  {
    if texts == [] then buffer else AppendText(AppendAll(buffer, texts[..|texts| - 1]), texts[|texts| - 1])
  }

  /**
   * The transcript only grows: after any run of texts the old buffer is a
   * prefix of the new one, and it grows by exactly the non-blank texts, each
   * followed by one space.
   */
  lemma {:induction false} TranscriptGrows(buffer: string, texts: seq<string>)
    ensures buffer <= AppendAll(buffer, texts)
    ensures |AppendAll(buffer, texts)| == |buffer| + NonBlankLength(texts)
  {
    if texts != [] {
      TranscriptGrows(buffer, texts[..|texts| - 1]);
    }
  }

  /** The length the non-blank texts add, a space each. */
  function NonBlankLength(texts: seq<string>): nat
  {
    if texts == [] then 0
    else NonBlankLength(texts[..|texts| - 1])
         + (if PyStrip(texts[|texts| - 1]) == "" then 0 else |texts[|texts| - 1]| + 1)
  }

  // ---------------------------------------------------------------------------
  // The engine's state as a value, and what each session operation does to it

  /** The engine's fields; `currentSession` is `Null` for `None`. */
  datatype Engine = Engine(isRecording: bool, queue: seq<Samples>, audioBuffer: Samples, lastOverlap: Samples,
                           modelLoaded: bool, transcriptBuffer: string, currentSession: Value,
                           hasOutputCallback: bool)

  /** `stop_session`: recording, session and overlap cleared; the transcript and the queue stay. */
  function StopSpec(e: Engine): (r: Engine)
    ensures !r.isRecording && r.currentSession == Null && r.lastOverlap == []
    ensures r.transcriptBuffer == e.transcriptBuffer && r.queue == e.queue && r.audioBuffer == e.audioBuffer
    ensures r.modelLoaded == e.modelLoaded && r.hasOutputCallback == e.hasOutputCallback
  {
    e.(isRecording := false, currentSession := Null, lastOverlap := [])
  }

  /**
   * `start_session`: a running session is stopped first; then the session is
   * set, the transcript and the overlap emptied and recording begins. The new
   * processing loop starts with an empty buffer, but the queue is not emptied.
   */
  function StartSpec(e: Engine, sessionId: Value): (r: Engine)
    ensures r.isRecording && r.currentSession == sessionId
    ensures r.transcriptBuffer == "" && r.lastOverlap == [] && r.audioBuffer == []
    ensures r.queue == e.queue && r.modelLoaded == e.modelLoaded && r.hasOutputCallback == e.hasOutputCallback
  {
    var stopped := if e.isRecording then StopSpec(e) else e;
    stopped.(currentSession := sessionId, transcriptBuffer := "", lastOverlap := [], isRecording := true,
             audioBuffer := [])
  }

  /** `clear_transcript`: the new state and the record handed to the output callback. */
  function ClearSpec(e: Engine): (r: (Engine, Option<Value>))
    ensures r.0.transcriptBuffer == "" && r.0.lastOverlap == []
    ensures r.0.currentSession == e.currentSession && r.0.isRecording == e.isRecording
    ensures r.1.Some? <==> e.hasOutputCallback
    ensures r.1.Some? ==> Field(r.1.value, "full_transcript") == Some(Str(""))
                          && Field(r.1.value, "session_id") == Some(e.currentSession)
  {
    (e.(transcriptBuffer := "", lastOverlap := []),
     if e.hasOutputCallback then Some(ClearRecord(e.currentSession)) else None)
  }

  /**
   * `_handle_transcription`: the new state and the record handed to the
   * output callback. The record carries the text and the whole transcript,
   * stripped.
   */
  function HandleTranscriptionSpec(e: Engine, text: string, timestamp: string): (r: (Engine, Option<Value>))
    ensures r.0 == e.(transcriptBuffer := AppendText(e.transcriptBuffer, text))
    ensures r.1.Some? <==> PyStrip(text) != "" && e.hasOutputCallback
    ensures r.1.Some? ==> Field(r.1.value, "text") == Some(Str(text))
                          && Field(r.1.value, "full_transcript") == Some(Str(PyStrip(r.0.transcriptBuffer)))
  {
    var buffer := AppendText(e.transcriptBuffer, text);
    (e.(transcriptBuffer := buffer),
     if PyStrip(text) != "" && e.hasOutputCallback
     then TranscriptionRecordFields(e.currentSession, text, PyStrip(buffer), timestamp);
          Some(TranscriptionRecord(e.currentSession, text, PyStrip(buffer), timestamp))
     else None)
  }

  /** Stopping twice is stopping once; starting after a stop is starting. */
  lemma StopStartComposition(e: Engine, sessionId: Value)
    ensures StopSpec(StopSpec(e)) == StopSpec(e)
    ensures StartSpec(StopSpec(e), sessionId) == StartSpec(e, sessionId)
  {
  }

  /** A session started twice with the same id ends in the same state as one started once. */
  lemma StartIdempotent(e: Engine, sessionId: Value)
    ensures StartSpec(StartSpec(e, sessionId), sessionId) == StartSpec(e, sessionId)
  {
  }

  /** After a clear, the next transcribed text is the whole transcript. */
  lemma ClearThenTranscribe(e: Engine, text: string, timestamp: string)
    requires PyStrip(text) != ""
    ensures HandleTranscriptionSpec(ClearSpec(e).0, text, timestamp).0.transcriptBuffer == text + " "
  {
  }

  // ---------------------------------------------------------------------------
  // The engine

  class RealtimeTranscriber {
    const sampleRate: nat
    const chunkSamples: nat
    const overlapSamples: nat
    /** `chunk_duration` and `overlap_duration` as `json.dumps` writes them. */
    const chunkDuration: string
    const overlapDuration: string
    const device: string
    const computeType: string

    var isRecording: bool
    /** The blocks the recording callback has queued and the loop has not yet taken. */
    var queue: seq<Samples>
    /** The processing loop's `audio_buffer`. */
    var audioBuffer: Samples
    var lastOverlap: Samples
    var modelLoaded: bool
    var transcriptBuffer: string
    /** `None` is `Null`. */
    var currentSession: Value
    var hasOutputCallback: bool

    /** Every sample the current processing loop has to deal with: the queue it found and all audio queued since. */
    ghost var heard: Samples
    /** The samples the loop has cut into chunks, in order. */
    ghost var taken: Samples

    function Snapshot(): Engine
      reads this
    {
      Engine(isRecording, queue, audioBuffer, lastOverlap, modelLoaded, transcriptBuffer, currentSession,
             hasOutputCallback)
    }

    /**
     * No audio is lost or repeated: the chunks taken, then the buffer, then
     * the queue, are exactly the audio heard. The overlap is the audio right
     * before the buffer, at most `overlapSamples` long, or at most a whole
     * chunk when `overlapSamples` is 0 (see `OverlapAsWritten`).
     */
    ghost predicate Valid()
      reads this
    {
      Accounted(taken, audioBuffer, queue, heard, lastOverlap, overlapSamples, chunkSamples)
    }

    /** The model loads in the background: a new engine has no model yet. */
    constructor(sampleRate: nat, chunkSamples: nat, overlapSamples: nat, chunkDuration: string,
                overlapDuration: string, device: string, computeType: string)
      ensures Valid()
      ensures this.sampleRate == sampleRate && this.chunkSamples == chunkSamples
      ensures this.overlapSamples == overlapSamples && this.chunkDuration == chunkDuration
      ensures this.overlapDuration == overlapDuration && this.device == device && this.computeType == computeType
      ensures Snapshot() == Engine(false, [], [], [], false, "", Null, false)
    {
      this.sampleRate := sampleRate;
      this.chunkSamples := chunkSamples;
      this.overlapSamples := overlapSamples;
      this.chunkDuration := chunkDuration;
      this.overlapDuration := overlapDuration;
      this.device := device;
      this.computeType := computeType;
      isRecording := false;
      queue := [];
      audioBuffer := [];
      lastOverlap := [];
      modelLoaded := false;
      transcriptBuffer := "";
      currentSession := Null;
      hasOutputCallback := false;
      heard := [];
      taken := [];
    }

    /** The background load finished. */
    method ModelLoaded()
      modifies this
      requires Valid()
      ensures Valid() && Snapshot() == old(Snapshot()).(modelLoaded := true)
      ensures heard == old(heard) && taken == old(taken)
    {
      modelLoaded := true;
    }

    method SetOutputCallback()
      modifies this
      requires Valid()
      ensures Valid() && Snapshot() == old(Snapshot()).(hasOutputCallback := true)
      ensures heard == old(heard) && taken == old(taken)
    {
      hasOutputCallback := true;
    }

    /** `start_session`; the new processing loop has the old queue to work through. */
    method StartSession(sessionId: Value) returns (ok: bool)
      modifies this
      requires Valid()
      ensures Valid() && ok && Snapshot() == StartSpec(old(Snapshot()), sessionId)
      ensures heard == Flatten(queue) && taken == []
    {
      ghost var before := Snapshot();
      if isRecording {
        StopSession();
      }
      ghost var stopped := Snapshot();
      assert stopped == if before.isRecording then StopSpec(before) else before;
      currentSession := sessionId;
      transcriptBuffer := "";
      lastOverlap := [];
      isRecording := true;
      audioBuffer := [];
      heard := Flatten(queue);
      taken := [];
      ok := true;
      assert Snapshot() == stopped.(currentSession := sessionId, transcriptBuffer := "", lastOverlap := [],
                                    isRecording := true, audioBuffer := []);
      assert [] + [] + heard == heard;
    }

    method StopSession()
      modifies this
      requires Valid()
      ensures Valid() && Snapshot() == StopSpec(old(Snapshot()))
      ensures heard == old(heard) && taken == old(taken)
    {
      isRecording := false;
      currentSession := Null;
      lastOverlap := [];
    }

    method ClearTranscript() returns (record: Option<Value>)
      modifies this
      requires Valid()
      ensures Valid() && (Snapshot(), record) == ClearSpec(old(Snapshot()))
      ensures heard == old(heard) && taken == old(taken)
    {
      transcriptBuffer := "";
      lastOverlap := [];
      if hasOutputCallback {
        record := Some(ClearRecord(currentSession));
      } else {
        record := None;
      }
    }

    /** The recording callback: a block is queued only while recording. */
    method AudioBlock(block: Samples)
      modifies this
      requires Valid()
      ensures Valid()
      ensures Snapshot() == if old(isRecording) then old(Snapshot()).(queue := old(queue) + [block]) else old(Snapshot())
      ensures heard == if old(isRecording) then old(heard) + block else old(heard)
      ensures taken == old(taken)
    {
      if isRecording {
        FlattenSnoc(queue, block);
        queue := queue + [block];
        heard := heard + block;
      }
    }

    method HandleTranscription(text: string, timestamp: string) returns (record: Option<Value>)
      modifies this
      requires Valid()
      ensures Valid() && (Snapshot(), record) == HandleTranscriptionSpec(old(Snapshot()), text, timestamp)
      ensures heard == old(heard) && taken == old(taken)
    {
      record := None;
      if PyStrip(text) == "" {
        return;
      }
      transcriptBuffer := transcriptBuffer + text + " ";
      if hasOutputCallback {
        record := Some(TranscriptionRecord(currentSession, text, PyStrip(transcriptBuffer), timestamp));
      }
    }

    /** The inner loop: every queued block is moved, in order, to the end of the buffer. */
    method Drain()
      modifies this
      requires Valid()
      ensures Valid()
      ensures Snapshot() == if old(isRecording)
                            then old(Snapshot()).(audioBuffer := old(audioBuffer) + Flatten(old(queue)), queue := [])
                            else old(Snapshot())
      ensures heard == old(heard) && taken == old(taken)
    {
      var buffer := audioBuffer;
      var pending := queue;
      while pending != [] && isRecording
        invariant buffer + Flatten(pending) == audioBuffer + Flatten(queue)
        invariant !isRecording ==> buffer == audioBuffer && pending == queue
        decreases |pending|
      {
        assert Flatten(pending) == pending[0] + Flatten(pending[1..]);
        buffer := buffer + pending[0];
        pending := pending[1..];
      }
      assert taken + buffer + Flatten(pending) == taken + (buffer + Flatten(pending));
      assert taken + audioBuffer + Flatten(queue) == taken + (audioBuffer + Flatten(queue));
      audioBuffer := buffer;
      queue := pending;
    }

    /**
     * The chunk step: with at least `chunkSamples` samples buffered, the first
     * `chunkSamples` become the chunk and the rest stay; the chunk is sent
     * behind the previous overlap, and its tail becomes the next overlap.
     * What is sent is always a stretch of the session's audio ending with the
     * new chunk, with nothing skipped in between.
     */
    method TakeChunk() returns (process: Option<Samples>)
      modifies this
      requires Valid()
      ensures Valid()
      ensures |old(audioBuffer)| < chunkSamples ==>
        process == None && Snapshot() == old(Snapshot()) && taken == old(taken)
      ensures |old(audioBuffer)| >= chunkSamples ==>
        var chunk := old(audioBuffer)[..chunkSamples];
        chunk + audioBuffer == old(audioBuffer)
        && process == Some(old(lastOverlap) + chunk)
        && |process.value| == |old(lastOverlap)| + chunkSamples
        && Snapshot() == old(Snapshot()).(audioBuffer := audioBuffer, lastOverlap := OverlapAsWritten(chunk, overlapSamples))
        && taken == old(taken) + chunk
        && process.value == taken[|taken| - |process.value|..]
      ensures heard == old(heard)
    {
      process := None;
      if |audioBuffer| >= chunkSamples {
        ghost var snap := Snapshot();
        var chunk := audioBuffer[..chunkSamples];
        ChunkAccounted(taken, audioBuffer, queue, heard, lastOverlap, overlapSamples, chunkSamples);
        var toSend;
        if |lastOverlap| > 0 {
          toSend := lastOverlap + chunk;
        } else {
          assert lastOverlap + chunk == chunk;
          toSend := chunk;
        }
        process := Some(toSend);
        taken := taken + chunk;
        audioBuffer := audioBuffer[chunkSamples..];
        lastOverlap := OverlapAsWritten(chunk, overlapSamples);
        assert Snapshot() == snap.(audioBuffer := audioBuffer, lastOverlap := lastOverlap);
      }
    }

    /**
     * `_transcribe_chunk` once the model has answered: the segment texts are
     * joined, each followed by a space, stripped, and a non-blank result is
     * handled. Without a model nothing happens.
     */
    method TranscribeChunk(process: Samples, recognise: Samples -> seq<string>, timestamp: string)
      returns (record: Option<Value>)
      modifies this
      requires Valid()
      ensures Valid()
      ensures var text := PyStrip(ChunkText(recognise(process)));
        (Snapshot(), record) == if modelLoaded && text != "" then HandleTranscriptionSpec(old(Snapshot()), text, timestamp)
                                else (old(Snapshot()), None)
      ensures heard == old(heard) && taken == old(taken)
    {
      record := None;
      if !modelLoaded {
        return;
      }
      var segments := recognise(process);
      var chunkText := "";
      for i := 0 to |segments|
        invariant chunkText == ChunkText(segments[..i])
      {
        assert segments[..i + 1][..i] == segments[..i];
        chunkText := chunkText + segments[i] + " ";
      }
      assert segments[..|segments|] == segments;
      chunkText := PyStrip(chunkText);
      if chunkText != "" {
        record := HandleTranscription(chunkText, timestamp);
      }
    }

    /**
     * One pass of the processing loop while recording: drain the queue, take
     * at most one chunk, transcribe it. Every sample queued so far ends up
     * in a chunk or in the buffer, in order.
     */
    method ProcessIteration(recognise: Samples -> seq<string>, timestamp: string) returns (record: Option<Value>)
      modifies this
      requires Valid()
      ensures Valid()
      ensures !old(isRecording) ==> record == None && Snapshot() == old(Snapshot())
      ensures old(isRecording) ==>
        var buffered := old(audioBuffer) + Flatten(old(queue));
        queue == [] &&
        if |buffered| < chunkSamples then audioBuffer == buffered && taken == old(taken) && record == None
        else audioBuffer == buffered[chunkSamples..] && taken == old(taken) + buffered[..chunkSamples]
             && lastOverlap == OverlapAsWritten(buffered[..chunkSamples], overlapSamples)
      ensures old(isRecording) ==>
        var buffered := old(audioBuffer) + Flatten(old(queue));
        var drained := old(Snapshot()).(queue := [], audioBuffer := buffered);
        if |buffered| < chunkSamples then Snapshot() == drained
        else
          var chunk := buffered[..chunkSamples];
          var text := PyStrip(ChunkText(recognise(old(lastOverlap) + chunk)));
          var cut := drained.(audioBuffer := buffered[chunkSamples..], lastOverlap := OverlapAsWritten(chunk, overlapSamples));
          (Snapshot(), record) == if old(modelLoaded) && text != "" then HandleTranscriptionSpec(cut, text, timestamp)
                                  else (cut, None)
      ensures isRecording == old(isRecording) && currentSession == old(currentSession)
      ensures modelLoaded == old(modelLoaded) && hasOutputCallback == old(hasOutputCallback)
      ensures heard == old(heard)
    {
      record := None;
      if isRecording {
        Drain();
        ghost var drained := Snapshot();
        var process := TakeChunk();
        if process.Some? {
          ghost var cut := Snapshot();
          assert cut == drained.(audioBuffer := audioBuffer, lastOverlap := lastOverlap);
          record := TranscribeChunk(process.value, recognise, timestamp);
        }
      }
    }

    /** `get_status`. */
    function Status(): (r: Value)
      reads this
      ensures IsNumberLexeme(chunkDuration) && IsNumberLexeme(overlapDuration) && WellFormed(currentSession)
              ==> WellFormed(r)
    {
      if IsNumberLexeme(chunkDuration) && IsNumberLexeme(overlapDuration) && WellFormed(currentSession) then
        StatusWellFormed(isRecording, currentSession, modelLoaded, device, computeType, sampleRate,
                         chunkDuration, overlapDuration, overlapSamples);
        StatusRecord(isRecording, currentSession, modelLoaded, device, computeType, sampleRate,
                     chunkDuration, overlapDuration, overlapSamples)
      else
        StatusRecord(isRecording, currentSession, modelLoaded, device, computeType, sampleRate,
                     chunkDuration, overlapDuration, overlapSamples)
    }
  }

  /** The `get_status` dictionary, in its key order. */
  function StatusRecord(isRecording: bool, session: Value, modelLoaded: bool, device: string, computeType: string,
                        sampleRate: nat, chunkDuration: string, overlapDuration: string, overlapSamples: nat): Value
  {
    Obj(StateMembers(isRecording, session, modelLoaded, device, computeType)
        + RateMembers(sampleRate, chunkDuration) + OverlapMembers(overlapDuration, overlapSamples))
  }

  function StateMembers(isRecording: bool, session: Value, modelLoaded: bool, device: string, computeType: string)
    : seq<Member>
  {
    [Member("is_recording", Bool(isRecording)), Member("session_id", session),
     Member("model_loaded", Bool(modelLoaded)), Member("device", Str(device)), Member("compute_type", Str(computeType))]
  }

  function RateMembers(sampleRate: nat, chunkDuration: string): seq<Member>
  {
    [Member("sample_rate", Num(NatToString(sampleRate))), Member("chunk_duration", Num(chunkDuration))]
  }

  function OverlapMembers(overlapDuration: string, overlapSamples: nat): seq<Member>
  {
    [Member("overlap_duration", Num(overlapDuration)), Member("overlap_samples", Num(NatToString(overlapSamples)))]
  }

  /** The status can be written and read back: every number in it is a valid lexeme. */
  lemma StatusWellFormed(isRecording: bool, session: Value, modelLoaded: bool, device: string, computeType: string,
                         sampleRate: nat, chunkDuration: string, overlapDuration: string, overlapSamples: nat)
    requires IsNumberLexeme(chunkDuration) && IsNumberLexeme(overlapDuration) && WellFormed(session)
    ensures WellFormed(StatusRecord(isRecording, session, modelLoaded, device, computeType, sampleRate,
                                    chunkDuration, overlapDuration, overlapSamples))
  {
    var a := StateMembers(isRecording, session, modelLoaded, device, computeType);
    var b := RateMembers(sampleRate, chunkDuration);
    var c := OverlapMembers(overlapDuration, overlapSamples);
    StateMembersWellFormed(isRecording, session, modelLoaded, device, computeType);
    RateMembersWellFormed(sampleRate, chunkDuration);
    OverlapMembersWellFormed(overlapDuration, overlapSamples);
    WellFormedObjAppend(a, b);
    WellFormedObjAppend(a + b, c);
  }

  lemma ClearRecordWellFormed(session: Value)
    requires WellFormed(session)
    ensures WellFormed(ClearRecord(session))
  {
    var ms := ClearRecord(session).members;
    assert |ms| == 4 && ms[1].val == session;
    assert forall i :: 0 <= i < 4 && i != 1 ==> ms[i].val.Str?;
  }

  lemma StateMembersWellFormed(isRecording: bool, session: Value, modelLoaded: bool, device: string,
                               computeType: string)
    requires WellFormed(session)
    ensures WellFormed(Obj(StateMembers(isRecording, session, modelLoaded, device, computeType)))
  {
  }

  lemma RateMembersWellFormed(sampleRate: nat, chunkDuration: string)
    requires IsNumberLexeme(chunkDuration)
    ensures WellFormed(Obj(RateMembers(sampleRate, chunkDuration)))
  {
    NatLexeme(sampleRate);
  }

  lemma OverlapMembersWellFormed(overlapDuration: string, overlapSamples: nat)
    requires IsNumberLexeme(overlapDuration)
    ensures WellFormed(Obj(OverlapMembers(overlapDuration, overlapSamples)))
  {
    NatLexeme(overlapSamples);
  }
}
