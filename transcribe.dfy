/**
 * The standalone microphone transcriber (python/transcribe.py): the
 * recording state machine over `is_recording` and `is_paused`, the audio
 * callback's gate, the zero padding applied before a block is transcribed,
 * the input-device filter, and the module-wide instance.
 *
 * PyAudio is reached only through its results: whether opening the stream
 * succeeded, and whether starting the threads afterwards did, are
 * parameters of `StartRecording`, the device table is the
 * sequence of device records PyAudio reports, and the stream is its
 * open/started flags. The recording and transcription threads are not part
 * of this model; their per-block decisions are (`Pad`, `Report`).
 */
module Transcribe {
  import opened Wrappers
  import opened Text

  /** One block of raw audio as the stream delivers it. */
  type Bytes = seq<bv8>

  const SampleRate := 16000
  /** `int(sample_rate * 0.5)`: half a second of samples. */
  const MinLength := 8000

  // ---------------------------------------------------------------------------
  // The recording state machine

  /** `self.stream`: none, or an open stream that is started or stopped. */
  datatype Stream = NoStream | Open(started: bool)

  datatype Recorder = Recorder(
    isRecording: bool,
    isPaused: bool,
    stream: Stream,
    /** `stop_event` is set. */
    stopSignalled: bool,
    audioBuffer: seq<Bytes>,
    /** `audio_queue`: the blocks the callback has queued. */
    audioQueue: seq<Bytes>,
    hasCallback: bool)

  /** A new transcriber: nothing recording, no stream, empty queues. */
  function Initial(): Recorder
  {
    Recorder(false, false, NoStream, false, [], [], false)
  }

  /**
   * The flags and the stream agree: pausing needs a recording, a stream is
   * open exactly while recording, and it is started exactly while recording
   * and not paused.
   */
  predicate Consistent(r: Recorder)
  {
    (r.isPaused ==> r.isRecording)
    && (r.isRecording <==> r.stream.Open?)
    && (r.stream.Open? ==> (r.stream.started <==> !r.isPaused))
  }

  /**
   * `start_recording`: refused while recording; otherwise, when the stream
   * opens (PyAudio's `open` starts it at once), recording starts unpaused
   * with a running stream, a cleared stop signal and an empty buffer. The
   * answer is `starts`, whether the threads and `start_stream()` then ran
   * without raising; when one raised, the answer is false but the recorder
   * stays recording with its stream running. A stream that fails to open
   * changes nothing.
   */
  function StartSpec(r: Recorder, opens: bool, starts: bool): (Recorder, bool)
  {
    if r.isRecording || !opens then (r, false)
    else (r.(isRecording := true, isPaused := false, stream := Open(true), stopSignalled := false, audioBuffer := []),
          starts)
  }

  /** `pause_recording`: only while recording; the stream, if any, is stopped. */
  function PauseSpec(r: Recorder): Recorder
  {
    if !r.isRecording then r
    else r.(isPaused := true, stream := if r.stream.Open? then Open(false) else NoStream)
  }

  /** `resume_recording`: only while recording and paused; the stream, if any, is started. */
  function ResumeSpec(r: Recorder): Recorder
  {
    if !r.isRecording || !r.isPaused then r
    else r.(isPaused := false, stream := if r.stream.Open? then Open(true) else NoStream)
  }

  /** `stop_recording`: only while recording; the stop signal is set, both flags cleared and the stream closed. */
  function StopSpec(r: Recorder): Recorder
  {
    if !r.isRecording then r
    else r.(stopSignalled := true, isRecording := false, isPaused := false, stream := NoStream)
  }

  /** `_audio_callback`: the block is queued unless recording is paused. */
  function CallbackSpec(r: Recorder, block: Bytes): Recorder
  {
    if r.isPaused then r else r.(audioQueue := r.audioQueue + [block])
  }

  /** The callback called once per block, in order. */
  function FeedSpec(r: Recorder, blocks: seq<Bytes>): Recorder
    decreases |blocks|
  {
    if blocks == [] then r else FeedSpec(CallbackSpec(r, blocks[0]), blocks[1..])
  }

  lemma InitialConsistent()
    ensures Consistent(Initial()) && !Initial().isRecording && !Initial().isPaused
  {
  }

  /** Every operation keeps the flags and the stream in agreement. */
  lemma OperationsKeepConsistent(r: Recorder, opens: bool, starts: bool, block: Bytes)
    requires Consistent(r)
    ensures Consistent(StartSpec(r, opens, starts).0) && Consistent(PauseSpec(r)) && Consistent(ResumeSpec(r))
    ensures Consistent(StopSpec(r)) && Consistent(CallbackSpec(r, block))
  {
  }

  /**
   * A start succeeds exactly when nothing is recording, the stream opens and
   * the threads and the stream start; then the recorder is recording,
   * unpaused, with a started stream and an empty buffer. A refused start, or
   * one whose stream does not open, changes nothing. Once the stream opened,
   * the recorder is recording whatever the answer, so a second start right
   * after is refused and changes nothing.
   */
  lemma StartOnce(r: Recorder, opens: bool, starts: bool, again: bool, startsAgain: bool)
    ensures var (r2, ok) := StartSpec(r, opens, starts);
      (ok <==> !r.isRecording && opens && starts)
      && (ok ==> r2.isRecording && !r2.isPaused && r2.stream == Open(true) && r2.audioBuffer == []
                 && r2.audioQueue == r.audioQueue)
      && (r.isRecording || !opens ==> r2 == r && !ok)
      && (!r.isRecording && opens ==> StartSpec(r2, again, startsAgain) == (r2, false))
  {
  }

  /**
   * A start whose stream opened but whose threads or `start_stream()`
   * raised answers false yet leaves the recorder recording with its stream
   * running, and every later start is refused until a stop, after which a
   * start can succeed again.
   */
  lemma FailedStartKeepsRecording(r: Recorder, again: bool, startsAgain: bool)
    requires !r.isRecording
    ensures var (r2, ok) := StartSpec(r, true, false);
      !ok && r2.isRecording && !r2.isPaused && r2.stream == Open(true)
      && StartSpec(r2, again, startsAgain) == (r2, false)
      && StartSpec(StopSpec(r2), true, true).1
  {
  }

  /** Pausing and then resuming a running recording returns it to where it was. */
  lemma PauseResume(r: Recorder)
    requires Consistent(r) && r.isRecording && !r.isPaused
    ensures PauseSpec(r).isPaused && ResumeSpec(PauseSpec(r)) == r
  {
  }

  /** Pause, resume and stop do nothing unless recording; resume also needs a pause. */
  lemma IdleOperationsNoOp(r: Recorder)
    ensures !r.isRecording ==> PauseSpec(r) == r && ResumeSpec(r) == r && StopSpec(r) == r
    ensures !r.isPaused ==> ResumeSpec(r) == r
  {
  }

  /** After a stop nothing is recording, paused or open, and a second stop changes nothing. */
  lemma StopIdempotent(r: Recorder)
    requires Consistent(r)
    ensures var s := StopSpec(r);
      !s.isRecording && !s.isPaused && s.stream == NoStream && StopSpec(s) == s
      && s.audioQueue == r.audioQueue && (r.isRecording ==> s.stopSignalled)
  {
  }

  /** The callback queues every block when not paused and none while paused. */
  lemma {:induction false} FeedQueue(r: Recorder, blocks: seq<Bytes>)
    ensures FeedSpec(r, blocks).audioQueue == r.audioQueue + (if r.isPaused then [] else blocks)
    ensures FeedSpec(r, blocks) == r.(audioQueue := FeedSpec(r, blocks).audioQueue)
    decreases |blocks|
  {
    if blocks != [] {
      FeedQueue(CallbackSpec(r, blocks[0]), blocks[1..]);
      if !r.isPaused {
        assert r.audioQueue + [blocks[0]] + blocks[1..] == r.audioQueue + blocks;
      }
    }
  }

  class RealTimeWhisperTranscriber {
    /** The Whisper model size and the language code the model is asked for. */
    const modelSize: string
    const language: string
    var isRecording: bool
    var isPaused: bool
    var stream: Stream
    var stopSignalled: bool
    var audioBuffer: seq<Bytes>
    var audioQueue: seq<Bytes>
    var hasCallback: bool

    function State(): Recorder
      reads this
    {
      Recorder(isRecording, isPaused, stream, stopSignalled, audioBuffer, audioQueue, hasCallback)
    }

    ghost predicate Valid()
      reads this
    {
      Consistent(State())
    }

    /** Loading the speech model is not part of this model. */
    constructor(modelSize: string, language: string)
      ensures Valid() && State() == Initial()
      ensures this.modelSize == modelSize && this.language == language
    {
      this.modelSize := modelSize;
      this.language := language;
      isRecording := false;
      isPaused := false;
      stream := NoStream;
      stopSignalled := false;
      audioBuffer := [];
      audioQueue := [];
      hasCallback := false;
    }

    method SetTranscriptCallback()
      modifies this
      requires Valid()
      ensures Valid() && State() == old(State()).(hasCallback := true)
    {
      hasCallback := true;
    }

    /**
     * `start_recording`; `opens` is whether PyAudio opened the input stream,
     * which also starts it, and `starts` whether the two threads and
     * `start_stream()` then ran without raising.
     */
    method StartRecording(opens: bool, starts: bool) returns (ok: bool)
      modifies this
      requires Valid()
      ensures Valid() && (State(), ok) == StartSpec(old(State()), opens, starts)
    {
      if isRecording {
        return false;
      }
      if !opens {
        return false;
      }
      stream := Open(true);
      isRecording := true;
      isPaused := false;
      stopSignalled := false;
      audioBuffer := [];
      ok := starts;
    }

    method PauseRecording()
      modifies this
      requires Valid()
      ensures Valid() && State() == PauseSpec(old(State()))
    {
      if !isRecording {
        return;
      }
      isPaused := true;
      if stream.Open? {
        stream := Open(false);
      }
    }

    method ResumeRecording()
      modifies this
      requires Valid()
      ensures Valid() && State() == ResumeSpec(old(State()))
    {
      if !isRecording || !isPaused {
        return;
      }
      isPaused := false;
      if stream.Open? {
        stream := Open(true);
      }
    }

    method StopRecording()
      modifies this
      requires Valid()
      ensures Valid() && State() == StopSpec(old(State()))
    {
      if !isRecording {
        return;
      }
      stopSignalled := true;
      isRecording := false;
      isPaused := false;
      if stream.Open? {
        stream := NoStream;
      }
    }

    /** `_audio_callback`: the block is passed back to the stream either way. */
    method AudioCallback(block: Bytes) returns (passed: Bytes)
      modifies this
      requires Valid()
      ensures Valid() && State() == CallbackSpec(old(State()), block) && passed == block
    {
      if !isPaused {
        audioQueue := audioQueue + [block];
      }
      passed := block;
    }

    /**
     * `get_available_input_devices`: PyAudio's device records are `infos`,
     * queried by index in order.
     */
    method AvailableInputDevices(infos: seq<DeviceInfo>) returns (devices: seq<Device>)
      ensures devices == InputDevices(infos)
    {
      devices := [];
      for i := 0 to |infos|
        invariant devices == InputDevices(infos[..i])
      {
        assert infos[..i + 1][..i] == infos[..i];
        if infos[i].maxInputChannels > 0 {
          devices := devices + [Describe(i, infos[i])];
        }
      }
      assert infos[..|infos|] == infos;
    }
  }

  // ---------------------------------------------------------------------------
  // Transcribing one block

  /** `n` zero samples. */
  function Zeros(n: nat): (z: seq<real>)
    ensures |z| == n && forall i :: 0 <= i < n ==> z[i] == 0.0
  {
    if n == 0 then [] else Zeros(n - 1) + [0.0]
  }

  /** The padding in `_transcribe_audio`: a block shorter than `minLength` gets trailing zeros. */
  function Pad(audio: seq<real>, minLength: nat): seq<real>
  {
    if |audio| < minLength then audio + Zeros(minLength - |audio|) else audio
  }

  /**
   * A padded block is exactly `minLength` long when the block was shorter
   * and is the block itself otherwise; the block is always its prefix and
   * every added sample is zero.
   */
  lemma PadShape(audio: seq<real>, minLength: nat)
    ensures var p := Pad(audio, minLength);
      |p| == (if |audio| < minLength then minLength else |audio|)
      && p[..|audio|] == audio
      && (forall i :: |audio| <= i < |p| ==> p[i] == 0.0)
      && (|audio| >= minLength ==> p == audio)
  {
  }

  lemma PadIdempotent(audio: seq<real>, minLength: nat)
    ensures Pad(Pad(audio, minLength), minLength) == Pad(audio, minLength)
  {
    PadShape(audio, minLength);
  }

  /**
   * The transcription loop's decision for one block taken from the queue:
   * a block taken while paused is dropped; otherwise a text that is not
   * blank is handed to the callback stripped, and nothing happens otherwise.
   */
  function Report(isPaused: bool, hasCallback: bool, text: string): Option<string>
  {
    if !isPaused && hasCallback && PyStrip(text) != "" then Some(PyStrip(text)) else None
  }

  /**
   * What the callback receives is never blank and has no surrounding
   * whitespace, and it is sent whenever the loop is not paused, a callback
   * is set and the text holds a non-space.
   */
  lemma ReportShape(isPaused: bool, hasCallback: bool, text: string)
    ensures var r := Report(isPaused, hasCallback, text);
      (r.Some? <==> !isPaused && hasCallback && PyStrip(text) != "")
      && (r.Some? ==> r.value != "" && PyStrip(r.value) == r.value)
  {
    if !isPaused && hasCallback && PyStrip(text) != "" {
      PyStripIdempotent(text);
    }
  }

  // ---------------------------------------------------------------------------
  // Input devices

  /** What PyAudio reports about one device. */
  datatype DeviceInfo = DeviceInfo(maxInputChannels: int, name: string, defaultSampleRate: real)

  /** One entry of the list `get_available_input_devices` returns. */
  datatype Device = Device(index: nat, name: string, sampleRate: int)

  /** Python's `int(x)` on a float: truncation toward zero. */
  function Truncate(x: real): (n: int)
    ensures x >= 0.0 ==> n as real <= x < n as real + 1.0
    ensures x < 0.0 ==> n as real - 1.0 < x <= n as real
  {
    if x >= 0.0 then x.Floor else -((-x).Floor)
  }

  function Describe(index: nat, info: DeviceInfo): Device
  {
    Device(index, info.name, Truncate(info.defaultSampleRate))
  }

  /** The devices with at least one input channel, in index order. */
  function InputDevices(infos: seq<DeviceInfo>): seq<Device>
  {
    if infos == [] then []
    else
      var n := |infos| - 1;
      InputDevices(infos[..n]) + if infos[n].maxInputChannels > 0 then [Describe(n, infos[n])] else []
  }

  /** `d` is the entry for the device at its index, which has an input channel. */
  predicate Lists(infos: seq<DeviceInfo>, d: Device)
  {
    d.index < |infos| && infos[d.index].maxInputChannels > 0 && d == Describe(d.index, infos[d.index])
  }

  /** Each listed entry describes, under its own index, a device with an input channel. */
  lemma {:induction false} InputDevicesSound(infos: seq<DeviceInfo>)
    ensures forall j :: 0 <= j < |InputDevices(infos)| ==> Lists(infos, InputDevices(infos)[j])
  {
    if infos != [] {
      var n := |infos| - 1;
      var init := infos[..n];
      InputDevicesSound(init);
      var ds0, ds := InputDevices(init), InputDevices(infos);
      forall j | 0 <= j < |ds| ensures Lists(infos, ds[j]) {
        if j < |ds0| {
          assert ds[j] == ds0[j] && Lists(init, ds0[j]);
          assert init[ds0[j].index] == infos[ds0[j].index];
        }
      }
    }
  }

  /** The entries are in strictly increasing index order. */
  lemma {:induction false} InputDevicesOrdered(infos: seq<DeviceInfo>)
    ensures forall j, k :: 0 <= j < k < |InputDevices(infos)| ==> InputDevices(infos)[j].index < InputDevices(infos)[k].index
  {
    if infos != [] {
      var n := |infos| - 1;
      var init := infos[..n];
      InputDevicesOrdered(init);
      InputDevicesSound(init);
      var ds0, ds := InputDevices(init), InputDevices(infos);
      forall j, k | 0 <= j < k < |ds| ensures ds[j].index < ds[k].index {
        assert ds[j] == ds0[j] && Lists(init, ds0[j]);
        if k < |ds0| {
          assert ds[k] == ds0[k];
        } else {
          assert ds[k].index == n;
        }
      }
    }
  }

  /** Every device with an input channel is listed. */
  lemma {:induction false} InputDevicesComplete(infos: seq<DeviceInfo>, i: nat)
    requires i < |infos| && infos[i].maxInputChannels > 0
    ensures exists j :: 0 <= j < |InputDevices(infos)| && InputDevices(infos)[j] == Describe(i, infos[i])
  {
    var n := |infos| - 1;
    var ds0 := InputDevices(infos[..n]);
    var ds := InputDevices(infos);
    if i < n {
      InputDevicesComplete(infos[..n], i);
      var j :| 0 <= j < |ds0| && ds0[j] == Describe(i, infos[..n][i]);
      assert ds[j] == ds0[j];
    } else {
      assert ds[|ds0|] == Describe(i, infos[i]);
    }
  }

  // ---------------------------------------------------------------------------
  // The module-wide instance

  /** `transcriber_instance` and the two functions that manage it. */
  class Registry {
    var instance: Option<RealTimeWhisperTranscriber>

    constructor()
      ensures instance == None
    {
      instance := None;
    }

    /**
     * `get_transcriber`: the existing instance, whatever model size and
     * language it was made with, or a new one for `modelSize` and `language`
     * that is kept. The defaults `"base"` and `"en"` are the caller's.
     */
    method GetTranscriber(modelSize: string, language: string) returns (t: RealTimeWhisperTranscriber)
      modifies this
      ensures old(instance).Some? ==> t == old(instance).value && instance == old(instance)
      ensures old(instance).None? ==>
                fresh(t) && instance == Some(t) && t.State() == Initial()
                && t.modelSize == modelSize && t.language == language
    {
      if instance.None? {
        var created := new RealTimeWhisperTranscriber(modelSize, language);
        instance := Some(created);
      }
      t := instance.value;
    }

    /** `cleanup_transcriber`: the instance is stopped and forgotten. */
    method CleanupTranscriber()
      modifies this, if instance.Some? then {instance.value} else {}
      requires instance.Some? ==> instance.value.Valid()
      ensures instance == None
      ensures old(instance).Some? ==>
                old(instance).value.Valid() && old(instance).value.State() == StopSpec(old(instance.value.State()))
    {
      if instance.Some? {
        instance.value.StopRecording();
        instance := None;
      }
    }
  }
}
