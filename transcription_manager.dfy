/**
 * The Electron side of the transcription line protocol (`TranscriptionManager`
 * in backend/transcriptionManager.js).
 *
 * The manager owns the worker process, writes one JSON command per line to
 * its stdin, and reads its stdout in chunks, dispatching every non-blank line
 * by its `type` tag. The process is a present/absent flag; its stdout chunks,
 * its exit and its spawn error are method calls. The four callbacks are
 * single slots holding a callback identity; a call of a callback is recorded
 * in the `delivered` log.
 *
 * Every operation has a specification function on `ManagerState` (the `...Spec`
 * functions below); the class methods update the fields in place and promise
 * the new state is the function of the old one. The lemmas at the end state
 * what the specification guarantees.
 */
module Manager {
  import opened Wrappers
  import opened Text
  import opened Json
  import JsonParse
  import LineProtocol

  /** A JavaScript value as the manager meets one: `undefined`, or a value JSON can carry. */
  datatype JsValue = Undefined | Val(v: Value)

  /** `x.key` in JavaScript: `None` stands for the TypeError that reading a property of `null` or `undefined` throws. */
  function Prop(x: JsValue, key: string): (r: Option<JsValue>)
    ensures r.None? <==> x == Undefined || x == Val(Null)
    ensures r.Some? && r.value != Undefined ==> x.v.Obj? && Get(x.v.members, key) == Some(r.value.v)
  {
    match x
    case Undefined => None
    case Val(Null) => None
    case Val(Obj(ms)) => Some(if Get(ms, key).Some? then Val(Get(ms, key).value) else Undefined)
    case Val(_) => Some(Undefined)
  }

  /** `x.key` where `x` is known not to be `null` or `undefined`. */
  function PropOf(x: JsValue, key: string): JsValue
  {
    Prop(x, key).GetOr(Undefined)
  }

  /** The four callback slots; `None` is a slot holding no (or a falsy) callback. */
  datatype Callbacks = Callbacks(onTranscription: Option<nat>, onError: Option<nat>,
                                 onStatus: Option<nat>, onReady: Option<nat>)

  /** What a callback is called with. */
  datatype Event =
    | Ready(data: JsValue)
    | Transcript(text: JsValue, fullTranscript: JsValue, sessionId: JsValue, timestamp: JsValue)
    | ErrorText(message: JsValue)
    | Status(data: JsValue)

  /** One call of the callback `callback`. */
  datatype Delivery = Delivery(callback: nat, event: Event)

  /** The manager's fields; `stdin` is everything written to the worker so far. */
  datatype ManagerState = ManagerState(isRunning: bool, hasProcess: bool, session: JsValue, buffer: JsValue,
                         callbacks: Callbacks, stdin: string, delivered: seq<Delivery>)

  /** A new manager: no process, not running, no session, an empty buffer and no callbacks. */
  const Initial := ManagerState(false, false, Val(Null), Val(Str("")), Callbacks(None, None, None, None), "", [])

  const FailedToStart := "Failed to start transcription server: "

  /** Calls the callback in `slot`, if there is one. */
  function Notify(st: ManagerState, slot: Option<nat>, e: Event): ManagerState
  {
    if slot.Some? then st.(delivered := st.delivered + [Delivery(slot.value, e)]) else st
  }

  // ---------------------------------------------------------------------------
  // Specification of each operation

  /** `startServer`: the new state and the result; `spawnError` is the message of an exception thrown by `spawn` itself. */
  function StartServerSpec(st: ManagerState, spawnError: Option<string>): (ManagerState, bool)
  {
    if st.isRunning then (st, true)
    else if spawnError.Some? then
      (Notify(st, st.callbacks.onError, ErrorText(Val(Str(FailedToStart + spawnError.value)))), false)
    else (st.(hasProcess := true), true)
  }

  /** `stopServer`: kills and drops a present process. */
  function StopServerSpec(st: ManagerState): ManagerState
  {
    if st.hasProcess then st.(hasProcess := false, isRunning := false) else st
  }

  /** The process `close` handler. */
  function ExitSpec(st: ManagerState): ManagerState
  {
    st.(isRunning := false, hasProcess := false)
  }

  /** The process `error` handler. */
  function ProcessErrorSpec(st: ManagerState, message: string): ManagerState
  {
    Notify(st.(isRunning := false, hasProcess := false), st.callbacks.onError,
           ErrorText(Val(Str(FailedToStart + message))))
  }

  /** `_sendCommand`: `JSON.stringify(command)` and a line break, when a process is present and ready. */
  function SendSpec(st: ManagerState, command: Value): (ManagerState, bool)
  {
    if !st.hasProcess || !st.isRunning then (st, false)
    else (st.(stdin := st.stdin + Encode(JavaScript, command) + "\n"), true)
  }

  /** `{type: t}`. */
  function Command(t: string): Value
  {
    Obj([Member("type", Str(t))])
  }

  /** `{type: 'start', session_id: sessionId}`; `JSON.stringify` leaves out a key whose value is `undefined`. */
  function StartCommand(sessionId: JsValue): Value
  {
    Obj([Member("type", Str("start"))] + if sessionId.Val? then [Member("session_id", sessionId.v)] else [])
  }

  function StartTranscriptionSpec(st: ManagerState, sessionId: JsValue): (ManagerState, bool)
  {
    if !st.isRunning then (st, false)
    else SendSpec(st.(session := sessionId), StartCommand(sessionId))
  }

  function StopTranscriptionSpec(st: ManagerState): (ManagerState, bool)
  {
    if !st.isRunning then (st, false)
    else SendSpec(st.(session := Val(Null)), Command("stop"))
  }

  /** `clearTranscript` and `getStatus`: a bare command, gated on `isRunning`. */
  function GatedCommandSpec(st: ManagerState, t: string): (ManagerState, bool)
  {
    if !st.isRunning then (st, false) else SendSpec(st, Command(t))
  }

  /** `_handleTranscription(data)`; a `data` of `null` or `undefined` throws, which the caller catches. */
  function HandleTranscriptionSpec(st: ManagerState, data: JsValue): ManagerState
  {
    match Prop(data, "type")
    case None => st
    case Some(kind) =>
      if kind == Val(Str("transcription")) then
        var full := PropOf(data, "full_transcript");
        Notify(st.(buffer := full), st.callbacks.onTranscription,
               Transcript(PropOf(data, "text"), full, PropOf(data, "session_id"), PropOf(data, "timestamp")))
      else if kind == Val(Str("clear")) then
        Notify(st.(buffer := Val(Str(""))), st.callbacks.onTranscription,
               Transcript(Val(Str("")), Val(Str("")), PropOf(data, "session_id"), PropOf(data, "timestamp")))
      else st
  }

  /** The `switch` of `_handlePythonOutput` on one parsed message; destructuring `null` throws, which is caught. */
  function DispatchSpec(st: ManagerState, message: Value): ManagerState
  {
    if message == Null then st
    else
      var kind := PropOf(Val(message), "type");
      var data := PropOf(Val(message), "data");
      if kind == Val(Str("ready")) then
        Notify(st.(isRunning := true), st.callbacks.onReady, Ready(data))
      else if kind == Val(Str("transcription")) then
        HandleTranscriptionSpec(st, data)
      else if kind == Val(Str("error")) then
        if st.callbacks.onError.None? then st
        else match Prop(data, "message")
          case None => st
          case Some(m) => Notify(st, st.callbacks.onError, ErrorText(m))
      else if kind == Val(Str("status_response")) then
        Notify(st, st.callbacks.onStatus, Status(data))
      else st
  }

  /** `_handlePythonOutput(line)`: a line `JSON.parse` refuses changes nothing. */
  function HandleLineSpec(st: ManagerState, line: string): ManagerState
  {
    match JsonParse.Parse(line)
    case None => st
    case Some(message) => DispatchSpec(st, message)
  }

  /** One piece of a chunk: handled when it is not blank. */
  function PieceSpec(st: ManagerState, piece: string): ManagerState
  {
    if JsTrim(piece) != "" then HandleLineSpec(st, piece) else st
  }

  /** The pieces handled in order. */
  function PiecesSpec(st: ManagerState, pieces: seq<string>): ManagerState
  {
    if pieces == [] then st
    else PieceSpec(PiecesSpec(st, pieces[..|pieces| - 1]), pieces[|pieces| - 1])
  }

  /** The stdout `data` handler: the chunk split at every line break, on its own. */
  function ChunkSpec(st: ManagerState, chunk: string): ManagerState
  {
    PiecesSpec(st, Split(chunk, '\n'))
  }

  /** `isTranscriptionRunning()`; only `null` counts as no session (`undefined !== null`). */
  function IsTranscriptionRunningSpec(st: ManagerState): bool
  {
    st.isRunning && st.session != Val(Null)
  }

  // ---------------------------------------------------------------------------
  // The class

  class TranscriptionManager {
    var isRunning: bool
    var hasProcess: bool
    var currentSession: JsValue
    var transcriptBuffer: JsValue
    var callbacks: Callbacks
    var stdin: string
    var delivered: seq<Delivery>

    function State(): ManagerState
      reads this
    {
      ManagerState(isRunning, hasProcess, currentSession, transcriptBuffer, callbacks, stdin, delivered)
    }

    constructor()
      ensures State() == Initial
    {
      isRunning := false;
      hasProcess := false;
      currentSession := Val(Null);
      transcriptBuffer := Val(Str(""));
      callbacks := Callbacks(None, None, None, None);
      stdin := "";
      delivered := [];
    }

    method NotifyError(message: JsValue)
      modifies this
      ensures State() == Notify(old(State()), old(callbacks.onError), ErrorText(message))
    {
      if callbacks.onError.Some? {
        delivered := delivered + [Delivery(callbacks.onError.value, ErrorText(message))];
      }
    }

    method StartServer(spawnError: Option<string>) returns (ok: bool)
      modifies this
      ensures (State(), ok) == StartServerSpec(old(State()), spawnError)
    {
      if isRunning {
        return true;
      }
      if spawnError.Some? {
        NotifyError(Val(Str(FailedToStart + spawnError.value)));
        return false;
      }
      hasProcess := true;
      ok := true;
    }

    method StopServer()
      modifies this
      ensures State() == StopServerSpec(old(State()))
    {
      if hasProcess {
        hasProcess := false;
        isRunning := false;
      }
    }

    /** The process exited (`close`). */
    method OnExit()
      modifies this
      ensures State() == ExitSpec(old(State()))
    {
      isRunning := false;
      hasProcess := false;
    }

    /** The process could not be started or failed (`error`). */
    method OnProcessError(message: string)
      modifies this
      ensures State() == ProcessErrorSpec(old(State()), message)
    {
      isRunning := false;
      hasProcess := false;
      NotifyError(Val(Str(FailedToStart + message)));
    }

    method SendCommand(command: Value) returns (ok: bool)
      modifies this
      ensures (State(), ok) == SendSpec(old(State()), command)
    {
      if !hasProcess || !isRunning {
        return false;
      }
      stdin := stdin + Encode(JavaScript, command) + "\n";
      ok := true;
    }

    method HandleTranscription(data: JsValue)
      modifies this
      ensures State() == HandleTranscriptionSpec(old(State()), data)
    {
      var kind := Prop(data, "type");
      if kind.None? {
        return;
      }
      if kind.value == Val(Str("transcription")) {
        transcriptBuffer := PropOf(data, "full_transcript");
        if callbacks.onTranscription.Some? {
          var e := Transcript(PropOf(data, "text"), PropOf(data, "full_transcript"),
                              PropOf(data, "session_id"), PropOf(data, "timestamp"));
          delivered := delivered + [Delivery(callbacks.onTranscription.value, e)];
        }
      } else if kind.value == Val(Str("clear")) {
        transcriptBuffer := Val(Str(""));
        if callbacks.onTranscription.Some? {
          var e := Transcript(Val(Str("")), Val(Str("")), PropOf(data, "session_id"), PropOf(data, "timestamp"));
          delivered := delivered + [Delivery(callbacks.onTranscription.value, e)];
        }
      }
    }

    method HandleOutput(line: string)
      modifies this
      ensures State() == HandleLineSpec(old(State()), line)
    {
      var parsed := JsonParse.Parse(line);
      if parsed.None? || parsed.value == Null {
        return;
      }
      var message := Val(parsed.value);
      var kind, data := PropOf(message, "type"), PropOf(message, "data");
      if kind == Val(Str("ready")) {
        isRunning := true;
        if callbacks.onReady.Some? {
          delivered := delivered + [Delivery(callbacks.onReady.value, Ready(data))];
        }
      } else if kind == Val(Str("transcription")) {
        HandleTranscription(data);
      } else if kind == Val(Str("error")) {
        if callbacks.onError.Some? {
          var m := Prop(data, "message");
          if m.Some? {
            NotifyError(m.value);
          }
        }
      } else if kind == Val(Str("status_response")) {
        if callbacks.onStatus.Some? {
          delivered := delivered + [Delivery(callbacks.onStatus.value, Status(data))];
        }
      }
    }

    /** The stdout `data` handler: every non-blank piece of the chunk, in order. */
    method OnStdout(chunk: string)
      modifies this
      ensures State() == ChunkSpec(old(State()), chunk)
    {
      var pieces := Split(chunk, '\n');
      var i := 0;
      while i < |pieces|
        invariant 0 <= i <= |pieces|
        invariant State() == PiecesSpec(old(State()), pieces[..i])
      {
        assert pieces[..i + 1][..i] == pieces[..i];
        if JsTrim(pieces[i]) != "" {
          HandleOutput(pieces[i]);
        }
        i := i + 1;
      }
      assert pieces[..|pieces|] == pieces;
    }

    method StartTranscription(sessionId: JsValue) returns (ok: bool)
      modifies this
      ensures (State(), ok) == StartTranscriptionSpec(old(State()), sessionId)
    {
      if !isRunning {
        return false;
      }
      currentSession := sessionId;
      ok := SendCommand(StartCommand(sessionId));
    }

    method StopTranscription() returns (ok: bool)
      modifies this
      ensures (State(), ok) == StopTranscriptionSpec(old(State()))
    {
      if !isRunning {
        return false;
      }
      currentSession := Val(Null);
      ok := SendCommand(Command("stop"));
    }

    method ClearTranscript() returns (ok: bool)
      modifies this
      ensures (State(), ok) == GatedCommandSpec(old(State()), "clear")
    {
      if !isRunning {
        return false;
      }
      ok := SendCommand(Command("clear"));
    }

    method GetStatus() returns (ok: bool)
      modifies this
      ensures (State(), ok) == GatedCommandSpec(old(State()), "status")
    {
      if !isRunning {
        return false;
      }
      ok := SendCommand(Command("status"));
    }

    method OnTranscription(callback: Option<nat>)
      modifies this
      ensures State() == old(State()).(callbacks := old(callbacks).(onTranscription := callback))
    {
      callbacks := callbacks.(onTranscription := callback);
    }

    method OnError(callback: Option<nat>)
      modifies this
      ensures State() == old(State()).(callbacks := old(callbacks).(onError := callback))
    {
      callbacks := callbacks.(onError := callback);
    }

    method OnStatus(callback: Option<nat>)
      modifies this
      ensures State() == old(State()).(callbacks := old(callbacks).(onStatus := callback))
    {
      callbacks := callbacks.(onStatus := callback);
    }

    method OnReady(callback: Option<nat>)
      modifies this
      ensures State() == old(State()).(callbacks := old(callbacks).(onReady := callback))
    {
      callbacks := callbacks.(onReady := callback);
    }

    method GetTranscriptBuffer() returns (b: JsValue)
      ensures b == State().buffer
    {
      b := transcriptBuffer;
    }

    method IsTranscriptionRunning() returns (r: bool)
      ensures r == IsTranscriptionRunningSpec(State())
    {
      r := isRunning && currentSession != Val(Null);
    }
  }

  // ---------------------------------------------------------------------------
  // What the specification guarantees

  /** The message is an object whose `type` is `t`. */
  predicate HasType(message: Value, t: string)
  {
    message.Obj? && Get(message.members, "type") == Some(Str(t))
  }

  /** The line parses to an object whose `type` is `t`. */
  predicate LineHasType(line: string, t: string)
  {
    var p := JsonParse.Parse(line);
    p.Some? && HasType(p.value, t)
  }

  /** The transcription handler touches only the buffer and the log of callback calls. */
  lemma TranscriptionEffects(st: ManagerState, data: JsValue)
    ensures var s2 := HandleTranscriptionSpec(st, data);
      s2 == st.(buffer := s2.buffer, delivered := s2.delivered)
  {
  }

  /**
   * One message: the running flag becomes true exactly on `ready` and never
   * becomes false; the session, the process, what was written and the
   * callbacks never change, and only a `transcription` message can touch
   * the buffer.
   */
  lemma DispatchEffects(st: ManagerState, message: Value)
    ensures var s2 := DispatchSpec(st, message);
      s2.isRunning == (st.isRunning || HasType(message, "ready"))
      && s2.session == st.session && s2.hasProcess == st.hasProcess
      && s2.stdin == st.stdin && s2.callbacks == st.callbacks
      && (!HasType(message, "transcription") ==> s2.buffer == st.buffer)
  {
    if message != Null {
      var kind := PropOf(Val(message), "type");
      KindIs(message, "ready");
      KindIs(message, "transcription");
      if kind == Val(Str("transcription")) {
        TranscriptionEffects(st, PropOf(Val(message), "data"));
      } else if kind != Val(Str("ready")) {
        DispatchOthers(st, message);
      }
    }
  }

  /** Past `ready` and `transcription`, the switch only calls callbacks. */
  lemma DispatchOthers(st: ManagerState, message: Value)
    requires message != Null
    requires PropOf(Val(message), "type") != Val(Str("ready"))
    requires PropOf(Val(message), "type") != Val(Str("transcription"))
    ensures DispatchSpec(st, message) == st.(delivered := DispatchSpec(st, message).delivered)
  {
  }

  /** The `type` the switch reads is `t` exactly when the message is an object typed `t`. */
  lemma KindIs(message: Value, t: string)
    requires message != Null
    ensures PropOf(Val(message), "type") == Val(Str(t)) <==> HasType(message, t)
  {
  }

  /** The same for one stdout line. */
  lemma LineEffects(st: ManagerState, line: string)
    ensures var s2 := HandleLineSpec(st, line);
      s2.isRunning == (st.isRunning || LineHasType(line, "ready"))
      && s2.session == st.session && s2.hasProcess == st.hasProcess
      && s2.stdin == st.stdin && s2.callbacks == st.callbacks
      && (!LineHasType(line, "transcription") ==> s2.buffer == st.buffer)
  {
    var p := JsonParse.Parse(line);
    if p.Some? {
      DispatchEffects(st, p.value);
    }
  }

  /** `startServer` while running answers true and changes nothing. */
  lemma StartServerWhileRunning(st: ManagerState, spawnError: Option<string>)
    requires st.isRunning
    ensures StartServerSpec(st, spawnError) == (st, true)
  {
  }

  /** `startServer` never makes the manager ready: only the worker's `ready` line does. */
  lemma StartServerNotReady(st: ManagerState, spawnError: Option<string>)
    ensures var (s2, ok) := StartServerSpec(st, spawnError);
      s2.isRunning == st.isRunning && s2.session == st.session && s2.buffer == st.buffer
      && s2.stdin == st.stdin
      && (ok <==> st.isRunning || spawnError.None?)
      && (!st.isRunning && ok ==> s2.hasProcess)
  {
  }

  /** A line that parses is not blank, so the chunk handler never skips it. */
  lemma ParsedLineNotBlank(line: string)
    requires JsonParse.Parse(line).Some?
    ensures JsTrim(line) != ""
  {
    JsonParse.ParsedStart(line);
    var t := JsonParse.SkipSpace(line);
    assert line[|line| - |t|] == t[0];
    TrimEmpty(line, IsJsSpace);
  }

  /** One piece of a chunk: as `LineEffects`, since a `ready` line is never blank. */
  lemma PieceEffects(st: ManagerState, piece: string)
    ensures var s2 := PieceSpec(st, piece);
      s2.isRunning == (st.isRunning || LineHasType(piece, "ready"))
      && s2.session == st.session && s2.stdin == st.stdin
  {
    LineEffects(st, piece);
    if LineHasType(piece, "ready") {
      ParsedLineNotBlank(piece);
    }
  }

  /** Some piece is a `ready` line. */
  predicate AnyReady(pieces: seq<string>)
  {
    exists i :: 0 <= i < |pieces| && LineHasType(pieces[i], "ready")
  }

  lemma AnyReadySnoc(init: seq<string>, last: string)
    ensures AnyReady(init + [last]) == (AnyReady(init) || LineHasType(last, "ready"))
  {
    var pieces := init + [last];
    if AnyReady(pieces) && !LineHasType(last, "ready") {
      var i :| 0 <= i < |pieces| && LineHasType(pieces[i], "ready");
      assert init[i] == pieces[i];
    }
    if AnyReady(init) {
      var i :| 0 <= i < |init| && LineHasType(init[i], "ready");
      assert pieces[i] == init[i];
    }
    if LineHasType(last, "ready") {
      assert pieces[|init|] == last;
    }
  }

  /** Over a chunk's pieces: running afterwards exactly when running before or some piece was a `ready` line. */
  lemma {:induction false} PiecesRunning(st: ManagerState, pieces: seq<string>)
    ensures PiecesSpec(st, pieces).isRunning == (st.isRunning || AnyReady(pieces))
    ensures PiecesSpec(st, pieces).session == st.session
    ensures PiecesSpec(st, pieces).stdin == st.stdin
  {
    if pieces != [] {
      var init, last := pieces[..|pieces| - 1], pieces[|pieces| - 1];
      assert pieces == init + [last];
      PiecesRunning(st, init);
      var mid := PiecesSpec(st, init);
      assert PiecesSpec(st, pieces) == PieceSpec(mid, last);
      PieceEffects(mid, last);
      AnyReadySnoc(init, last);
    }
  }

  /** Handling pieces in two runs is handling them in one. */
  lemma {:induction false} PiecesAppend(st: ManagerState, xs: seq<string>, ys: seq<string>)
    ensures PiecesSpec(st, xs + ys) == PiecesSpec(PiecesSpec(st, xs), ys)
  {
    if ys == [] {
      assert xs + ys == xs;
    } else {
      assert (xs + ys)[..|xs + ys| - 1] == xs + ys[..|ys| - 1];
      PiecesAppend(st, xs, ys[..|ys| - 1]);
    }
  }

  /**
   * Chunks that end at a line break are handled as if they had arrived as one
   * chunk: splitting output at line boundaries loses nothing.
   */
  lemma ChunksAtLineBreaks(st: ManagerState, a: string, b: string)
    ensures ChunkSpec(st, a + "\n" + b) == ChunkSpec(ChunkSpec(st, a + "\n"), b)
  {
    SplitAppend(a, '\n', b);
    SplitAppend(a, '\n', "");
    assert a + "\n" + "" == a + "\n";
    assert Split("", '\n') == [""];
    PiecesAppend(st, Split(a, '\n'), Split(b, '\n'));
    PiecesAppend(st, Split(a, '\n'), [""]);
    assert PiecesSpec(PiecesSpec(st, Split(a, '\n')), [""]) == PiecesSpec(st, Split(a, '\n')) by {
      assert [""][..0] == [];
    }
  }

  /**
   * Chunks are not reassembled: a one-member message whose chunk boundary
   * falls right after its opening brace is lost, since neither half parses,
   * while the same text in one chunk is dispatched.
   */
  lemma SplitAfterBrace(st: ManagerState, key: string, v: Value)
    requires WellFormed(v)
    ensures var m := Obj([Member(key, v)]); var line := Encode(Python, m);
      |line| >= 1
      && ChunkSpec(ChunkSpec(st, line[..1]), line[1..] + "\n") == st
      && ChunkSpec(st, line + "\n") == DispatchSpec(st, m)
  {
    var m := Obj([Member(key, v)]);
    OneMemberText(key, v);
    BraceIgnored(st);
    KeyTailIgnored(st, key, v);
    LineDispatched(st, m);
  }

  /** How a one-member object is written: its brace, then the quoted key and a colon. */
  lemma OneMemberText(key: string, v: Value)
    ensures var line := Encode(Python, Obj([Member(key, v)]));
      |line| >= 1 && line[..1] == "{" && line[1..] == Quote(Python, key) + KeySep(Python) + Encode(Python, v) + "}"
  {
    var m := Obj([Member(key, v)]);
    assert EncodeMembers(Python, m.members) == Quote(Python, key) + KeySep(Python) + Encode(Python, v);
  }

  lemma KeyTailIgnored(st: ManagerState, key: string, v: Value)
    requires WellFormed(v)
    ensures ChunkSpec(st, Quote(Python, key) + KeySep(Python) + Encode(Python, v) + "}" + "\n") == st
  {
    var rest := KeySep(Python) + Encode(Python, v) + "}";
    var tail := Quote(Python, key) + rest;
    assert tail == Quote(Python, key) + KeySep(Python) + Encode(Python, v) + "}";
    assert '\n' !in tail by {
      EncodeNoNewline(Python, Obj([Member(key, v)]));
      OneMemberText(key, v);
    }
    SplitPrefix(tail, '\n', "");
    assert tail + "\n" == tail + ['\n'] + "";
    assert Split("", '\n') == [""];
    KeyAloneRefused(key, rest);
    OnePieceIgnored(st, tail + "\n", [tail, ""]);
  }

  /** A message written as one whole line in one chunk is dispatched. */
  lemma LineDispatched(st: ManagerState, m: Value)
    requires WellFormed(m)
    ensures ChunkSpec(st, Encode(Python, m) + "\n") == DispatchSpec(st, m)
  {
    WholeLinesChunk(st, [m]);
    assert LineProtocol.EncodeAll(Python, [m]) == [Encode(Python, m)];
    assert LineProtocol.Lines(Python, [m]) == Encode(Python, m) + "\n";
    assert [m][..0] == [];
  }

  /** In particular the `ready` message split after its brace leaves the manager not running. */
  lemma SplitReadyLost(st: ManagerState)
    requires !st.isRunning
    ensures var line := Encode(Python, Obj([Member("type", Str("ready"))]));
      ChunkSpec(ChunkSpec(st, line[..1]), line[1..] + "\n") == st
      && ChunkSpec(st, line + "\n").isRunning
  {
    var m := Obj([Member("type", Str("ready"))]);
    SplitAfterBrace(st, "type", Str("ready"));
    DispatchEffects(st, m);
    GetAt(m.members, 0);
  }

  /** A quoted key followed by its colon is not a value on its own. */
  lemma KeyAloneRefused(key: string, rest: string)
    requires rest != [] && rest[0] == ':'
    ensures JsonParse.Parse(Quote(Python, key) + rest) == None
  {
    var s := Quote(Python, key) + rest;
    JsonParse.ParseQuote(Python, key, rest);
    assert s[0] == '"';
    assert JsonParse.SkipSpace(s) == s;
    assert JsonParse.ParseValue(s) == Some((Str(key), rest));
    assert JsonParse.SkipSpace(rest) == rest;
  }

  /** A chunk of one piece that does not parse changes nothing. */
  lemma OnePieceIgnored(st: ManagerState, chunk: string, pieces: seq<string>)
    requires Split(chunk, '\n') == pieces && 1 <= |pieces| <= 2 && JsonParse.Parse(pieces[0]) == None
    requires |pieces| == 2 ==> pieces[1] == ""
    ensures ChunkSpec(st, chunk) == st
  {
    var first := PiecesSpec(st, pieces[..1]);
    assert first == st by {
      assert pieces[..1][..0] == [];
      assert PiecesSpec(st, pieces[..1][..0]) == st;
      assert HandleLineSpec(st, pieces[0]) == st;
    }
    if |pieces| == 2 {
      assert pieces[..|pieces| - 1] == pieces[..1];
      assert JsTrim("") == "";
      assert PieceSpec(first, pieces[1]) == first;
    } else {
      assert pieces == pieces[..1];
    }
  }

  lemma BraceIgnored(st: ManagerState)
    ensures ChunkSpec(st, "{") == st
  {
    assert Split("{", '\n') == ["{"] by {
      SplitCons('{', "", '\n');
      assert ['{'] + "" == "{";
      assert Split("", '\n') == [""];
    }
    assert JsonParse.Parse("{") == None by {
      assert JsonParse.SkipSpace("{") == "{";
      assert "{"[1..] == "";
      assert JsonParse.ParseObject("") == None;
    }
    OnePieceIgnored(st, "{", ["{"]);
  }

  function DispatchAll(st: ManagerState, messages: seq<Value>): ManagerState
  {
    if messages == [] then st
    else DispatchSpec(DispatchAll(st, messages[..|messages| - 1]), messages[|messages| - 1])
  }

  /**
   * A chunk made of whole lines as the worker prints them (`json.dumps` and a
   * line break each) is handled exactly as the messages dispatched one after
   * another, in order.
   */
  lemma WholeLinesChunk(st: ManagerState, messages: seq<Value>)
    requires forall i :: 0 <= i < |messages| ==> WellFormed(messages[i])
    ensures ChunkSpec(st, LineProtocol.Lines(Python, messages)) == DispatchAll(st, messages)
  {
    LineProtocol.LinesReadBack(Python, messages);
    var lines := LineProtocol.EncodeAll(Python, messages);
    PiecesAppend(st, lines, [""]);
    assert [""][..0] == [];
    EncodedPieces(st, messages);
  }

  /** A line the worker printed is handled as the message it encodes. */
  lemma EncodedPiece(st: ManagerState, message: Value)
    requires WellFormed(message)
    ensures PieceSpec(st, Encode(Python, message)) == DispatchSpec(st, message)
  {
    JsonParse.ParseEncodeLine(Python, message);
    ParsedLineNotBlank(Encode(Python, message));
  }

  lemma {:induction false} EncodedPieces(st: ManagerState, messages: seq<Value>)
    requires forall i :: 0 <= i < |messages| ==> WellFormed(messages[i])
    ensures PiecesSpec(st, LineProtocol.EncodeAll(Python, messages)) == DispatchAll(st, messages)
  {
    if messages != [] {
      var n := |messages| - 1;
      var lines := LineProtocol.EncodeAll(Python, messages);
      assert lines[..n] == LineProtocol.EncodeAll(Python, messages[..n]);
      var init := messages[..n];
      assert forall i :: 0 <= i < |init| ==> WellFormed(init[i]) by {
        forall i | 0 <= i < |init| ensures WellFormed(init[i]) {
          assert init[i] == messages[i];
        }
      }
      EncodedPieces(st, init);
      var mid := PiecesSpec(st, lines[..n]);
      assert lines[n] == Encode(Python, messages[n]);
      EncodedPiece(mid, messages[n]);
      assert PiecesSpec(st, lines) == PieceSpec(mid, lines[n]);
    }
  }

  /** While the manager is not running every session command answers false and changes nothing. */
  lemma ClosedGate(st: ManagerState, sessionId: JsValue)
    requires !st.isRunning
    ensures StartTranscriptionSpec(st, sessionId) == (st, false)
    ensures StopTranscriptionSpec(st) == (st, false)
    ensures GatedCommandSpec(st, "clear") == (st, false)
    ensures GatedCommandSpec(st, "status") == (st, false)
  {
  }

  /**
   * `_sendCommand` keeps the worker's stdin a sequence of whole command
   * lines: after a write it holds one more line, the command's; after a
   * refusal it is unchanged. A write happens exactly when a process is
   * present and the manager is running.
   */
  lemma SendFraming(st: ManagerState, sent: seq<Value>, command: Value)
    requires st.stdin == LineProtocol.Lines(JavaScript, sent)
    ensures var (s2, ok) := SendSpec(st, command);
      ok == (st.hasProcess && st.isRunning)
      && s2.stdin == LineProtocol.Lines(JavaScript, if ok then sent + [command] else sent)
      && s2 == st.(stdin := s2.stdin)
  {
    LineProtocol.LinesAppend(JavaScript, sent, command);
  }

  /** `startTranscription` on a running manager with a process: sends the start command and sets the session. */
  lemma StartThenQuery(st: ManagerState, sessionId: JsValue)
    requires st.isRunning && st.hasProcess
    ensures var (s2, ok) := StartTranscriptionSpec(st, sessionId);
      ok && s2.session == sessionId
      && s2.stdin == st.stdin + Encode(JavaScript, StartCommand(sessionId)) + "\n"
      && IsTranscriptionRunningSpec(s2) == (sessionId != Val(Null))
  {
  }

  /** `stopTranscription` clears the session, so the manager reports no running transcription. */
  lemma StopThenQuery(st: ManagerState)
    requires st.isRunning
    ensures var (s2, ok) := StopTranscriptionSpec(st);
      s2.session == Val(Null) && !IsTranscriptionRunningSpec(s2) && ok == st.hasProcess
  {
  }

  /** `clearTranscript` only sends a command; the buffer and the session stay. */
  lemma ClearKeepsBuffer(st: ManagerState)
    ensures var (s2, _) := GatedCommandSpec(st, "clear");
      s2.buffer == st.buffer && s2.session == st.session && s2.isRunning == st.isRunning
  {
  }

  /**
   * After the process exits (or fails, or is stopped) the manager is not
   * running, holds no process, and refuses to start a transcription.
   */
  lemma EndedProcess(st: ManagerState, message: string, sessionId: JsValue)
    ensures var e := ExitSpec(st);
      !e.isRunning && !e.hasProcess && e.session == st.session && e.buffer == st.buffer
      && StartTranscriptionSpec(e, sessionId) == (e, false)
    ensures var f := ProcessErrorSpec(st, message);
      !f.isRunning && !f.hasProcess && f.session == st.session && f.buffer == st.buffer
      && |f.delivered| == |st.delivered| + (if st.callbacks.onError.Some? then 1 else 0)
    ensures st.hasProcess ==> !StopServerSpec(st).isRunning && !StopServerSpec(st).hasProcess
    ensures !st.hasProcess ==> StopServerSpec(st) == st
  {
  }

  /**
   * A `ready` line that arrives after `stopServer` dropped the process leaves
   * the manager running without a process: `startTranscription` then sets the
   * session and still answers false.
   */
  lemma ReadyWithoutProcess(st: ManagerState, sessionId: JsValue)
    requires st.isRunning && !st.hasProcess
    ensures StartTranscriptionSpec(st, sessionId) == (st.(session := sessionId), false)
  {
  }

  /**
   * The buffer rule: a `transcription` event replaces the buffer with its
   * `full_transcript` and a `clear` event empties it, whatever the buffer
   * held before (nothing is appended); the callback sees the new buffer.
   * Any other kind of event changes nothing.
   */
  lemma BufferRule(st: ManagerState, other: JsValue, data: JsValue)
    ensures var s2 := HandleTranscriptionSpec(st, data);
      var kind := Prop(data, "type");
      if kind == Some(Val(Str("transcription"))) || kind == Some(Val(Str("clear"))) then
        s2.buffer == HandleTranscriptionSpec(st.(buffer := other), data).buffer
        && (st.callbacks.onTranscription.Some? ==>
              |s2.delivered| == |st.delivered| + 1
              && s2.delivered[|st.delivered|].event.fullTranscript == s2.buffer)
        && (kind == Some(Val(Str("clear"))) ==> s2.buffer == Val(Str("")))
      else s2 == st
  {
  }

  /**
   * A message of a type the switch does not know changes nothing: no flag,
   * no buffer, no callback.
   */
  lemma UnknownTypeIgnored(st: ManagerState, message: Value, t: string)
    requires HasType(message, t)
    requires t != "ready" && t != "transcription" && t != "error" && t != "status_response"
    ensures DispatchSpec(st, message) == st
  {
  }

  /**
   * The worker's real replies are typed `response` and `status`; the manager
   * only knows `start_response`, `stop_response`, `clear_response` and
   * `status_response`, so those replies change nothing.
   */
  lemma WorkerRepliesIgnored(st: ManagerState, data: Value, timestamp: Value)
    ensures DispatchSpec(st, Obj([Member("type", Str("response")), Member("data", data), Member("timestamp", timestamp)])) == st
    ensures DispatchSpec(st, Obj([Member("type", Str("status")), Member("data", data), Member("timestamp", timestamp)])) == st
  {
    var r := [Member("type", Str("response")), Member("data", data), Member("timestamp", timestamp)];
    var q := [Member("type", Str("status")), Member("data", data), Member("timestamp", timestamp)];
    GetAt(r, 0);
    GetAt(q, 0);
    UnknownTypeIgnored(st, Obj(r), "response");
    UnknownTypeIgnored(st, Obj(q), "status");
  }
}
