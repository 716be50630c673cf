/**
 * The worker's side of the line protocol (python/transcription_server.py):
 * it prints one JSON message per line on stdout, first a `ready` message,
 * then reads commands from stdin one line at a time and answers each.
 *
 * The wall clock is the function `clock`: the n-th message printed carries
 * the timestamp `clock(n)`. What `json.loads` says about a line it refuses is
 * the function `decodeError`, and Python's `str` of a float, a list or a
 * dictionary is the function `repr`.
 */
module Server {
  import opened Wrappers
  import opened Text
  import opened Json
  import JsonParse
  import LineProtocol
  import opened Realtime

  // ---------------------------------------------------------------------------
  // Messages

  /** `{'type': kind, 'data': data, 'timestamp': timestamp}`, as `_send_message` builds it. */
  function Message(kind: string, data: Value, timestamp: Value): Value
  {
    Obj([Member("type", Str(kind)), Member("data", data), Member("timestamp", timestamp)])
  }

  /** The data of an `error` message. */
  function ErrorData(text: string): Value
  {
    Obj([Member("message", Str(text))])
  }

  /** The data of the `response` to `stop` and `clear`. */
  function Ack(command: string): Value
  {
    Obj([Member("command", Str(command)), Member("success", Bool(true))])
  }

  /** The data of the `response` to `start`. */
  function StartAck(success: bool, sessionId: Value): Value
  {
    Obj([Member("command", Str("start")), Member("success", Bool(success)), Member("session_id", sessionId)])
  }

  /** The settings the server builds its engine with: 2 s chunks and 0.5 s overlap at 16 kHz. */
  const SampleRate: nat := 16000
  const ChunkSamples: nat := 32000
  const OverlapSamples: nat := 8000
  const ChunkDuration := "2.0"
  const OverlapDuration := "0.5"
  const Device := "cpu"
  const ComputeType := "int8"

  /** The data of the `ready` message. */
  function ReadyData(): Value
  {
    Obj([Member("message", Str("Improved transcription server ready")),
         Member("capabilities", Obj(EngineCapabilities("16000", ChunkDuration) + StreamCapabilities(OverlapDuration, "1600")))])
  }

  function EngineCapabilities(sampleRate: string, chunkDuration: string): seq<Member>
  {
    [Member("device", Str(Device)), Member("compute_type", Str(ComputeType)),
     Member("sample_rate", Num(sampleRate)), Member("chunk_duration", Num(chunkDuration))]
  }

  function StreamCapabilities(overlapDuration: string, blocksize: string): seq<Member>
  {
    [Member("overlap_duration", Num(overlapDuration)), Member("blocksize", Num(blocksize)),
     Member("features", Arr([Str("overlap_buffering"), Str("improved_responsiveness"),
                             Str("reduced_word_loss"), Str("faster_processing")]))]
  }

  /** The status the engine reports, with the server's settings. */
  function EngineStatus(e: Engine): Value
  {
    StatusRecord(e.isRecording, e.currentSession, e.modelLoaded, Device, ComputeType, SampleRate,
                 ChunkDuration, OverlapDuration, OverlapSamples)
  }

  // ---------------------------------------------------------------------------
  // Python's view of a parsed command

  /** A JSON number Python reads as an `int`: no fraction and no exponent. */
  predicate IsIntLexeme(t: string)
  {
    forall i :: 0 <= i < |t| ==> t[i] != '.' && t[i] != 'e' && t[i] != 'E'
  }

  /** `type(v).__name__`. */
  function PyTypeName(v: Value): string
  {
    match v
    case Null => "NoneType"
    case Bool(_) => "bool"
    case Num(t) => if IsIntLexeme(t) then "int" else "float"
    case Str(_) => "str"
    case Arr(_) => "list"
    case Obj(_) => "dict"
  }

  /** `str(v)`: exact for `None`, booleans, strings and integers (`-0` reads as `0`). */
  function PyStr(v: Value, repr: Value -> string): string
  {
    match v
    case Null => "None"
    case Bool(b) => if b then "True" else "False"
    case Str(s) => s
    case Num(t) => if IsIntLexeme(t) then (if t == "-0" then "0" else t) else repr(v)
    case _ => repr(v)
  }

  /** The text of the `AttributeError` that `command.get` raises on a value that is not a dictionary. */
  function NoGet(v: Value): string
  {
    "'" + PyTypeName(v) + "' object has no attribute 'get'"
  }

  // ---------------------------------------------------------------------------
  // Specification

  /** The engine, the `running` flag, and every message printed so far. */
  datatype ServerState = ServerState(engine: Engine, running: bool, stdout: seq<Value>)

  /** `_send_message(kind, data)`. */
  function Send(s: ServerState, kind: string, data: Value, clock: nat -> Value): (r: ServerState)
    ensures r.engine == s.engine && r.running == s.running
    ensures |r.stdout| == |s.stdout| + 1 && r.stdout[..|s.stdout|] == s.stdout
  {
    s.(stdout := s.stdout + [Message(kind, data, clock(|s.stdout|))])
  }

  /** `command.get('type')` on a dictionary. */
  function CommandType(command: Value): Value
    requires command.Obj?
  {
    Get(command.members, "type").GetOr(Null)
  }

  /**
   * `_handle_command(command)`: the new state, and the text of the exception
   * it raises when the command is not a dictionary.
   */
  function CommandSpec(s: ServerState, command: Value, clock: nat -> Value, repr: Value -> string)
    : (ServerState, Option<string>)
  {
    if !command.Obj? then (s, Some(NoGet(command)))
    else (DictSpec(s, CommandType(command), SessionIdOf(command), clock, repr), None)
  }

  /** `_handle_command` on a dictionary whose `type` is `t` and whose session id (for `start`) is `sessionId`. */
  function DictSpec(s: ServerState, t: Value, sessionId: Value, clock: nat -> Value, repr: Value -> string)
    : ServerState
  {
    if t == Str("start") then StartReply(s, sessionId, clock)
    else if t == Str("stop") then Send(s.(engine := StopSpec(s.engine)), "response", Ack("stop"), clock)
    else if t == Str("clear") then ClearReply(s, clock)
    else if t == Str("status") then Send(s, "status", EngineStatus(s.engine), clock)
    else if t == Str("quit") then s.(running := false)
    else Send(s, "error", ErrorData("Unknown command type: " + PyStr(t, repr)), clock)
  }

  /** The session id of a `start` command, `default` when it has none. */
  function SessionIdOf(command: Value): Value
    requires command.Obj?
  {
    Get(command.members, "session_id").GetOr(Str("default"))
  }

  /** `start`: the engine starts the session and the server acknowledges it. */
  function StartReply(s: ServerState, sessionId: Value, clock: nat -> Value): ServerState
  {
    Send(s.(engine := StartSpec(s.engine, sessionId)), "response", StartAck(true, sessionId), clock)
  }

  /** `clear`: the engine's clear record (when a callback is set), then the acknowledgement. */
  function ClearReply(s: ServerState, clock: nat -> Value): ServerState
  {
    var (e, record) := ClearSpec(s.engine);
    var cleared := if record.Some? then Send(s.(engine := e), "transcription", record.value, clock)
                   else s.(engine := e);
    Send(cleared, "response", Ack("clear"), clock)
  }

  /**
   * One line read by `_read_commands`: the new state and whether reading
   * stops. Blank lines are skipped; a line `json.loads` refuses is answered
   * with an error and reading goes on; an exception from the command ends
   * reading after an error message.
   */
  function LineSpec(s: ServerState, line: string, clock: nat -> Value, decodeError: string -> string,
                    repr: Value -> string): (ServerState, bool)
  {
    if PyStrip(line) == "" then (s, false)
    else match JsonParse.Parse(line)
      case None => (Send(s, "error", ErrorData("Invalid JSON command: " + decodeError(line)), clock), false)
      case Some(command) =>
        var (s2, raised) := CommandSpec(s, command, clock, repr);
        if raised.Some? then (Send(s2, "error", ErrorData("Error reading command: " + raised.value), clock), true)
        else (s2, false)
  }

  /**
   * Universal newlines, as text-mode `stdin` reads its input on Windows:
   * `\r\n` and a lone `\r` both arrive as `\n`. (On Linux and macOS
   * CPython's `stdin` breaks lines at `\n` alone and keeps `\r`.)
   */
  function Translate(input: string): (r: string)
    ensures '\r' !in r
    decreases |input|
  {
    if input == [] then []
    else if input[0] == '\r' then "\n" + Translate(if |input| > 1 && input[1] == '\n' then input[2..] else input[1..])
    else [input[0]] + Translate(input[1..])
  }

  /**
   * `sys.stdin.readline()`: the first line of the translated input, up to and
   * including its `\n`, or all that is left; and the input after that line.
   */
  function ReadLine(input: string): (r: (string, string))
    ensures |r.1| <= |input| && r.1 == input[|input| - |r.1|..]
    ensures r.0 == [] <==> input == []
    ensures input != [] ==> |r.1| < |input|
    ensures r.0 == [] || '\n' !in r.0[..|r.0| - 1]
    ensures r.0 != [] && r.0[|r.0| - 1] != '\n' ==> r.1 == []
    decreases |input|
  {
    if input == [] then ([], [])
    else if input[0] == '\n' then ("\n", input[1..])
    else if input[0] == '\r' then ("\n", if |input| > 1 && input[1] == '\n' then input[2..] else input[1..])
    else
      var (line, rest) := ReadLine(input[1..]);
      ([input[0]] + line, rest)
  }

  /** The line read, then the rest of the input translated, is the whole input translated. */
  lemma {:induction false} ReadLineTranslates(input: string)
    ensures var (line, rest) := ReadLine(input);
      '\r' !in line && line + Translate(rest) == Translate(input)
    decreases |input|
  {
    if input != [] && input[0] != '\n' && input[0] != '\r' {
      ReadLineTranslates(input[1..]);
      var (line, rest) := ReadLine(input[1..]);
      assert [input[0]] + line + Translate(rest) == Translate(input);
    }
  }

  /**
   * `_read_commands` from the state `s` on the unread input: the final state
   * and what is left unread. Reading ends once `running` is false, at the end
   * of the input, or after an exception.
   */
  function ReadSpec(s: ServerState, input: string, clock: nat -> Value, decodeError: string -> string,
                    repr: Value -> string): (ServerState, string)
    decreases |input|
  {
    if !s.running then (s, input)
    else
      var (line, rest) := ReadLine(input);
      if line == [] then (s, input)
      else
        var (s2, stop) := LineSpec(s, line, clock, decodeError, repr);
        if stop then (s2, rest) else ReadSpec(s2, rest, clock, decodeError, repr)
  }

  /** `start()` up to the end of reading: `ready` first, then the commands. */
  function ServeSpec(s: ServerState, input: string, clock: nat -> Value, decodeError: string -> string,
                     repr: Value -> string): (ServerState, string)
  {
    ReadSpec(Send(s, "ready", ReadyData(), clock), input, clock, decodeError, repr)
  }

  /** One step of the reading loop: a line is read and handled, and reading goes on unless it stopped. */
  lemma ReadStep(s: ServerState, input: string, clock: nat -> Value, decodeError: string -> string,
                 repr: Value -> string)
    requires s.running && ReadLine(input).0 != []
    ensures var (line, rest) := ReadLine(input);
      var (s2, stop) := LineSpec(s, line, clock, decodeError, repr);
      ReadSpec(s, input, clock, decodeError, repr) == if stop then (s2, rest) else ReadSpec(s2, rest, clock, decodeError, repr)
  {
  }

  // ---------------------------------------------------------------------------
  // The server

  class TranscriptionServer {
    const transcriber: RealtimeTranscriber
    var running: bool
    /** Every message printed so far, one per line. */
    var stdout: seq<Value>
    /** What is left to read on stdin. */
    var stdin: string

    function State(): ServerState
      reads this, transcriber
    {
      ServerState(transcriber.Snapshot(), running, stdout)
    }

    /** The engine is the one the constructor built, with the server's settings. */
    ghost predicate Valid()
      reads this, transcriber
    {
      transcriber.Valid()
      && transcriber.sampleRate == SampleRate && transcriber.chunkSamples == ChunkSamples
      && transcriber.overlapSamples == OverlapSamples && transcriber.chunkDuration == ChunkDuration
      && transcriber.overlapDuration == OverlapDuration && transcriber.device == Device
      && transcriber.computeType == ComputeType
    }

    /** `__init__`: builds the engine and registers the output callback; `input` is what stdin will deliver. */
    constructor(input: string)
      ensures Valid() && fresh(transcriber)
      ensures State() == ServerState(Engine(false, [], [], [], false, "", Null, true), true, [])
      ensures stdin == input
    {
      var t := new RealtimeTranscriber(SampleRate, ChunkSamples, OverlapSamples, ChunkDuration, OverlapDuration,
                                       Device, ComputeType);
      t.SetOutputCallback();
      transcriber := t;
      running := true;
      stdout := [];
      stdin := input;
    }

    /** `_send_message`: one more line on stdout. */
    method SendMessage(kind: string, data: Value, clock: nat -> Value)
      modifies this
      requires Valid()
      ensures Valid() && State() == Send(old(State()), kind, data, clock) && stdin == old(stdin)
    {
      stdout := stdout + [Message(kind, data, clock(|stdout|))];
    }

    /** `_handle_transcription_output`: the engine's record goes out as a `transcription` message. */
    method OnTranscriptionOutput(data: Value, clock: nat -> Value)
      modifies this
      requires Valid()
      ensures Valid() && State() == Send(old(State()), "transcription", data, clock) && stdin == old(stdin)
    {
      SendMessage("transcription", data, clock);
    }

    /** `_handle_error`. */
    method OnError(error: string, clock: nat -> Value)
      modifies this
      requires Valid()
      ensures Valid() && State() == Send(old(State()), "error", ErrorData(error), clock) && stdin == old(stdin)
    {
      SendMessage("error", ErrorData(error), clock);
    }

    /** The `start` branch of `_handle_command`. */
    method HandleStart(command: Value, clock: nat -> Value)
      modifies this, transcriber
      requires Valid() && command.Obj?
      ensures Valid() && State() == StartReply(old(State()), SessionIdOf(command), clock) && stdin == old(stdin)
    {
      var sessionId := Get(command.members, "session_id").GetOr(Str("default"));
      var success := transcriber.StartSession(sessionId);
      SendMessage("response", StartAck(success, sessionId), clock);
    }

    /** The `clear` branch of `_handle_command`. */
    method HandleClear(clock: nat -> Value)
      modifies this, transcriber
      requires Valid()
      ensures Valid() && State() == ClearReply(old(State()), clock) && stdin == old(stdin)
    {
      var record := transcriber.ClearTranscript();
      if record.Some? {
        OnTranscriptionOutput(record.value, clock);
      }
      SendMessage("response", Ack("clear"), clock);
    }

    /** `_handle_command`. */
    method HandleCommand(command: Value, clock: nat -> Value, repr: Value -> string) returns (raised: Option<string>)
      modifies this, transcriber
      requires Valid()
      ensures Valid() && (State(), raised) == CommandSpec(old(State()), command, clock, repr)
      ensures stdin == old(stdin)
    {
      raised := None;
      if !command.Obj? {
        raised := Some(NoGet(command));
        return;
      }
      var t := Get(command.members, "type").GetOr(Null);
      if t == Str("start") {
        HandleStart(command, clock);
      } else if t == Str("stop") {
        transcriber.StopSession();
        SendMessage("response", Ack("stop"), clock);
      } else if t == Str("clear") {
        HandleClear(clock);
      } else if t == Str("status") {
        var status := transcriber.Status();
        SendMessage("status", status, clock);
      } else if t == Str("quit") {
        running := false;
      } else {
        SendMessage("error", ErrorData("Unknown command type: " + PyStr(t, repr)), clock);
      }
    }

    /** The body of the reading loop for one line; `stop` is the `break` after an exception. */
    method HandleLine(line: string, clock: nat -> Value, decodeError: string -> string, repr: Value -> string)
      returns (stop: bool)
      modifies this, transcriber
      requires Valid()
      ensures Valid() && (State(), stop) == LineSpec(old(State()), line, clock, decodeError, repr)
      ensures stdin == old(stdin)
    {
      stop := false;
      if PyStrip(line) == "" {
        return;
      }
      match JsonParse.Parse(line)
      case None =>
        SendMessage("error", ErrorData("Invalid JSON command: " + decodeError(line)), clock);
      case Some(command) =>
        var raised := HandleCommand(command, clock, repr);
        if raised.Some? {
          SendMessage("error", ErrorData("Error reading command: " + raised.value), clock);
          stop := true;
        }
    }

    /** One pass of the reading loop; `done` when reading ends here (end of input or an exception). */
    method ReadOne(clock: nat -> Value, decodeError: string -> string, repr: Value -> string) returns (done: bool)
      modifies this, transcriber
      requires Valid() && running
      ensures Valid()
      ensures done ==> (State(), stdin) == ReadSpec(old(State()), old(stdin), clock, decodeError, repr)
      ensures !done ==> |stdin| < |old(stdin)|
                        && ReadSpec(State(), stdin, clock, decodeError, repr)
                           == ReadSpec(old(State()), old(stdin), clock, decodeError, repr)
    {
      ghost var s0, in0 := State(), stdin;
      var (line, rest) := ReadLine(stdin);
      if line == [] {
        return true;
      }
      ReadStep(s0, in0, clock, decodeError, repr);
      stdin := rest;
      assert State() == s0;
      done := HandleLine(line, clock, decodeError, repr);
      assert (State(), done) == LineSpec(s0, line, clock, decodeError, repr);
      assert |stdin| < |in0|;
    }

    /** `_read_commands`. */
    method ReadCommands(clock: nat -> Value, decodeError: string -> string, repr: Value -> string)
      modifies this, transcriber
      requires Valid()
      ensures Valid() && (State(), stdin) == ReadSpec(old(State()), old(stdin), clock, decodeError, repr)
    {
      ghost var target := ReadSpec(State(), stdin, clock, decodeError, repr);
      while running
        invariant Valid()
        invariant ReadSpec(State(), stdin, clock, decodeError, repr) == target
        decreases |stdin|
      {
        var done := ReadOne(clock, decodeError, repr);
        if done {
          return;
        }
      }
    }

    /**
     * `start()`: the `ready` message, then the reading loop. The server shuts
     * the engine down and ends only after `quit`; after the end of the input
     * or an exception it keeps running without reading.
     */
    method Start(clock: nat -> Value, decodeError: string -> string, repr: Value -> string) returns (exited: bool)
      modifies this, transcriber
      requires Valid()
      ensures Valid()
      ensures var (s, rest) := ServeSpec(old(State()), old(stdin), clock, decodeError, repr);
        stdin == rest && stdout == s.stdout && running == s.running && exited == !s.running
        && transcriber.Snapshot() == if exited then StopSpec(s.engine) else s.engine
    {
      SendMessage("ready", ReadyData(), clock);
      ReadCommands(clock, decodeError, repr);
      exited := !running;
      if exited {
        transcriber.StopSession();
      }
    }
  }

  // ---------------------------------------------------------------------------
  // Properties

  /** What a reader of a message finds under each key. */
  lemma MessageFields(kind: string, data: Value, timestamp: Value)
    ensures var m := Message(kind, data, timestamp);
      Field(m, "type") == Some(Str(kind)) && Field(m, "data") == Some(data)
      && Field(m, "timestamp") == Some(timestamp)
  {
    var ms := Message(kind, data, timestamp).members;
    assert "data"[0] != "type"[0];
    GetAt(ms, 0);
    GetAt(ms, 1);
    GetAt(ms, 2);
  }

  /** `b` holds every message of `a`, in place, and maybe more after them. */
  predicate Extends(a: ServerState, b: ServerState)
  {
    |a.stdout| <= |b.stdout| && b.stdout[..|a.stdout|] == a.stdout
  }

  lemma ExtendsTrans(a: ServerState, b: ServerState, c: ServerState)
    requires Extends(a, b) && Extends(b, c)
    ensures Extends(a, c)
  {
    assert c.stdout[..|a.stdout|] == c.stdout[..|b.stdout|][..|a.stdout|];
  }

  /** A command only ever adds messages. */
  lemma CommandExtends(s: ServerState, command: Value, clock: nat -> Value, repr: Value -> string)
    ensures Extends(s, CommandSpec(s, command, clock, repr).0)
  {
    if command.Obj? {
      DictExtends(s, CommandType(command), SessionIdOf(command), clock, repr);
    }
  }

  lemma DictExtends(s: ServerState, t: Value, sessionId: Value, clock: nat -> Value, repr: Value -> string)
    ensures Extends(s, DictSpec(s, t, sessionId, clock, repr))
  {
    if t == Str("clear") {
      var (e, record) := ClearSpec(s.engine);
      var cleared := if record.Some? then Send(s.(engine := e), "transcription", record.value, clock)
                     else s.(engine := e);
      ExtendsTrans(s, cleared, Send(cleared, "response", Ack("clear"), clock));
    }
  }

  lemma LineExtends(s: ServerState, line: string, clock: nat -> Value, decodeError: string -> string,
                    repr: Value -> string)
    ensures Extends(s, LineSpec(s, line, clock, decodeError, repr).0)
  {
    var parsed := JsonParse.Parse(line);
    if PyStrip(line) == "" || parsed.None? {
      UnparsedLineExtends(s, line, clock, decodeError, repr);
    } else {
      ParsedLineExtends(s, line, parsed.value, clock, decodeError, repr);
    }
  }

  lemma UnparsedLineExtends(s: ServerState, line: string, clock: nat -> Value, decodeError: string -> string,
                            repr: Value -> string)
    requires PyStrip(line) == "" || JsonParse.Parse(line).None?
    ensures Extends(s, LineSpec(s, line, clock, decodeError, repr).0)
  {
    var text := "Invalid JSON command: " + decodeError(line);
    UnparsedLine(s, line, clock, decodeError, repr);
    var s2 := Send(s, "error", ErrorData(text), clock);
    assert Extends(s, s2);
  }

  /** A blank line changes nothing; a line that does not parse is answered with an error. */
  lemma UnparsedLine(s: ServerState, line: string, clock: nat -> Value, decodeError: string -> string,
                     repr: Value -> string)
    requires PyStrip(line) == "" || JsonParse.Parse(line).None?
    ensures LineSpec(s, line, clock, decodeError, repr)
            == if PyStrip(line) == "" then (s, false)
               else (Send(s, "error", ErrorData("Invalid JSON command: " + decodeError(line)), clock), false)
  {
  }

  lemma ParsedLineExtends(s: ServerState, line: string, v: Value, clock: nat -> Value,
                          decodeError: string -> string, repr: Value -> string)
    requires JsonParse.Parse(line) == Some(v)
    ensures Extends(s, LineSpec(s, line, clock, decodeError, repr).0)
  {
    LineOfValue(s, line, v, clock, decodeError, repr);
    CommandExtends(s, v, clock, repr);
  }

  /** Reading commands never takes back or rewrites a message already printed. */
  lemma {:induction false} ReadExtends(s: ServerState, input: string, clock: nat -> Value,
                                       decodeError: string -> string, repr: Value -> string)
    ensures Extends(s, ReadSpec(s, input, clock, decodeError, repr).0)
    decreases |input|
  {
    if s.running {
      var (line, rest) := ReadLine(input);
      if line != [] {
        var (s2, stop) := LineSpec(s, line, clock, decodeError, repr);
        LineExtends(s, line, clock, decodeError, repr);
        if !stop {
          ReadExtends(s2, rest, clock, decodeError, repr);
          ExtendsTrans(s, s2, ReadSpec(s2, rest, clock, decodeError, repr).0);
        }
      }
    }
  }

  /** Whatever stdin holds, the first message the server prints is `ready`, and everything it prints afterwards follows it. */
  lemma ReadyFirst(s: ServerState, input: string, clock: nat -> Value, decodeError: string -> string,
                   repr: Value -> string)
    ensures var r := ServeSpec(s, input, clock, decodeError, repr).0;
      |r.stdout| > |s.stdout| && r.stdout[..|s.stdout|] == s.stdout
      && r.stdout[|s.stdout|] == Message("ready", ReadyData(), clock(|s.stdout|))
  {
    var ready := Send(s, "ready", ReadyData(), clock);
    var r := ReadSpec(ready, input, clock, decodeError, repr).0;
    ReadExtends(ready, input, clock, decodeError, repr);
    ExtendsTrans(s, ready, r);
    assert r.stdout[|s.stdout|] == r.stdout[..|ready.stdout|][|s.stdout|];
  }

  /** The kind of the last message a recognised command other than `quit` prints. */
  function ReplyKind(t: Value): string
  {
    if t == Str("start") || t == Str("stop") || t == Str("clear") then "response"
    else if t == Str("status") then "status"
    else "error"
  }

  /** A message's kind, read back from its `type` key. */
  lemma KindField(m: Value)
    requires m.Obj? && |m.members| == 3
    requires m.members[0].key == "type" && m.members[1].key == "data" && m.members[2].key == "timestamp"
    ensures Field(m, "type") == Some(m.members[0].val)
  {
    assert "data"[0] != "type"[0];
    GetAt(m.members, 0);
  }

  /** The messages a recognised command other than `quit` prints, and the kind of the last. */
  lemma LastReply(s: ServerState, t: Value, sessionId: Value, clock: nat -> Value, repr: Value -> string)
    requires t != Str("quit")
    ensures var r := DictSpec(s, t, sessionId, clock, repr);
      r.running == s.running
      && |r.stdout| == |s.stdout| + (if t == Str("clear") && s.engine.hasOutputCallback then 2 else 1)
      && var last := r.stdout[|r.stdout| - 1];
      last.Obj? && |last.members| == 3 && last.members[0] == Member("type", Str(ReplyKind(t)))
      && last.members[1].key == "data" && last.members[2].key == "timestamp"
  {
    ReplyCount(s, t, sessionId, clock, repr);
    ReplyLast(s, t, sessionId, clock, repr);
  }

  lemma ReplyCount(s: ServerState, t: Value, sessionId: Value, clock: nat -> Value, repr: Value -> string)
    requires t != Str("quit")
    ensures var r := DictSpec(s, t, sessionId, clock, repr);
      r.running == s.running
      && |r.stdout| == |s.stdout| + (if t == Str("clear") && s.engine.hasOutputCallback then 2 else 1)
  {
    assert "clear"[0] != "start"[0] && "stop"[0] != "quit"[0];
  }

  lemma ReplyLast(s: ServerState, t: Value, sessionId: Value, clock: nat -> Value, repr: Value -> string)
    requires t != Str("quit")
    ensures var r := DictSpec(s, t, sessionId, clock, repr);
      |r.stdout| > 0 && var last := r.stdout[|r.stdout| - 1];
      last.Obj? && |last.members| == 3 && last.members[0] == Member("type", Str(ReplyKind(t)))
      && last.members[1].key == "data" && last.members[2].key == "timestamp"
  {
    var kind := ReplyKind(t);
    var r := DictSpec(s, t, sessionId, clock, repr);
    assert "clear"[0] != "start"[0] && "stop"[0] != "quit"[0];
    if t == Str("start") {
      assert kind == "response" && r == StartReply(s, sessionId, clock);
      SentLast(s.(engine := StartSpec(s.engine, sessionId)), "response", StartAck(true, sessionId), clock);
    } else if t == Str("stop") {
      assert kind == "response";
      SentLast(s.(engine := StopSpec(s.engine)), "response", Ack("stop"), clock);
    } else if t == Str("clear") {
      assert kind == "response" && r == ClearReply(s, clock);
      ClearLast(s, clock);
    } else if t == Str("status") {
      assert kind == "status";
      SentLast(s, "status", EngineStatus(s.engine), clock);
    } else {
      assert kind == "error";
      SentLast(s, "error", ErrorData("Unknown command type: " + PyStr(t, repr)), clock);
    }
  }

  lemma ClearLast(s: ServerState, clock: nat -> Value)
    ensures var r := ClearReply(s, clock);
      |r.stdout| > 0 && r.stdout[|r.stdout| - 1] == Message("response", Ack("clear"), clock(|r.stdout| - 1))
  {
  }

  /** The message `Send` adds is last, with its kind, data and timestamp under their keys. */
  lemma SentLast(s: ServerState, kind: string, data: Value, clock: nat -> Value)
    ensures var r := Send(s, kind, data, clock);
      |r.stdout| > 0 && var last := r.stdout[|r.stdout| - 1];
      last.Obj? && |last.members| == 3 && last.members[0] == Member("type", Str(kind))
      && last.members[1] == Member("data", data) && last.members[2].key == "timestamp"
  {
  }

  /**
   * What one command prints: an exception and nothing printed for a value
   * that is not a dictionary; nothing for `quit`, which alone ends the
   * running flag; for every other dictionary one message (two for `clear`
   * when the engine has an output callback), the last of the kind
   * `ReplyKind` names.
   */
  lemma CommandReplies(s: ServerState, command: Value, clock: nat -> Value, repr: Value -> string)
    ensures var (r, raised) := CommandSpec(s, command, clock, repr);
      var quit := command.Obj? && CommandType(command) == Str("quit");
      (raised.Some? <==> !command.Obj?)
      && r.running == (s.running && !quit)
      && (raised.Some? || quit ==> r.stdout == s.stdout)
      && (command.Obj? && !quit ==>
            var t := CommandType(command);
            |r.stdout| == |s.stdout| + (if t == Str("clear") && s.engine.hasOutputCallback then 2 else 1)
            && Field(r.stdout[|r.stdout| - 1], "type") == Some(Str(ReplyKind(t))))
  {
    if command.Obj? && CommandType(command) != Str("quit") {
      LastReply(s, CommandType(command), SessionIdOf(command), clock, repr);
      var r := CommandSpec(s, command, clock, repr).0;
      KindField(r.stdout[|r.stdout| - 1]);
    }
  }

  /** A line of the manager's text that `json.loads` accepts is never blank to `str.strip`. */
  lemma ParsedLineNotBlank(line: string)
    requires JsonParse.Parse(line).Some?
    ensures PyStrip(line) != ""
  {
    JsonParse.ParsedStart(line);
    var t := JsonParse.SkipSpace(line);
    assert line[|line| - |t|] == t[0];
    TrimEmpty(line, IsPySpace);
  }

  /** A line leaves the running server exactly as it was if and only if it is blank. */
  lemma BlankLinesSkipped(s: ServerState, line: string, clock: nat -> Value, decodeError: string -> string,
                          repr: Value -> string)
    requires s.running
    ensures LineSpec(s, line, clock, decodeError, repr) == (s, false) <==> PyStrip(line) == ""
  {
    if PyStrip(line) != "" && JsonParse.Parse(line).Some? {
      CommandReplies(s, JsonParse.Parse(line).value, clock, repr);
    }
  }

  /**
   * Reading stops after a line exactly when it parses to a value that is not
   * a dictionary: a line `json.loads` refuses is answered and reading goes on.
   */
  lemma ReadingStops(s: ServerState, line: string, clock: nat -> Value, decodeError: string -> string,
                     repr: Value -> string)
    ensures LineSpec(s, line, clock, decodeError, repr).1
            <==> JsonParse.Parse(line).Some? && !JsonParse.Parse(line).value.Obj?
  {
    if JsonParse.Parse(line).Some? {
      ParsedLineNotBlank(line);
    }
  }

  /**
   * `readline` on a text whose first line holds no line break returns that
   * line with its break, `\n`, `\r\n` or a lone `\r`, written as `\n`.
   */
  lemma {:induction false} ReadLineAt(line: string, ending: string, rest: string)
    requires '\n' !in line && '\r' !in line
    requires LineBreak(ending, rest)
    ensures ReadLine(line + ending + rest) == (line + "\n", rest)
    decreases |line|, 1
  {
    if line == [] {
      assert line + ending + rest == ending + rest && line + "\n" == "\n";
      BreakRead(ending, rest);
    } else {
      ReadLineAtStep(line, ending, rest);
    }
  }

  /** The step of `ReadLineAt`: the first character, then the rest of the line. */
  lemma {:induction false} ReadLineAtStep(line: string, ending: string, rest: string)
    requires line != [] && '\n' !in line && '\r' !in line
    requires LineBreak(ending, rest)
    ensures ReadLine(line + ending + rest) == (line + "\n", rest)
    decreases |line|, 0
  {
    FirstOfLine(line, ending, rest);
    ReadLineAt(line[1..], ending, rest);
    OrdinaryCharRead(line[0], line[1..] + ending + rest);
  }

  /** How a line with no break splits into its first character and the rest. */
  lemma FirstOfLine(line: string, ending: string, rest: string)
    requires line != [] && '\n' !in line && '\r' !in line
    ensures line + ending + rest == [line[0]] + (line[1..] + ending + rest)
    ensures line + "\n" == [line[0]] + (line[1..] + "\n")
    ensures line[0] != '\n' && line[0] != '\r' && '\n' !in line[1..] && '\r' !in line[1..]
  {
    assert [line[0]] + line[1..] == line;
    assert line[0] in line;
    assert forall c :: c in line[1..] ==> c in line;
  }

  /** `ending` is one line break, `\n`, `\r\n` or a `\r` that `rest` does not continue. */
  predicate LineBreak(ending: string, rest: string)
  {
    ending == "\n" || ending == "\r\n" || (ending == "\r" && (rest == [] || rest[0] != '\n'))
  }

  /** A character other than a line break belongs to the line read. */
  lemma OrdinaryCharRead(c: char, input: string)
    requires c != '\n' && c != '\r'
    ensures ReadLine([c] + input) == ([c] + ReadLine(input).0, ReadLine(input).1)
  {
    assert ([c] + input)[1..] == input;
  }

  /** A line break at the front of the input is read as the line `\n`. */
  lemma BreakRead(ending: string, rest: string)
    requires LineBreak(ending, rest)
    ensures ReadLine(ending + rest) == ("\n", rest)
  {
    var input := ending + rest;
    if ending == "\n" {
      assert input[0] == '\n' && input[1..] == rest;
    } else if ending == "\r\n" {
      assert input[0] == '\r' && input[1] == '\n' && input[2..] == rest;
    } else {
      assert input[0] == '\r' && input[1..] == rest;
      assert !(|input| > 1 && input[1] == '\n');
    }
  }

  /** A command the manager writes: a dictionary with numbers a parser could read, and not `quit`. */
  predicate ManagerCommand(v: Value)
  {
    WellFormed(v) && v.Obj? && CommandType(v) != Str("quit")
  }

  /** The commands handled one after another. */
  function CommandsSpec(s: ServerState, commands: seq<Value>, clock: nat -> Value, repr: Value -> string)
    : ServerState
    decreases |commands|
  {
    if commands == [] then s
    else CommandsSpec(CommandSpec(s, commands[0], clock, repr).0, commands[1..], clock, repr)
  }

  /** A line that parses is handled as the value it holds. */
  lemma LineOfValue(s: ServerState, line: string, v: Value, clock: nat -> Value, decodeError: string -> string,
                    repr: Value -> string)
    requires JsonParse.Parse(line) == Some(v)
    ensures LineSpec(s, line, clock, decodeError, repr)
            == (if v.Obj? then (CommandSpec(s, v, clock, repr).0, false)
                else (Send(s, "error", ErrorData("Error reading command: " + NoGet(v)), clock), true))
  {
    ParsedLineNotBlank(line);
  }

  /**
   * One written command, ended by `\n`, `\r\n` or a lone `\r`, is read back
   * as its own line and handled.
   */
  lemma ReadOneCommand(s: ServerState, command: Value, ending: string, more: string, clock: nat -> Value,
                       decodeError: string -> string, repr: Value -> string)
    requires s.running && WellFormed(command) && LineBreak(ending, more)
    ensures var line := Encode(JavaScript, command) + "\n";
      ReadLine(Encode(JavaScript, command) + ending + more) == (line, more)
      && LineSpec(s, line, clock, decodeError, repr)
         == (if command.Obj? then (CommandSpec(s, command, clock, repr).0, false)
             else (Send(s, "error", ErrorData("Error reading command: " + NoGet(command)), clock), true))
  {
    var text := Encode(JavaScript, command);
    EncodeNoNewline(JavaScript, command);
    ReadLineAt(text, ending, more);
    JsonParse.ParseEncodeLine(JavaScript, command);
    LineOfValue(s, text + "\n", command, clock, decodeError, repr);
  }

  /**
   * Everything the manager writes to stdin, one JSON text per line, is read
   * back line by line: the server handles exactly those commands, in order,
   * and reads to the end of the input.
   */
  lemma {:induction false} ManagerCommandsRead(s: ServerState, commands: seq<Value>, clock: nat -> Value,
                                               decodeError: string -> string, repr: Value -> string)
    requires s.running
    requires forall i :: 0 <= i < |commands| ==> ManagerCommand(commands[i])
    ensures ReadSpec(s, LineProtocol.Lines(JavaScript, commands), clock, decodeError, repr)
            == (CommandsSpec(s, commands, clock, repr), "")
    decreases |commands|
  {
    if commands == [] {
      assert LineProtocol.Lines(JavaScript, commands) == "";
    } else {
      FirstCommandRead(s, commands, clock, decodeError, repr);
      ManagerCommandsRead(CommandSpec(s, commands[0], clock, repr).0, commands[1..], clock, decodeError, repr);
    }
  }

  /** The first line of the manager's text is its first command; the server keeps running after it. */
  lemma FirstCommandRead(s: ServerState, commands: seq<Value>, clock: nat -> Value,
                         decodeError: string -> string, repr: Value -> string)
    requires s.running && commands != [] && ManagerCommand(commands[0])
    ensures var s2 := CommandSpec(s, commands[0], clock, repr).0;
      s2.running
      && ReadSpec(s, LineProtocol.Lines(JavaScript, commands), clock, decodeError, repr)
         == ReadSpec(s2, LineProtocol.Lines(JavaScript, commands[1..]), clock, decodeError, repr)
  {
    var c := commands[0];
    var input := LineProtocol.Lines(JavaScript, commands);
    var more := LineProtocol.Lines(JavaScript, commands[1..]);
    assert LineProtocol.EncodeAll(JavaScript, commands)[1..] == LineProtocol.EncodeAll(JavaScript, commands[1..]);
    assert input == Encode(JavaScript, c) + "\n" + more;
    assert LineBreak("\n", more);
    ReadOneCommand(s, c, "\n", more, clock, decodeError, repr);
    ReadStep(s, input, clock, decodeError, repr);
    CommandReplies(s, c, clock, repr);
  }

  /** A `quit` line ends reading: the rest of the input is left unread and nothing is printed. */
  lemma QuitEndsReading(s: ServerState, command: Value, more: string, clock: nat -> Value,
                        decodeError: string -> string, repr: Value -> string)
    requires s.running && WellFormed(command) && command.Obj? && CommandType(command) == Str("quit")
    ensures ReadSpec(s, Encode(JavaScript, command) + "\n" + more, clock, decodeError, repr)
            == (s.(running := false), more)
  {
    var input := Encode(JavaScript, command) + "\n" + more;
    assert LineBreak("\n", more);
    ReadOneCommand(s, command, "\n", more, clock, decodeError, repr);
    ReadStep(s, input, clock, decodeError, repr);
    QuitCommand(s, SessionIdOf(command), clock, repr);
  }

  /** `quit` is none of the other command types. */
  lemma QuitCommand(s: ServerState, sessionId: Value, clock: nat -> Value, repr: Value -> string)
    ensures DictSpec(s, Str("quit"), sessionId, clock, repr) == s.(running := false)
  {
    assert "quit"[0] != "stop"[0] && "quit"[0] != "start"[0] && "quit"[0] != "clear"[0] && "quit"[0] != "status"[0];
  }

  // ---------------------------------------------------------------------------
  // The manager can read everything the server prints

  /** The engine's session and every message printed hold only valid number lexemes. */
  predicate OutputWellFormed(s: ServerState)
  {
    WellFormed(s.engine.currentSession) && forall i :: 0 <= i < |s.stdout| ==> WellFormed(s.stdout[i])
  }

  /** Every timestamp the clock gives is a valid JSON value. */
  ghost predicate ClockWellFormed(clock: nat -> Value)
  {
    forall n: nat :: WellFormed(clock(n))
  }

  lemma SettingsLexemes()
    ensures IsNumberLexeme(ChunkDuration) && IsNumberLexeme(OverlapDuration)
    ensures IsNumberLexeme("16000") && IsNumberLexeme("1600")
  {
    FractionLexeme('2', '0');
    FractionLexeme('0', '5');
    IntegerLexeme("16000");
    IntegerLexeme("1600");
  }

  /** Digits without a leading zero form a number lexeme. */
  lemma IntegerLexeme(t: string)
    requires t != [] && t[0] != '0' && forall i :: 0 <= i < |t| ==> IsDigit(t[i])
    ensures IsNumberLexeme(t)
  {
    AllDigits(t);
    assert t[|t|..] == [];
  }

  lemma {:induction false} AllDigits(t: string)
    requires forall i :: 0 <= i < |t| ==> IsDigit(t[i])
    ensures LeadingDigits(t) == |t|
  {
    if t != [] {
      AllDigits(t[1..]);
    }
  }

  /** `d.f` with one digit on each side is a number lexeme. */
  lemma FractionLexeme(d: char, f: char)
    requires IsDigit(d) && IsDigit(f)
    ensures IsNumberLexeme([d, '.', f])
  {
    var t := [d, '.', f];
    assert LeadingDigits(t[1..]) == 0;
    assert LeadingDigits(t) == 1;
    assert t[1..][1..] == [f];
    assert LeadingDigits([f][1..]) == 0;
    assert LeadingDigits([f]) == 1;
  }

  lemma ReadyWellFormed()
    ensures WellFormed(ReadyData())
  {
    SettingsLexemes();
    EngineCapabilitiesWellFormed("16000", ChunkDuration);
    StreamCapabilitiesWellFormed(OverlapDuration, "1600");
    WellFormedObjAppend(EngineCapabilities("16000", ChunkDuration), StreamCapabilities(OverlapDuration, "1600"));
  }

  lemma EngineCapabilitiesWellFormed(sampleRate: string, chunkDuration: string)
    requires IsNumberLexeme(sampleRate) && IsNumberLexeme(chunkDuration)
    ensures WellFormed(Obj(EngineCapabilities(sampleRate, chunkDuration)))
  {
  }

  lemma StreamCapabilitiesWellFormed(overlapDuration: string, blocksize: string)
    requires IsNumberLexeme(overlapDuration) && IsNumberLexeme(blocksize)
    ensures WellFormed(Obj(StreamCapabilities(overlapDuration, blocksize)))
  {
  }

  /** What a lookup finds in a well-formed object is well-formed. */
  lemma GetWellFormed(ms: seq<Member>, key: string)
    requires WellFormed(Obj(ms))
    ensures Get(ms, key).Some? ==> WellFormed(Get(ms, key).value)
  {
    if Get(ms, key).Some? {
      var i :| LastWith(ms, key, i) && ms[i].val == Get(ms, key).value;
    }
  }

  lemma SendWellFormed(s: ServerState, kind: string, data: Value, clock: nat -> Value)
    requires OutputWellFormed(s) && WellFormed(data) && ClockWellFormed(clock)
    ensures OutputWellFormed(Send(s, kind, data, clock))
  {
    assert WellFormed(clock(|s.stdout|));
    var r := Send(s, kind, data, clock);
    forall i | 0 <= i < |r.stdout| ensures WellFormed(r.stdout[i]) {
      if i < |s.stdout| { assert r.stdout[i] == s.stdout[i]; }
    }
  }

  lemma DictWellFormed(s: ServerState, t: Value, sessionId: Value, clock: nat -> Value, repr: Value -> string)
    requires OutputWellFormed(s) && ClockWellFormed(clock) && WellFormed(sessionId)
    ensures OutputWellFormed(DictSpec(s, t, sessionId, clock, repr))
  {
    if t == Str("start") {
      SendWellFormed(s.(engine := StartSpec(s.engine, sessionId)), "response", StartAck(true, sessionId), clock);
    } else if t == Str("stop") {
      SendWellFormed(s.(engine := StopSpec(s.engine)), "response", Ack("stop"), clock);
    } else if t == Str("clear") {
      ClearWellFormed(s, clock);
    } else if t == Str("status") {
      EngineStatusWellFormed(s.engine);
      SendWellFormed(s, "status", EngineStatus(s.engine), clock);
    } else if t != Str("quit") {
      SendWellFormed(s, "error", ErrorData("Unknown command type: " + PyStr(t, repr)), clock);
    }
  }

  lemma EngineStatusWellFormed(e: Engine)
    requires WellFormed(e.currentSession)
    ensures WellFormed(EngineStatus(e))
  {
    SettingsLexemes();
    StatusWellFormed(e.isRecording, e.currentSession, e.modelLoaded, Device, ComputeType,
                     SampleRate, ChunkDuration, OverlapDuration, OverlapSamples);
  }

  lemma ClearWellFormed(s: ServerState, clock: nat -> Value)
    requires OutputWellFormed(s) && ClockWellFormed(clock)
    ensures OutputWellFormed(ClearReply(s, clock))
  {
    var (e, record) := ClearSpec(s.engine);
    var cleared := s.(engine := e);
    if record.Some? {
      ClearRecordWellFormed(s.engine.currentSession);
      SendWellFormed(cleared, "transcription", record.value, clock);
      SendWellFormed(Send(cleared, "transcription", record.value, clock), "response", Ack("clear"), clock);
    } else {
      SendWellFormed(cleared, "response", Ack("clear"), clock);
    }
  }

  lemma CommandWellFormed(s: ServerState, command: Value, clock: nat -> Value, repr: Value -> string)
    requires OutputWellFormed(s) && ClockWellFormed(clock) && WellFormed(command)
    ensures OutputWellFormed(CommandSpec(s, command, clock, repr).0)
  {
    if command.Obj? {
      GetWellFormed(command.members, "session_id");
      DictWellFormed(s, CommandType(command), SessionIdOf(command), clock, repr);
    }
  }

  lemma LineWellFormed(s: ServerState, line: string, clock: nat -> Value, decodeError: string -> string,
                       repr: Value -> string)
    requires OutputWellFormed(s) && ClockWellFormed(clock)
    ensures OutputWellFormed(LineSpec(s, line, clock, decodeError, repr).0)
  {
    if PyStrip(line) != "" {
      match JsonParse.Parse(line)
      case None =>
        SendWellFormed(s, "error", ErrorData("Invalid JSON command: " + decodeError(line)), clock);
      case Some(v) =>
        JsonParse.ParseWellFormed(line);
        ParsedLineWellFormed(s, line, v, clock, decodeError, repr);
    }
  }

  lemma ParsedLineWellFormed(s: ServerState, line: string, v: Value, clock: nat -> Value,
                             decodeError: string -> string, repr: Value -> string)
    requires OutputWellFormed(s) && ClockWellFormed(clock)
    requires JsonParse.Parse(line) == Some(v) && WellFormed(v)
    ensures OutputWellFormed(LineSpec(s, line, clock, decodeError, repr).0)
  {
    LineOfValue(s, line, v, clock, decodeError, repr);
    if v.Obj? {
      CommandWellFormed(s, v, clock, repr);
    } else {
      SendWellFormed(s, "error", ErrorData("Error reading command: " + NoGet(v)), clock);
    }
  }

  /** Whatever stdin holds, every line the server prints can be parsed back by the manager. */
  lemma {:induction false} ReadWellFormed(s: ServerState, input: string, clock: nat -> Value,
                                          decodeError: string -> string, repr: Value -> string)
    requires OutputWellFormed(s) && ClockWellFormed(clock)
    ensures OutputWellFormed(ReadSpec(s, input, clock, decodeError, repr).0)
    decreases |input|
  {
    if s.running {
      var (line, rest) := ReadLine(input);
      if line != [] {
        var (s2, stop) := LineSpec(s, line, clock, decodeError, repr);
        LineWellFormed(s, line, clock, decodeError, repr);
        if !stop {
          ReadWellFormed(s2, rest, clock, decodeError, repr);
        }
      }
    }
  }

  lemma ServeWellFormed(s: ServerState, input: string, clock: nat -> Value, decodeError: string -> string,
                        repr: Value -> string)
    requires OutputWellFormed(s) && ClockWellFormed(clock)
    ensures OutputWellFormed(ServeSpec(s, input, clock, decodeError, repr).0)
  {
    ReadyWellFormed();
    SendWellFormed(s, "ready", ReadyData(), clock);
    ReadWellFormed(Send(s, "ready", ReadyData(), clock), input, clock, decodeError, repr);
  }
}
