/**
 * The manager and the worker together: what the manager writes to the
 * worker's stdin is what the worker reads, and what the worker prints is
 * what the manager's stdout handler sees.
 */
module Protocol {
  import opened Wrappers
  import opened Json
  import LineProtocol
  import opened Manager
  import opened Server

  /** A command one of the manager's session operations writes. */
  ghost predicate ManagerSends(v: Value)
  {
    (exists sessionId: JsValue :: v == StartCommand(sessionId) && (sessionId.Val? ==> WellFormed(sessionId.v)))
    || v == Command("stop") || v == Command("clear") || v == Command("status")
  }

  /** The `type` of a start command, and its session as the worker reads it: `default` when the manager passed `undefined`. */
  lemma StartCommandRead(sessionId: JsValue)
    ensures var c := StartCommand(sessionId);
      c.Obj? && CommandType(c) == Str("start")
      && SessionIdOf(c) == if sessionId.Val? then sessionId.v else Str("default")
  {
    var ms := StartCommand(sessionId).members;
    GetAt(ms, 0);
    if sessionId.Val? {
      GetAt(ms, 1);
    }
  }

  lemma BareCommandRead(t: string)
    ensures CommandType(Command(t)) == Str(t)
  {
    GetAt(Command(t).members, 0);
  }

  lemma BareIsCommand(t: string)
    requires t != "quit"
    ensures ManagerCommand(Command(t))
  {
    BareCommandRead(t);
    assert WellFormed(Str(t));
  }

  lemma StartIsCommand(sessionId: JsValue)
    requires sessionId.Val? ==> WellFormed(sessionId.v)
    ensures ManagerCommand(StartCommand(sessionId))
  {
    StartCommandRead(sessionId);
    assert "start"[0] != "quit"[0];
  }

  /** Every command the manager writes is a dictionary the worker can parse, and none is `quit`. */
  lemma SentIsCommand(v: Value)
    requires ManagerSends(v)
    ensures ManagerCommand(v)
  {
    if v == Command("stop") {
      assert "stop"[0] != "quit"[0];
      BareIsCommand("stop");
    } else if v == Command("clear") {
      assert "clear"[0] != "quit"[0];
      BareIsCommand("clear");
    } else if v == Command("status") {
      assert "status"[0] != "quit"[0];
      BareIsCommand("status");
    } else {
      var sessionId :| v == StartCommand(sessionId) && (sessionId.Val? ==> WellFormed(sessionId.v));
      StartIsCommand(sessionId);
    }
  }

  /**
   * The worker reading the manager's stdin handles exactly the commands the
   * manager sent, in order, and reads to the end.
   */
  lemma CommandsReachWorker(st: ManagerState, sent: seq<Value>, s: ServerState, clock: nat -> Value,
                            decodeError: string -> string, repr: Value -> string)
    requires st.stdin == LineProtocol.Lines(JavaScript, sent) && s.running
    requires forall i :: 0 <= i < |sent| ==> ManagerSends(sent[i])
    ensures ReadSpec(s, st.stdin, clock, decodeError, repr) == (CommandsSpec(s, sent, clock, repr), "")
  {
    forall i | 0 <= i < |sent| ensures ManagerCommand(sent[i]) {
      SentIsCommand(sent[i]);
    }
    ManagerCommandsRead(s, sent, clock, decodeError, repr);
  }

  /**
   * `startTranscription(sessionId)` reaches the worker as a start of the same
   * session; a session of `undefined` becomes the worker's `default` session.
   */
  lemma StartReachesWorker(s: ServerState, sessionId: JsValue, clock: nat -> Value, repr: Value -> string)
    ensures var r := CommandSpec(s, StartCommand(sessionId), clock, repr).0;
      r.engine.isRecording
      && r.engine.currentSession == (if sessionId.Val? then sessionId.v else Str("default"))
  {
    StartCommandRead(sessionId);
  }

  /** The messages dispatched in order: the running flag becomes true exactly when one is `ready`. */
  lemma {:induction false} DispatchAllEffects(st: ManagerState, messages: seq<Value>)
    ensures var m := DispatchAll(st, messages);
      m.isRunning == (st.isRunning || exists i :: 0 <= i < |messages| && HasType(messages[i], "ready"))
      && m.session == st.session && m.stdin == st.stdin && m.hasProcess == st.hasProcess
  {
    if messages != [] {
      var n := |messages| - 1;
      var init := messages[..n];
      DispatchAllEffects(st, init);
      DispatchEffects(DispatchAll(st, init), messages[n]);
      if exists i :: 0 <= i < |messages| && HasType(messages[i], "ready") {
        var i :| 0 <= i < |messages| && HasType(messages[i], "ready");
        if i < n {
          assert init[i] == messages[i];
        }
      }
      if exists i :: 0 <= i < |init| && HasType(init[i], "ready") {
        var i :| 0 <= i < |init| && HasType(init[i], "ready");
        assert messages[i] == init[i];
      }
    }
  }

  /**
   * Whatever the worker reads, once the manager's stdout handler has received
   * everything the worker printed, the manager is running; its session and
   * what it wrote are untouched.
   */
  lemma WorkerOutputOpensManager(st: ManagerState, s: ServerState, input: string, clock: nat -> Value,
                                 decodeError: string -> string, repr: Value -> string)
    requires OutputWellFormed(s) && ClockWellFormed(clock)
    ensures var out := ServeSpec(s, input, clock, decodeError, repr).0.stdout;
      var m := ChunkSpec(st, LineProtocol.Lines(Python, out));
      m.isRunning && m.session == st.session && m.stdin == st.stdin && m.hasProcess == st.hasProcess
  {
    var out := ServeSpec(s, input, clock, decodeError, repr).0.stdout;
    ServeWellFormed(s, input, clock, decodeError, repr);
    WholeLinesChunk(st, out);
    ReadyFirst(s, input, clock, decodeError, repr);
    MessageFields("ready", ReadyData(), clock(|s.stdout|));
    assert HasType(out[|s.stdout|], "ready");
    DispatchAllEffects(st, out);
  }
}
