/**
 * The HTTP transcription service (backend/simple_transcription.py): a table
 * of sessions keyed by id, each with its transcript, a first-in first-out
 * queue of updates for the event stream, and an `active` flag; and the
 * routes that check their parameters before using the table.
 *
 * The speech model is an input: `recognised` is the segment texts it
 * produced, or `None` when it raised. The clock is the parameter `now`
 * (whole seconds), and the uploaded file is described by `AudioFile`.
 */
module Simple {
  import opened Wrappers
  import opened Text
  import opened Json
  import JsonParse
  import Realtime
  import opened Http

  /**
   * One entry of `active_sessions`. Each entry is a dictionary object of its
   * own; `gen` stands for that object's identity: every start makes a new
   * one, with a generation no earlier start used.
   */
  datatype Session = Session(proceedingId: Value, transcript: string, updates: seq<Value>, active: bool, gen: nat)

  /** The session table; ids are looked up as the JSON values the request carried. */
  type Table = map<Value, Session>

  /**
   * The dictionaries a later start in the same second took out of the table,
   * by generation. Only event streams opened before can still reach them.
   */
  type Detached = map<nat, Session>

  /** The temporary file an upload was saved to: whether it exists and its size in bytes. */
  datatype AudioFile = AudioFile(present: bool, size: nat)

  /** `{'type': 'clear', 'text': ''}` */
  function ClearUpdate(): Value
  {
    Obj([Member("type", Str("clear")), Member("text", Str(""))])
  }

  /** `{'type': 'transcription', 'text': text, 'full_transcript': full}` */
  function TranscriptionUpdate(text: string, full: string): Value
  {
    Obj([Member("type", Str("transcription")), Member("text", Str(text)), Member("full_transcript", Str(full))])
  }

  /** `f"session_{int(time.time())}"` */
  function SessionKey(now: nat): string
  {
    "session_" + NatToString(now)
  }

  // ---------------------------------------------------------------------------
  // The session table

  /**
   * `start_session`: a fresh entry of generation `gen` under the id made from
   * the clock. An entry already under that id leaves the table, but a stream
   * bound to it still holds it, so it joins the detached ones.
   */
  function StartSpec(t: Table, d: Detached, proceedingId: Value, now: nat, gen: nat): (Table, Detached, string)
  {
    var id := SessionKey(now);
    var key := Str(id);
    (t[key := Session(proceedingId, "", [], true, gen)], if key in t then d[t[key].gen := t[key]] else d, id)
  }

  /**
   * Python can look a key up only when it is hashable: `session_id in
   * self.active_sessions` raises `TypeError` for a list or a dictionary.
   */
  predicate Unhashable(id: Value)
  {
    id.Arr? || id.Obj?
  }

  /** `stop_session`: an existing entry is marked inactive; an unknown id changes nothing. */
  function StopSpec(t: Table, id: Value): Table
  {
    if id in t then t[id := t[id].(active := false)] else t
  }

  /** `add_update`: the update joins the back of a known session's queue. */
  function AddSpec(t: Table, id: Value, update: Value): Table
  {
    if id in t then t[id := t[id].(updates := t[id].updates + [update])] else t
  }

  /** `clear_session`: the transcript emptied and one `clear` update queued. */
  function ClearSpec(t: Table, id: Value): Table
  {
    if id in t then AddSpec(t[id := t[id].(transcript := "")], id, ClearUpdate()) else t
  }

  /** The error texts `process_audio` returns in place of a transcription. */
  const NoModel := "Whisper model not loaded yet"
  const NoSession := "Session not found"

  /**
   * `process_audio`: the new table and the returned text. Without a model or
   * for an unknown session an error text, for a missing or empty file or a
   * model that raised the empty text, all leaving the table unchanged. Else
   * the segments are joined (each followed by a space) and stripped, and a
   * non-empty text is appended to the transcript and announced.
   */
  function ProcessSpec(t: Table, modelLoaded: bool, id: Value, file: AudioFile, recognised: Option<seq<string>>)
    : (Table, string)
  {
    if !modelLoaded then (t, NoModel)
    else if id !in t then (t, NoSession)
    else if !file.present || file.size == 0 || recognised.None? then (t, "")
    else
      var text := PyStrip(Realtime.ChunkText(recognised.value));
      if text != "" then (Appended(t, id, text), text) else (t, text)
  }

  /** What the event stream delivers next. */
  datatype StreamEvent = Update(update: Value) | Heartbeat | End

  /**
   * A `get_updates` generator: `Closed` when the id was unknown when it
   * started, else bound to the entry it looked up then, named by its id and
   * generation.
   */
  datatype Stream = Closed | Bound(id: Value, gen: nat)

  /** `get_updates` looks the id up once, when the stream opens. */
  function OpenSpec(t: Table, id: Value): Stream
  {
    if id in t then Bound(id, t[id].gen) else Closed
  }

  /** The entry the stream is bound to is still the one in the table. */
  predicate Attached(t: Table, s: Stream)
  {
    s.Bound? && s.id in t && t[s.id].gen == s.gen
  }

  /** The dictionary a stream loops on: the table's entry while attached, else the detached one. */
  function Reads(t: Table, d: Detached, s: Stream): Option<Session>
  {
    if s.Closed? then None
    else if Attached(t, s) then Some(t[s.id])
    else if s.gen in d then Some(d[s.gen])
    else None
  }

  /** The tables after the stream's dictionary became `e`. */
  function Put(t: Table, d: Detached, s: Stream, e: Session): (Table, Detached)
    requires s.Bound?
  {
    if Attached(t, s) then (t[s.id := e], d) else (t, d[s.gen := e])
  }

  /**
   * One step of `get_updates`: the stream ends when its dictionary is
   * inactive (or it never had one); otherwise it delivers the front of that
   * dictionary's queue, or a heartbeat when the queue stays empty.
   */
  function NextSpec(t: Table, d: Detached, s: Stream): (Table, Detached, StreamEvent)
  {
    var e := Reads(t, d, s);
    if e.None? || !e.value.active then (t, d, End)
    else if e.value.updates == [] then (t, d, Heartbeat)
    else
      var (t2, d2) := Put(t, d, s, e.value.(updates := e.value.updates[1..]));
      (t2, d2, Update(e.value.updates[0]))
  }

  /** `n` steps of the stream. */
  function DeliverSpec(t: Table, d: Detached, s: Stream, n: nat): (Table, Detached, seq<StreamEvent>)
  {
    if n == 0 then (t, d, [])
    else
      var (t2, d2, e) := NextSpec(t, d, s);
      var (t3, d3, es) := DeliverSpec(t2, d2, s, n - 1);
      (t3, d3, [e] + es)
  }

  /** `n` heartbeats. */
  function Heartbeats(n: nat): (es: seq<StreamEvent>)
    ensures |es| == n && forall i :: 0 <= i < n ==> es[i] == Heartbeat
  {
    if n == 0 then [] else [Heartbeat] + Heartbeats(n - 1)
  }

  /** The updates as stream events. */
  function Updates(us: seq<Value>): (es: seq<StreamEvent>)
    ensures |es| == |us| && forall i :: 0 <= i < |us| ==> es[i] == Update(us[i])
  {
    if us == [] then [] else [Update(us[0])] + Updates(us[1..])
  }

  /** `data: <json.dumps(update)>` and a blank line: one server-sent event. */
  function Frame(update: Value): string
  {
    "data: " + Encode(Python, update) + "\n\n"
  }

  // ---------------------------------------------------------------------------
  // The routes

  /** A JSON answer with its status code, or an exception Flask turns into a 500 page. */
  function ErrorReply(status: nat, message: string): Reply
  {
    Reply(status, Obj([Member("error", Str(message))]))
  }

  /** `POST /api/transcription/start`. */
  function StartRouteSpec(t: Table, d: Detached, data: Value, now: nat, gen: nat): (Table, Detached, Reply)
  {
    if !data.Obj? then (t, d, Crash)
    else
      var proceedingId := Get(data.members, "proceeding_id").GetOr(Null);
      if !Truthy(proceedingId) then (t, d, ErrorReply(400, "Missing proceeding_id"))
      else
        var (t2, d2, id) := StartSpec(t, d, proceedingId, now, gen);
        (t2, d2, Reply(200, Obj([Member("success", Bool(true)), Member("session_id", Str(id)),
                             Member("message", Str("Transcription session started"))])))
  }

  /** `POST /api/transcription/stop` (`clear` is `false`) and `POST /api/transcription/clear` (`clear` is `true`). */
  function SessionRouteSpec(t: Table, data: Value, clear: bool): (Table, Reply)
  {
    if !data.Obj? then (t, Crash)
    else
      var id := Get(data.members, "session_id").GetOr(Null);
      if !Truthy(id) then (t, ErrorReply(400, "Missing session_id"))
      else if Unhashable(id) then (t, Crash)
      else if clear then
        (ClearSpec(t, id), Reply(200, Obj([Member("success", Bool(true)), Member("message", Str("Transcription cleared"))])))
      else
        (StopSpec(t, id), Reply(200, Obj([Member("success", Bool(true)),
                                          Member("message", Str("Transcription session stopped"))])))
  }

  /** The suffix of the temporary file, from the upload's content type; `.webm` by default. */
  function Suffix(contentType: Option<string>): string
  {
    if contentType.None? || contentType.value == "" then ".webm"
    else if Contains(contentType.value, "webm") then ".webm"
    else if Contains(contentType.value, "mp4") then ".mp4"
    else if Contains(contentType.value, "wav") then ".wav"
    else ".webm"
  }

  /**
   * `POST /api/transcription/audio`: the new table, the answer, and the
   * suffix of the temporary file when one was written. `saved` says whether
   * the temporary file exists after saving.
   */
  function UploadRouteSpec(t: Table, modelLoaded: bool, sessionId: Option<string>, hasAudio: bool,
                           contentType: Option<string>, saved: bool, file: AudioFile,
                           recognised: Option<seq<string>>): (Table, Reply, Option<string>)
  {
    if sessionId.None? || sessionId.value == "" then (t, ErrorReply(400, "Missing session_id"), None)
    else if !hasAudio then (t, ErrorReply(400, "No audio file"), None)
    else if !modelLoaded then (t, ErrorReply(503, NoModel), None)
    else if !saved then (t, ErrorReply(500, "Failed to save audio file"), Some(Suffix(contentType)))
    else
      var (t2, text) := ProcessSpec(t, modelLoaded, Str(sessionId.value), file, recognised);
      (t2, Reply(200, Obj([Member("success", Bool(true)), Member("text", Str(text)),
                           Member("session_id", Str(sessionId.value))])), Some(Suffix(contentType)))
  }

  // ---------------------------------------------------------------------------
  // The manager

  class SimpleTranscriptionManager {
    var sessions: Table
    /** The replaced dictionaries that streams may still loop on. */
    var detached: Detached
    /** How many sessions were started: the next generation. */
    var started: nat
    /** Whether the background load of the speech model has finished. */
    var modelLoaded: bool

    constructor()
      ensures sessions == map[] && detached == map[] && started == 0 && !modelLoaded
    {
      sessions := map[];
      detached := map[];
      started := 0;
      modelLoaded := false;
    }

    /** The background loader finished. */
    method ModelLoaded()
      modifies this
      ensures modelLoaded && sessions == old(sessions) && detached == old(detached) && started == old(started)
    {
      modelLoaded := true;
    }

    /** `start_session`: the new entry takes the next generation. */
    method StartSession(proceedingId: Value, now: nat) returns (sessionId: string)
      modifies this
      ensures (sessions, detached, sessionId) == StartSpec(old(sessions), old(detached), proceedingId, now, old(started))
      ensures started == old(started) + 1 && modelLoaded == old(modelLoaded)
    {
      sessionId := "session_" + NatToString(now);
      var key := Str(sessionId);
      if key in sessions {
        detached := detached[sessions[key].gen := sessions[key]];
      }
      sessions := sessions[key := Session(proceedingId, "", [], true, started)];
      started := started + 1;
    }

    /** `stop_session`; `raised` when the id cannot be looked up, and then nothing changes. */
    method StopSession(id: Value) returns (raised: bool)
      modifies this
      ensures raised == Unhashable(id)
      ensures sessions == (if raised then old(sessions) else StopSpec(old(sessions), id))
      ensures modelLoaded == old(modelLoaded) && detached == old(detached) && started == old(started)
    {
      if Unhashable(id) {
        return true;
      }
      raised := false;
      if id in sessions {
        sessions := sessions[id := sessions[id].(active := false)];
      }
    }

    method AddUpdate(id: Value, update: Value)
      modifies this
      ensures sessions == AddSpec(old(sessions), id, update) && modelLoaded == old(modelLoaded) && detached == old(detached) && started == old(started)
    {
      if id in sessions {
        sessions := sessions[id := sessions[id].(updates := sessions[id].updates + [update])];
      }
    }

    /** `clear_session`; `raised` when the id cannot be looked up, and then nothing changes. */
    method ClearSession(id: Value) returns (raised: bool)
      modifies this
      ensures raised == Unhashable(id)
      ensures sessions == (if raised then old(sessions) else ClearSpec(old(sessions), id))
      ensures modelLoaded == old(modelLoaded) && detached == old(detached) && started == old(started)
    {
      if Unhashable(id) {
        return true;
      }
      raised := false;
      if id in sessions {
        sessions := sessions[id := sessions[id].(transcript := "")];
        AddUpdate(id, ClearUpdate());
      }
    }

    method ProcessAudio(id: Value, file: AudioFile, recognised: Option<seq<string>>) returns (text: string)
      modifies this
      ensures (sessions, text) == ProcessSpec(old(sessions), modelLoaded, id, file, recognised)
      ensures modelLoaded == old(modelLoaded) && detached == old(detached) && started == old(started)
    {
      if !modelLoaded {
        return NoModel;
      }
      if id !in sessions {
        return NoSession;
      }
      if !file.present || file.size == 0 || recognised.None? {
        return "";
      }
      var segments := recognised.value;
      text := "";
      for i := 0 to |segments|
        invariant text == Realtime.ChunkText(segments[..i])
      {
        assert segments[..i + 1][..i] == segments[..i];
        text := text + segments[i] + " ";
      }
      assert segments[..|segments|] == segments;
      text := PyStrip(text);
      if text != "" {
        var full := sessions[id].transcript + text + " ";
        sessions := sessions[id := sessions[id].(transcript := full)];
        AddUpdate(id, TranscriptionUpdate(text, full));
      }
    }

    /** The start of `get_updates`: the id is looked up once. */
    method OpenStream(id: Value) returns (s: Stream)
      ensures s == OpenSpec(sessions, id)
    {
      if id in sessions {
        return Bound(id, sessions[id].gen);
      }
      return Closed;
    }

    /** One step of the `get_updates` generator, on the dictionary it is bound to. */
    method NextUpdate(s: Stream) returns (event: StreamEvent)
      modifies this
      ensures (sessions, detached, event) == NextSpec(old(sessions), old(detached), s)
      ensures started == old(started) && modelLoaded == old(modelLoaded)
    {
      if s.Closed? {
        return End;
      }
      var attached := s.id in sessions && sessions[s.id].gen == s.gen;
      var e: Session;
      if attached {
        e := sessions[s.id];
      } else if s.gen in detached {
        e := detached[s.gen];
      } else {
        return End;
      }
      if !e.active {
        return End;
      }
      if e.updates == [] {
        return Heartbeat;
      }
      event := Update(e.updates[0]);
      if attached {
        sessions := sessions[s.id := e.(updates := e.updates[1..])];
      } else {
        detached := detached[s.gen := e.(updates := e.updates[1..])];
      }
    }

    method StartRoute(data: Value, now: nat) returns (reply: Reply)
      modifies this
      ensures (sessions, detached, reply) == StartRouteSpec(old(sessions), old(detached), data, now, old(started))
      ensures started == (if reply.Reply? && reply.status == 200 then old(started) + 1 else old(started))
      ensures modelLoaded == old(modelLoaded)
    {
      if !data.Obj? {
        return Crash;
      }
      var proceedingId := Get(data.members, "proceeding_id").GetOr(Null);
      if !Truthy(proceedingId) {
        return ErrorReply(400, "Missing proceeding_id");
      }
      var id := StartSession(proceedingId, now);
      reply := Reply(200, Obj([Member("success", Bool(true)), Member("session_id", Str(id)),
                               Member("message", Str("Transcription session started"))]));
    }

    method StopRoute(data: Value) returns (reply: Reply)
      modifies this
      ensures (sessions, reply) == SessionRouteSpec(old(sessions), data, false) && modelLoaded == old(modelLoaded) && detached == old(detached) && started == old(started)
    {
      if !data.Obj? {
        return Crash;
      }
      var id := Get(data.members, "session_id").GetOr(Null);
      if !Truthy(id) {
        return ErrorReply(400, "Missing session_id");
      }
      var raised := StopSession(id);
      if raised {
        return Crash;
      }
      reply := Reply(200, Obj([Member("success", Bool(true)), Member("message", Str("Transcription session stopped"))]));
    }

    method ClearRoute(data: Value) returns (reply: Reply)
      modifies this
      ensures (sessions, reply) == SessionRouteSpec(old(sessions), data, true) && modelLoaded == old(modelLoaded) && detached == old(detached) && started == old(started)
    {
      if !data.Obj? {
        return Crash;
      }
      var id := Get(data.members, "session_id").GetOr(Null);
      if !Truthy(id) {
        return ErrorReply(400, "Missing session_id");
      }
      var raised := ClearSession(id);
      if raised {
        return Crash;
      }
      reply := Reply(200, Obj([Member("success", Bool(true)), Member("message", Str("Transcription cleared"))]));
    }

    method UploadRoute(sessionId: Option<string>, hasAudio: bool, contentType: Option<string>, saved: bool,
                       file: AudioFile, recognised: Option<seq<string>>) returns (reply: Reply, suffix: Option<string>)
      modifies this
      ensures (sessions, reply, suffix)
              == UploadRouteSpec(old(sessions), modelLoaded, sessionId, hasAudio, contentType, saved, file, recognised)
      ensures modelLoaded == old(modelLoaded) && detached == old(detached) && started == old(started)
    {
      suffix := None;
      if sessionId.None? || sessionId.value == "" {
        return ErrorReply(400, "Missing session_id"), None;
      }
      if !hasAudio {
        return ErrorReply(400, "No audio file"), None;
      }
      if !modelLoaded {
        return ErrorReply(503, NoModel), None;
      }
      var s := ".webm";
      if contentType.Some? && contentType.value != "" {
        if Contains(contentType.value, "webm") {
          s := ".webm";
        } else if Contains(contentType.value, "mp4") {
          s := ".mp4";
        } else if Contains(contentType.value, "wav") {
          s := ".wav";
        }
      }
      suffix := Some(s);
      if !saved {
        return ErrorReply(500, "Failed to save audio file"), suffix;
      }
      var text := ProcessAudio(Str(sessionId.value), file, recognised);
      reply := Reply(200, Obj([Member("success", Bool(true)), Member("text", Str(text)),
                               Member("session_id", Str(sessionId.value))]));
    }
  }

  // ---------------------------------------------------------------------------
  // Properties

  /** Only the entry at `id` may differ between the two tables, and both hold the same ids. */
  predicate OnlyAt(t: Table, t2: Table, id: Value)
  {
    t2.Keys == t.Keys && forall k :: k in t && k != id ==> t2[k] == t[k]
  }

  /**
   * `start_session` adds a fresh, active entry with an empty transcript and
   * queue under the returned id and keeps every other entry.
   */
  lemma StartCreates(t: Table, d: Detached, proceedingId: Value, now: nat, gen: nat)
    ensures var (t2, d2, id) := StartSpec(t, d, proceedingId, now, gen);
      t2.Keys == t.Keys + {Str(id)} && t2[Str(id)] == Session(proceedingId, "", [], true, gen)
      && (forall k :: k in t && k != Str(id) ==> t2[k] == t[k])
      && d2 == (if Str(id) in t then d[t[Str(id)].gen := t[Str(id)]] else d)
      && id[..8] == "session_"
  {
  }

  /**
   * Two sessions started in the same second share an id: the second replaces
   * the first in the table, and the first is left to the streams bound to it.
   */
  lemma SameSecondReplaces(t: Table, d: Detached, first: Value, second: Value, now: nat, gen1: nat, gen2: nat)
    ensures var (t1, d1, _) := StartSpec(t, d, first, now, gen1);
      var (t2, d2, _) := StartSpec(t1, d1, second, now, gen2);
      t2 == StartSpec(t, d, second, now, gen2).0 && gen1 in d2 && d2[gen1] == Session(first, "", [], true, gen1)
  {
    var k := Str(SessionKey(now));
    var a := t[k := Session(first, "", [], true, gen1)][k := Session(second, "", [], true, gen2)];
    var b := t[k := Session(second, "", [], true, gen2)];
    assert a.Keys == b.Keys;
    assert forall j :: j in a ==> a[j] == b[j];
    assert a == b;
  }

  /** Sessions started in different seconds get different ids. */
  lemma DistinctSeconds(now1: nat, now2: nat)
    requires now1 != now2
    ensures SessionKey(now1) != SessionKey(now2)
  {
    if SessionKey(now1) == SessionKey(now2) {
      var a, b := NatToString(now1), NatToString(now2);
      assert a == SessionKey(now1)[8..] && b == SessionKey(now2)[8..];
      NatToStringInjective(now1, now2);
    }
  }

  /** `stop_session` keeps the entry, transcript and queue and only clears `active`; an unknown id changes nothing. */
  lemma StopKeepsEntry(t: Table, id: Value)
    ensures var t2 := StopSpec(t, id);
      OnlyAt(t, t2, id)
      && (id in t ==> !t2[id].active && t2[id].transcript == t[id].transcript
                      && t2[id].updates == t[id].updates && t2[id].proceedingId == t[id].proceedingId)
      && (id !in t ==> t2 == t)
  {
  }

  /**
   * `clear_session` on a known session empties the transcript and queues
   * exactly one more update, the `clear` one, behind those already queued;
   * an unknown id changes nothing.
   */
  lemma ClearQueuesOne(t: Table, id: Value)
    ensures var t2 := ClearSpec(t, id);
      OnlyAt(t, t2, id)
      && (id in t ==>
            t2[id].transcript == "" && t2[id].active == t[id].active
            && |t2[id].updates| == |t[id].updates| + 1 && t2[id].updates[..|t[id].updates|] == t[id].updates
            && t2[id].updates[|t[id].updates|] == ClearUpdate())
      && (id !in t ==> t2 == t)
  {
  }

  /** Without a model, or for an unknown session, `process_audio` answers an error text and changes nothing. */
  lemma ProcessRefuses(t: Table, modelLoaded: bool, id: Value, file: AudioFile, recognised: Option<seq<string>>)
    requires !modelLoaded || id !in t
    ensures ProcessSpec(t, modelLoaded, id, file, recognised) == (t, if !modelLoaded then NoModel else NoSession)
  {
  }

  /**
   * A transcription on a known session: the returned text is the stripped
   * join of the segments, empty exactly when every segment is blank; a
   * non-empty text extends the transcript by the text and one space, and
   * one `transcription` update carrying the new transcript joins the back
   * of the queue. The old transcript is always a prefix of the new one.
   */
  lemma ProcessAppends(t: Table, id: Value, file: AudioFile, segments: seq<string>)
    requires id in t && file.present && file.size > 0
    ensures var (t2, text) := ProcessSpec(t, true, id, file, Some(segments));
      OnlyAt(t, t2, id)
      && (text == "" <==> forall j :: 0 <= j < |segments| ==> Realtime.Blank(segments[j]))
      && t[id].transcript <= t2[id].transcript
      && (text != "" ==>
            t2[id].transcript == t[id].transcript + text + " "
            && t2[id].updates == t[id].updates + [TranscriptionUpdate(text, t2[id].transcript)]
            && t2[id].active == t[id].active)
      && (text == "" ==> t2 == t)
  {
    Realtime.ChunkTextBlank(segments);
    var text := PyStrip(Realtime.ChunkText(segments));
    ProcessResult(t, id, file, segments);
    if text != "" {
      AppendedEntry(t, id, text);
    }
  }

  /** `process_audio` with a model, a known session and a non-empty file: the text recognised, appended when not blank. */
  lemma ProcessResult(t: Table, id: Value, file: AudioFile, segments: seq<string>)
    requires id in t && file.present && file.size > 0
    ensures var text := PyStrip(Realtime.ChunkText(segments));
      ProcessSpec(t, true, id, file, Some(segments))
      == if text != "" then (Appended(t, id, text), text) else (t, text)
  {
  }

  /** The table after `text` is appended to a known session's transcript and announced. */
  function Appended(t: Table, id: Value, text: string): Table
    requires id in t
  {
    var full := t[id].transcript + text + " ";
    AddSpec(t[id := t[id].(transcript := full)], id, TranscriptionUpdate(text, full))
  }

  /** Appending changes only that session: its transcript grows by the text and a space, and one update is queued. */
  lemma AppendedEntry(t: Table, id: Value, text: string)
    requires id in t
    ensures var t2 := Appended(t, id, text);
      OnlyAt(t, t2, id)
      && t2[id].transcript == t[id].transcript + text + " " && t[id].transcript <= t2[id].transcript
      && t2[id].updates == t[id].updates + [TranscriptionUpdate(text, t2[id].transcript)]
      && t2[id].active == t[id].active
  {
  }

  /** A stream reads the entry its id named when it opened; an unknown id gives a stream that ends at once. */
  lemma OpenedStreamReads(t: Table, d: Detached, id: Value)
    ensures var s := OpenSpec(t, id);
      Reads(t, d, s) == (if id in t then Some(t[id]) else None)
      && (id !in t ==> NextSpec(t, d, s) == (t, d, End))
  {
  }

  /**
   * While its dictionary is active, the stream delivers what was queued in
   * the order it was queued, and removes each delivered update from that
   * dictionary's queue.
   */
  lemma {:induction false} DeliverInOrder(t: Table, d: Detached, s: Stream, n: nat)
    requires Reads(t, d, s).Some? && Reads(t, d, s).value.active && n <= |Reads(t, d, s).value.updates|
    ensures var e := Reads(t, d, s).value;
      var (t2, d2, es) := DeliverSpec(t, d, s, n);
      (t2, d2) == Put(t, d, s, e.(updates := e.updates[n..])) && es == Updates(e.updates[..n])
  {
    var e := Reads(t, d, s).value;
    var q := e.updates;
    if n == 0 {
      assert e.(updates := q[0..]) == e;
      PutSame(t, d, s);
    } else {
      var (t1, d1) := Put(t, d, s, e.(updates := q[1..]));
      assert NextSpec(t, d, s) == (t1, d1, Update(q[0]));
      PutReads(t, d, s, e.(updates := q[1..]));
      DeliverInOrder(t1, d1, s, n - 1);
      assert q[1..][n - 1..] == q[n..];
      PutTwice(t, d, s, e.(updates := q[1..]), e.(updates := q[n..]));
      var es := [Update(q[0])] + Updates(q[1..][..n - 1]);
      var us := Updates(q[..n]);
      assert |es| == |us| && forall i :: 0 <= i < n ==> es[i] == us[i];
      assert es == us;
    }
  }

  /** Writing back what a stream reads changes nothing. */
  lemma PutSame(t: Table, d: Detached, s: Stream)
    requires Reads(t, d, s).Some?
    ensures Put(t, d, s, Reads(t, d, s).value) == (t, d)
  {
    if Attached(t, s) {
      assert t[s.id := t[s.id]] == t;
    } else {
      assert d[s.gen := d[s.gen]] == d;
    }
  }

  /** After a write of an entry of the same generation, the stream reads what was written. */
  lemma PutReads(t: Table, d: Detached, s: Stream, e: Session)
    requires Reads(t, d, s).Some? && e.gen == Reads(t, d, s).value.gen
    ensures var (t2, d2) := Put(t, d, s, e); Reads(t2, d2, s) == Some(e) && (Attached(t2, s) <==> Attached(t, s))
  {
  }

  /** A second write of a stream's dictionary overwrites the first. */
  lemma PutTwice(t: Table, d: Detached, s: Stream, e1: Session, e2: Session)
    requires Reads(t, d, s).Some? && e1.gen == Reads(t, d, s).value.gen
    ensures var (t1, d1) := Put(t, d, s, e1); Put(t1, d1, s, e2) == Put(t, d, s, e2)
  {
    var (t1, d1) := Put(t, d, s, e1);
    if Attached(t, s) {
      assert Attached(t1, s) && d1 == d;
      var a := t[s.id := e1][s.id := e2];
      assert a.Keys == t[s.id := e2].Keys && forall j :: j in a ==> a[j] == t[s.id := e2][j];
      assert a == t[s.id := e2];
      assert Put(t1, d1, s, e2) == (a, d);
      assert Put(t, d, s, e2) == (t[s.id := e2], d);
    } else {
      assert t1 == t && !Attached(t1, s);
      var a := d[s.gen := e1][s.gen := e2];
      assert a.Keys == d[s.gen := e2].Keys && forall j :: j in a ==> a[j] == d[s.gen := e2][j];
      assert Put(t1, d1, s, e2) == (t, a);
      assert a == d[s.gen := e2];
      assert Put(t, d, s, e2) == (t, d[s.gen := e2]);
    }
  }

  /**
   * An update added to the active session a stream is attached to comes out
   * after every update queued before it, and then the queue is empty.
   */
  lemma AddedComesLast(t: Table, d: Detached, s: Stream, update: Value)
    requires Attached(t, s) && t[s.id].active
    ensures var q := t[s.id].updates;
      var (t2, d2, es) := DeliverSpec(AddSpec(t, s.id, update), d, s, |q| + 1);
      es == Updates(q) + [Update(update)] && d2 == d && s.id in t2 && t2[s.id].updates == []
      && NextSpec(t2, d2, s).2 == Heartbeat
  {
    var q := t[s.id].updates;
    var t1 := AddSpec(t, s.id, update);
    assert Reads(t1, d, s) == Some(t1[s.id]);
    DeliverInOrder(t1, d, s, |q| + 1);
    assert (q + [update])[..|q| + 1] == q + [update];
    assert (q + [update])[|q| + 1..] == [];
    var es, fs := Updates(q + [update]), Updates(q) + [Update(update)];
    assert |es| == |fs| && forall i :: 0 <= i < |es| ==> es[i] == fs[i];
  }

  /** The stream of a session stopped while it is attached ends at once, and so does a stream opened on an unknown id. */
  lemma StoppedStreamEnds(t: Table, d: Detached, s: Stream)
    requires Attached(t, s) || s.Closed?
    ensures var t2 := if s.Bound? then StopSpec(t, s.id) else t; NextSpec(t2, d, s) == (t2, d, End)
  {
  }

  /** A stream whose dictionary is active with an empty queue sends heartbeats for as long as it is read alone. */
  lemma {:induction false} HeartbeatsForever(t: Table, d: Detached, s: Stream, n: nat)
    requires Reads(t, d, s).Some? && Reads(t, d, s).value.active && Reads(t, d, s).value.updates == []
    ensures DeliverSpec(t, d, s, n) == (t, d, Heartbeats(n))
  {
    if n > 0 {
      assert NextSpec(t, d, s) == (t, d, Heartbeat);
      HeartbeatsForever(t, d, s, n - 1);
    }
  }

  /**
   * `stop_session`, `clear_session` and `add_update` reach an entry only
   * through the table, so what a detached stream reads is out of their reach.
   */
  lemma TableOpsMissDetached(t: Table, d: Detached, s: Stream, id: Value, update: Value)
    requires s.Bound? && !Attached(t, s)
    ensures Reads(StopSpec(t, id), d, s) == Reads(t, d, s)
    ensures Reads(ClearSpec(t, id), d, s) == Reads(t, d, s)
    ensures Reads(AddSpec(t, id, update), d, s) == Reads(t, d, s)
  {
  }

  /**
   * A stream opened on a session that a start in the same second then
   * replaced stays bound to the replaced dictionary: an update added and a
   * stop sent under the shared id go to the new session, and the stream
   * sends heartbeats without end.
   */
  lemma SameSecondStreamOutlivesStop(t: Table, d: Detached, first: Value, second: Value, now: nat,
                                     gen1: nat, gen2: nat, update: Value, n: nat)
    requires gen1 != gen2
    ensures var (t1, d1, id) := StartSpec(t, d, first, now, gen1);
      var s := OpenSpec(t1, Str(id));
      var (t2, d2, _) := StartSpec(t1, d1, second, now, gen2);
      var t3 := StopSpec(AddSpec(t2, Str(id), update), Str(id));
      DeliverSpec(t3, d2, s, n).2 == Heartbeats(n)
      && t3[Str(id)] == Session(second, "", [update], false, gen2)
  {
    var (t1, d1, id) := StartSpec(t, d, first, now, gen1);
    var s := OpenSpec(t1, Str(id));
    var (t2, d2, _) := StartSpec(t1, d1, second, now, gen2);
    var t3 := StopSpec(AddSpec(t2, Str(id), update), Str(id));
    assert !Attached(t2, s);
    TableOpsMissDetached(t2, d2, s, Str(id), update);
    TableOpsMissDetached(AddSpec(t2, Str(id), update), d2, s, Str(id), update);
    assert Reads(t3, d2, s) == Some(Session(first, "", [], true, gen1));
    HeartbeatsForever(t3, d2, s, n);
  }

  /**
   * Each frame of the stream is `data: `, one line of JSON that reads back
   * as the update, and a blank line.
   */
  lemma FrameReadBack(update: Value)
    requires WellFormed(update)
    ensures var f := Frame(update);
      |f| >= 8 && f[..6] == "data: " && f[|f| - 2..] == "\n\n"
      && '\n' !in f[6..|f| - 2] && JsonParse.Parse(f[6..|f| - 2]) == Some(update)
  {
    var f := Frame(update);
    var body := Encode(Python, update);
    assert f[6..|f| - 2] == body;
    EncodeNoNewline(Python, update);
    JsonParse.ParseEncodeLine(Python, update);
    JsonParse.EncodeStart(Python, update);
  }

  /**
   * The suffix follows the content type: `.mp4` exactly when it names mp4
   * and not webm, `.wav` exactly when it names wav and neither of the
   * others, and `.webm` in every other case, including no content type.
   */
  lemma SuffixChoice(contentType: Option<string>)
    ensures var s := Suffix(contentType);
      var named := (w: string) => contentType.Some? && Contains(contentType.value, w);
      (s == ".mp4" <==> named("mp4") && !named("webm"))
      && (s == ".wav" <==> named("wav") && !named("webm") && !named("mp4"))
      && (s == ".webm" <==> !(named("mp4") && !named("webm")) && !(named("wav") && !named("webm") && !named("mp4")))
  {
    if contentType.Some? && contentType.value == "" {
      assert !Contains("", "webm") && !Contains("", "mp4") && !Contains("", "wav");
    }
  }

  /**
   * The start route answers 400 exactly when the body is a dictionary whose
   * `proceeding_id` is missing or falsy, and then the table is unchanged;
   * on 200 the returned id names a fresh active session.
   */
  lemma StartRouteChecks(t: Table, d: Detached, data: Value, now: nat, gen: nat)
    ensures var (t2, d2, r) := StartRouteSpec(t, d, data, now, gen);
      (r.Reply? && r.status == 400 <==> data.Obj? && !Truthy(Get(data.members, "proceeding_id").GetOr(Null)))
      && (r.Crash? <==> !data.Obj?)
      && (!(r.Reply? && r.status == 200) ==> t2 == t && d2 == d)
      && (r.Reply? && r.status == 200 ==>
            var id := SessionKey(now);
            Str(id) in t2 && t2[Str(id)].active && t2[Str(id)].updates == [] && t2[Str(id)].gen == gen
            && r.body.Obj? && |r.body.members| == 3 && r.body.members[1] == Member("session_id", Str(id)))
  {
  }

  /**
   * The stop and clear routes answer 400 exactly when the body lacks a truthy
   * `session_id`, fail exactly when the body is not a dictionary or the id is
   * a list or a dictionary, and change nothing unless they answer 200, when
   * they clear or stop that session.
   */
  lemma SessionRouteChecks(t: Table, data: Value, clear: bool)
    ensures var (t2, r) := SessionRouteSpec(t, data, clear);
      var id := if data.Obj? then Get(data.members, "session_id").GetOr(Null) else Null;
      (r.Reply? && r.status == 400 <==> data.Obj? && !Truthy(id))
      && (r.Crash? <==> !data.Obj? || (Truthy(id) && Unhashable(id)))
      && (!(r.Reply? && r.status == 200) ==> t2 == t)
      && (r.Reply? && r.status == 200 ==> t2 == if clear then ClearSpec(t, id) else StopSpec(t, id))
  {
  }

  /**
   * The upload route answers 400 exactly when the session id or the audio is
   * missing, 503 without a model, 500 when the file was not saved; only a
   * 200 answer can change the table.
   */
  lemma UploadRouteChecks(t: Table, modelLoaded: bool, sessionId: Option<string>, hasAudio: bool,
                          contentType: Option<string>, saved: bool, file: AudioFile, recognised: Option<seq<string>>)
    ensures var (t2, r, suffix) := UploadRouteSpec(t, modelLoaded, sessionId, hasAudio, contentType, saved, file,
                                                   recognised);
      var named := sessionId.Some? && sessionId.value != "";
      r.Reply?
      && (r.status == 400 <==> !named || !hasAudio)
      && (r.status == 503 <==> named && hasAudio && !modelLoaded)
      && (r.status == 500 <==> named && hasAudio && modelLoaded && !saved)
      && (r.status != 200 ==> t2 == t)
      && (suffix.Some? <==> named && hasAudio && modelLoaded)
  {
  }

  /**
   * An upload for an unknown session is answered 200 with `success: True`
   * and the text `Session not found` in place of a transcription.
   */
  lemma UnknownSessionUpload(t: Table, sessionId: string, contentType: Option<string>, file: AudioFile,
                             recognised: Option<seq<string>>)
    requires sessionId != "" && Str(sessionId) !in t
    ensures UploadRouteSpec(t, true, Some(sessionId), true, contentType, true, file, recognised).1
            == Reply(200, Obj([Member("success", Bool(true)), Member("text", Str(NoSession)),
                               Member("session_id", Str(sessionId))]))
  {
  }
}
