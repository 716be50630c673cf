# Courtroom transcription control path, in Dafny

This project models the part of the courtroom transcription system that
carries sessions and text. Audio hardware, the speech model and the operating
system are outside it. The model covers:

- **The Node side's `TranscriptionManager`** (`transcription_manager.dfy`).
  It starts and stops the Python worker and writes one JSON command per line
  to the worker's stdin. It splits the worker's stdout chunks at line breaks
  and dispatches each message. It also keeps the transcript buffer and the
  session.
- **The worker's `TranscriptionServer`** (`transcription_server.dfy`). It
  prints a `ready` message and then reads commands line by line. It answers
  each command with one `{type, data, timestamp}` line.
- **The worker's engine, `RealtimeTranscriber`** (`realtime_transcriber.dfy`).
  This covers sessions, the transcript buffer, and the chunk-and-overlap step
  of the processing loop.
- **The Flask side's `SimpleTranscriptionManager` and its routes**
  (`simple_transcription.dfy`). This covers the session table and the
  per-session update queues that the event stream delivers. A stream stays
  bound to the session dictionary it looked up when it opened, even after a
  start in the same second replaces that dictionary in the table. It also
  covers the parameter checks and the file-suffix choice of the upload route.
- **The standalone `RealTimeWhisperTranscriber` and its process-wide
  instance** (`transcribe.py`, modelled in `transcribe.dfy`).
- **The `POST /login` decision of the backend** (`login.dfy`).

Shared modules:

- `wrappers.dfy`: `Option`.
- `text.dfy`:
  - JavaScript `split` and `trim`;
  - Python `strip`;
  - ASCII upper-casing;
  - decimal rendering.
- `json.dfy`: JSON values, with last-wins lookup. It has both serialisers:
  the compact one of `JSON.stringify` and the spaced, ASCII-escaped one of
  `json.dumps`.
- `json_parse.dfy`: a reader that accepts what either serialiser writes,
  with the round trip proved.
- `line_protocol.dfy`: newline-delimited framing.
- `http.dfy`: a route's reply.
- `protocol.dfy`: the manager and the worker put together.

Objects whose methods update fields in place are classes. Each class method
is proved against a function on a state value. For example, `OnStdout`
ensures `State() == ChunkSpec(old(State()), chunk)`. The properties are then
proved about those functions.

Every outside answer is a parameter of the operation that receives it:

| outside answer | parameter |
|---|---|
| the clock | `clock`, `now`, `timestamp` |
| the speech recogniser's segment texts | `recognise`, `recognised` |
| Python's `repr` and `json.JSONDecodeError` texts | `repr`, `decodeError` |
| whether a stream opened | `opens` |
| whether the recording threads and the stream started | `starts` |
| the account collections and bcrypt | `clerks`, `judges`, `checkpw` |

## Model

| member | source | states |
|---|---|---|
| Manager.Prop | backend/transcriptionManager.js:181-188 | reading a property fails exactly on `null`/`undefined`; otherwise it is the object's last member under that key |
| Manager.TranscriptionManager.constructor | backend/transcriptionManager.js:10-21 | a new manager: no process, not running, no session, empty buffer, no callbacks |
| Manager.TranscriptionManager.NotifyError | backend/transcriptionManager.js:71-73 | the error callback, when one is set, is called once with the message; nothing else changes |
| Manager.TranscriptionManager.StartServer | backend/transcriptionManager.js:26-88 | while running, answers true and changes nothing; otherwise a spawn failure answers false and notifies, and a spawn holds the process and answers true without becoming running |
| Manager.TranscriptionManager.StopServer | backend/transcriptionManager.js:93-100 | with a process: drops it and clears running; without one: no change |
| Manager.TranscriptionManager.OnExit | backend/transcriptionManager.js:60-64 | the `close` handler clears running and drops the process |
| Manager.TranscriptionManager.OnProcessError | backend/transcriptionManager.js:67-74 | the `error` handler clears running, notifies the error callback and drops the process |
| Manager.TranscriptionManager.SendCommand | backend/transcriptionManager.js:105-119 | writes `JSON.stringify(command)` and one line break exactly when a process is present and running, and answers whether it wrote |
| Manager.TranscriptionManager.HandleTranscription | backend/transcriptionManager.js:180-202 | the new state is the buffer rule applied to the event |
| Manager.TranscriptionManager.HandleOutput | backend/transcriptionManager.js:124-175 | a line that does not parse changes nothing; otherwise the message is dispatched on its `type` |
| Manager.TranscriptionManager.OnStdout | backend/transcriptionManager.js:45-52 | the chunk is split at every line break, and its non-blank pieces are handled in order |
| Manager.TranscriptionManager.StartTranscription | backend/transcriptionManager.js:207-218 | refused unless running; otherwise sets the session and sends a start command, which carries `session_id` only when the session is defined |
| Manager.TranscriptionManager.StopTranscription | backend/transcriptionManager.js:223-232 | refused unless running; otherwise sends `stop` and sets the session to `null` |
| Manager.TranscriptionManager.ClearTranscript | backend/transcriptionManager.js:237-245 | refused unless running; otherwise only sends `clear` |
| Manager.TranscriptionManager.GetStatus | backend/transcriptionManager.js:250-258 | refused unless running; otherwise only sends `status` |
| Manager.TranscriptionManager.OnTranscription | backend/transcriptionManager.js:263-265 | sets the transcription callback and nothing else |
| Manager.TranscriptionManager.OnError | backend/transcriptionManager.js:270-272 | sets the error callback and nothing else |
| Manager.TranscriptionManager.OnStatus | backend/transcriptionManager.js:277-279 | sets the status callback and nothing else |
| Manager.TranscriptionManager.OnReady | backend/transcriptionManager.js:284-286 | sets the ready callback and nothing else |
| Manager.TranscriptionManager.GetTranscriptBuffer | backend/transcriptionManager.js:291-293 | answers the buffer and changes nothing |
| Manager.TranscriptionManager.IsTranscriptionRunning | backend/transcriptionManager.js:298-300 | running and the session is not `null` (`undefined` counts as a session) |
| Manager.TranscriptionEffects | backend/transcriptionManager.js:180-202 | the transcription handler changes only the buffer and the record of callback calls |
| Manager.DispatchEffects | backend/transcriptionManager.js:129-171 | running becomes true exactly on `ready` and never false; session, process, stdin and callbacks never change; only `transcription` can touch the buffer |
| Manager.DispatchOthers | backend/transcriptionManager.js:143-170 | `error`, `status_response`, the acknowledgements and unknown types only call callbacks |
| Manager.KindIs | backend/transcriptionManager.js:127-129 | the `type` the switch reads is `t` exactly when the message is an object typed `t` |
| Manager.LineEffects | backend/transcriptionManager.js:124-175 | per stdout line: running becomes true exactly on a `ready` line; a line that is not `transcription` leaves the buffer alone |
| Manager.StartServerWhileRunning | backend/transcriptionManager.js:27-30 | `startServer` while running answers true and changes nothing |
| Manager.StartServerNotReady | backend/transcriptionManager.js:26-88 | `startServer` never changes running, the session, the buffer or stdin; it answers true exactly when running or the spawn succeeded |
| Manager.ParsedLineNotBlank | backend/transcriptionManager.js:46-50 | a line that parses is never blank, so the chunk handler never skips a message |
| Manager.PieceEffects | backend/transcriptionManager.js:47-51 | a piece of a chunk makes the manager running exactly when it is a `ready` line |
| Manager.PiecesRunning | backend/transcriptionManager.js:45-52 | after a chunk, running exactly when it was running before or some piece was a `ready` line; the session and stdin never change |
| Manager.PiecesAppend | backend/transcriptionManager.js:47-51 | handling pieces in two runs is the same as handling them in one |
| Manager.ChunksAtLineBreaks | backend/transcriptionManager.js:45-52 | output cut into chunks at line breaks is handled as if it came as one chunk |
| Manager.SplitAfterBrace | backend/transcriptionManager.js:45-52 | a one-member message cut right after its `{` is lost, because neither half parses; the same text in one chunk is dispatched |
| Manager.SplitReadyLost | backend/transcriptionManager.js:45-52 | a `ready` line cut after its brace leaves a stopped manager stopped; in one chunk it makes the manager running |
| Manager.LineDispatched | backend/transcriptionManager.js:45-52 | one whole written line in one chunk is dispatched as its message |
| Manager.WholeLinesChunk | backend/transcriptionManager.js:45-52 | a chunk of whole lines printed by `json.dumps` is handled as its messages dispatched in order |
| Manager.EncodedPiece | backend/transcriptionManager.js:48-49 | a line the worker printed is handled as the message it encodes |
| Manager.EncodedPieces | backend/transcriptionManager.js:47-51 | the pieces of printed lines are handled as their messages dispatched in order |
| Manager.ClosedGate | backend/transcriptionManager.js:207-258 | while not running, all four session commands answer false and change nothing, including the session |
| Manager.SendFraming | backend/transcriptionManager.js:105-119 | stdin stays a sequence of whole command lines: a write adds exactly the command's line, a refusal adds nothing; a write happens exactly when a process is present and running |
| Manager.StartThenQuery | backend/transcriptionManager.js:207-218 | a start on a running manager with a process answers true, sets the session and appends the start line; the manager then reports a transcription running exactly when the session is not `null` |
| Manager.StopThenQuery | backend/transcriptionManager.js:223-232 | a stop sets the session to `null`, so no transcription is reported running |
| Manager.ClearKeepsBuffer | backend/transcriptionManager.js:237-245 | `clearTranscript` never touches the buffer, the session or the running flag |
| Manager.EndedProcess | backend/transcriptionManager.js:59-74 | after `close` or `error` the manager is not running and holds no process, and a later start fails; `stopServer` without a process changes nothing |
| Manager.ReadyWithoutProcess | backend/transcriptionManager.js:207-218 | running without a process, a start still sets the session but answers false |
| Manager.BufferRule | backend/transcriptionManager.js:180-202 | a `transcription` event replaces the buffer and does not append; `clear` empties it; the callback sees the new buffer; any other kind changes nothing |
| Manager.UnknownTypeIgnored | backend/transcriptionManager.js:169-171 | a message of an unknown type changes nothing at all |
| Manager.WorkerRepliesIgnored | backend/transcriptionManager.js:150-171 | the worker's real `response` and `status` replies change nothing in the manager |
| Server.Send | python/transcription_server.py:34-41 | one more message is printed after those already printed; the engine and the running flag are unchanged |
| Server.ReadLine | python/transcription_server.py:94 | with universal newlines (Windows' text-mode `stdin`), `readline` returns a line that holds no line break before its last character and ends in `\n` unless it is the end of the input; what is left is a suffix of the input, shorter than it; the line is empty exactly at the end of the input |
| Server.ReadLineTranslates | python/transcription_server.py:94 | with universal newlines (Windows' text-mode `stdin`): the line read, then the rest of the input with `\r\n` and lone `\r` turned into `\n`, is the whole input so translated, and the line holds no `\r` |
| Server.BreakRead | python/transcription_server.py:94 | with universal newlines (Windows' text-mode `stdin`), a `\n`, a `\r\n` or a lone `\r` at the front of the input is read as the line `\n`, leaving exactly what follows it |
| Server.ReadStep | python/transcription_server.py:92-111 | one step of the reader: the line is handled, and reading continues unless the handler stopped it |
| Server.TranscriptionServer.constructor | python/transcription_server.py:13-32 | a running server with a fresh engine that has an output callback, and nothing printed |
| Server.TranscriptionServer.SendMessage | python/transcription_server.py:34-41 | the state after printing one message |
| Server.TranscriptionServer.OnTranscriptionOutput | python/transcription_server.py:43-45 | the engine's record goes out as a `transcription` message |
| Server.TranscriptionServer.OnError | python/transcription_server.py:47-49 | an engine error goes out as an `error` message |
| Server.TranscriptionServer.HandleStart | python/transcription_server.py:55-62 | starts the engine on the command's `session_id` (`default` when absent) and prints one `response` |
| Server.TranscriptionServer.HandleClear | python/transcription_server.py:71-76 | clears the engine, prints its `clear` record when it has an output callback, then one `response` |
| Server.TranscriptionServer.HandleCommand | python/transcription_server.py:51-88 | the new state and the raised exception are those of the command specification |
| Server.TranscriptionServer.HandleLine | python/transcription_server.py:93-111 | one line of the reader loop, with `stop` for the `break` after an exception |
| Server.TranscriptionServer.ReadOne | python/transcription_server.py:92-111 | one pass consumes input and leaves the remaining reading's outcome unchanged, or ends reading in the specified final state |
| Server.TranscriptionServer.ReadCommands | python/transcription_server.py:90-111 | the loop ends in the state and unread input of the reading specification |
| Server.TranscriptionServer.Start | python/transcription_server.py:113-151 | prints `ready`, reads commands, and stops the engine exactly when reading ended with `quit` |
| Server.MessageFields | python/transcription_server.py:36-40 | every message reads back `type`, `data` and `timestamp` as written |
| Server.CommandExtends | python/transcription_server.py:51-88 | a command only adds messages after those already printed |
| Server.DictExtends | python/transcription_server.py:53-88 | the same for each dictionary command |
| Server.LineExtends | python/transcription_server.py:93-111 | the same for each input line |
| Server.ParsedLineExtends | python/transcription_server.py:98-100 | the same for a parsed line |
| Server.ReadExtends | python/transcription_server.py:90-111 | reading never takes back or rewrites a printed message |
| Server.ReadyFirst | python/transcription_server.py:113-138 | whatever stdin holds, the first message printed is `ready` and everything else follows it |
| Server.LastReply | python/transcription_server.py:51-88 | a recognised command other than `quit` prints one message (two for `clear` with an output callback), the last of its reply kind |
| Server.ReplyCount | python/transcription_server.py:51-88 | how many messages each recognised command prints |
| Server.ReplyLast | python/transcription_server.py:51-88 | the kind of the last message each recognised command prints |
| Server.ClearLast | python/transcription_server.py:71-76 | `clear` ends with a `response` acknowledging `clear` |
| Server.SentLast | python/transcription_server.py:34-41 | the printed message is last, with its kind and data under their keys |
| Server.CommandReplies | python/transcription_server.py:51-88 | a non-dictionary raises and prints nothing; `quit` alone clears running and prints nothing; every other dictionary prints its reply, whose `type` is the reply kind |
| Server.ParsedLineNotBlank | python/transcription_server.py:98-99 | a line that parses is never blank to `strip` |
| Server.BlankLinesSkipped | python/transcription_server.py:98 | a line leaves the server unchanged exactly when it is blank |
| Server.ReadingStops | python/transcription_server.py:101-111 | reading stops after a line exactly when it parses to something other than a dictionary; invalid JSON is answered and reading goes on |
| Server.ReadLineAt | python/transcription_server.py:94 | with universal newlines (Windows' text-mode `stdin`), a line without a break, then `\n`, `\r\n` or a lone `\r`: `readline` returns that line ending in `\n` and leaves exactly what follows the break |
| Server.LineOfValue | python/transcription_server.py:98-111 | a line that parses is handled as its value |
| Server.ReadOneCommand | python/transcription_server.py:94-100 | with universal newlines (Windows' text-mode `stdin`), a written command ended by `\n`, `\r\n` or a lone `\r` is read back as its own line and handled as that command |
| Server.ManagerCommandsRead | python/transcription_server.py:90-111 | the commands the manager writes are handled exactly, in order, and reading reaches the end of the input |
| Server.FirstCommandRead | python/transcription_server.py:92-100 | the first written command is handled first and the server keeps running |
| Server.QuitEndsReading | python/transcription_server.py:82-83 | a `quit` line clears running, leaves the rest unread and prints nothing |
| Server.QuitCommand | python/transcription_server.py:82-83 | `quit` only clears running |
| Server.SettingsLexemes | python/transcription_server.py:118-134 | the numbers in the `ready` data are valid JSON numbers |
| Server.ReadyWellFormed | python/transcription_server.py:118-134 | the `ready` data can be written and read back |
| Server.EngineCapabilitiesWellFormed | python/transcription_server.py:120-126 | the same for the engine capabilities |
| Server.StreamCapabilitiesWellFormed | python/transcription_server.py:125-132 | the same for the stream capabilities |
| Server.SendWellFormed | python/transcription_server.py:34-41 | printing well-formed data keeps every printed line readable |
| Server.DictWellFormed | python/transcription_server.py:51-88 | every dictionary command keeps every printed line readable |
| Server.EngineStatusWellFormed | python/transcription_server.py:78-80 | the `status` data is well formed |
| Server.ClearWellFormed | python/transcription_server.py:71-76 | `clear` keeps every printed line readable |
| Server.CommandWellFormed | python/transcription_server.py:51-88 | every command keeps every printed line readable |
| Server.LineWellFormed | python/transcription_server.py:93-111 | every input line keeps every printed line readable, including error texts |
| Server.ParsedLineWellFormed | python/transcription_server.py:98-100 | the same for a parsed line |
| Server.ReadWellFormed | python/transcription_server.py:90-111 | whatever stdin holds, every line the server prints can be parsed by the manager |
| Server.ServeWellFormed | python/transcription_server.py:113-138 | the same for the whole run of `start` |
| Realtime.FlattenSnoc | python/realtime_transcriber.py:172-174 | draining one more block appends its samples last |
| Realtime.SliceFrom | python/realtime_transcriber.py:193 | Python's `c[start:]`: a suffix of `c`, of length `-start` for a negative start within range |
| Realtime.OverlapTail | python/realtime_transcriber.py:191-195 | the intended overlap: the last `min(k, len(chunk))` samples, empty when `k` is 0 |
| Realtime.OverlapAgrees | python/realtime_transcriber.py:191-195 | for every positive overlap size the code's slice is the intended overlap |
| Realtime.OverlapIsSuffix | python/realtime_transcriber.py:191-195 | the code's overlap, `chunk[-k:]` or the whole chunk: a suffix of the chunk, at most `k` long when `k` is positive |
| Realtime.OverlapZeroKeepsWholeChunk | python/realtime_transcriber.py:192-193 | for every chunk, with an overlap size of 0 the code keeps the whole chunk, where the intended overlap is empty |
| Realtime.ClearRecord | python/realtime_transcriber.py:123-129 | the `clear` record carries the session and an empty `full_transcript` |
| Realtime.TranscriptionRecordFields | python/realtime_transcriber.py:270-277 | the record reads back its type, session, text, full transcript and timestamp |
| Realtime.ChunkTextBlank | python/realtime_transcriber.py:240-248 | a chunk's joined text strips to nothing exactly when every segment is blank |
| Realtime.ChunkTextAllSpace | python/realtime_transcriber.py:240-245 | the joined text is all whitespace exactly when every segment is |
| Realtime.AppendText | python/realtime_transcriber.py:261-267 | blank text leaves the buffer alone; any other text is appended with one space |
| Realtime.TranscriptGrows | python/realtime_transcriber.py:261-267 | the old buffer is a prefix of the new one, which grows by exactly the non-blank texts plus one space each |
| Realtime.StopSpec | python/realtime_transcriber.py:105-117 | stop clears recording, the session and the overlap, and keeps the transcript and the queue |
| Realtime.StartSpec | python/realtime_transcriber.py:84-103 | start stops a running session first, then sets the session, empties transcript and overlap, and records |
| Realtime.ClearSpec | python/realtime_transcriber.py:119-129 | clear empties transcript and overlap and keeps the session; a record goes out exactly when there is an output callback |
| Realtime.HandleTranscriptionSpec | python/realtime_transcriber.py:261-277 | the buffer follows the append rule; a record goes out exactly for non-blank text with a callback, carrying the text and the stripped buffer |
| Realtime.StopStartComposition | python/realtime_transcriber.py:84-117 | stop is idempotent, and starting after a stop is the same as starting |
| Realtime.StartIdempotent | python/realtime_transcriber.py:84-103 | starting the same session twice is the same as starting it once |
| Realtime.ClearThenTranscribe | python/realtime_transcriber.py:119-129 | after a clear, the next text is the whole transcript |
| Realtime.RealtimeTranscriber.constructor | python/realtime_transcriber.py:20-56 | the settings as given, no model yet, not recording, nothing buffered |
| Realtime.RealtimeTranscriber.ModelLoaded | python/realtime_transcriber.py:60-68 | the background load only sets the loaded flag |
| Realtime.RealtimeTranscriber.SetOutputCallback | python/realtime_transcriber.py:76-78 | only sets the callback flag |
| Realtime.RealtimeTranscriber.StartSession | python/realtime_transcriber.py:84-103 | the start specification, answering true |
| Realtime.RealtimeTranscriber.StopSession | python/realtime_transcriber.py:105-117 | the stop specification |
| Realtime.RealtimeTranscriber.ClearTranscript | python/realtime_transcriber.py:119-129 | the clear specification and its record |
| Realtime.RealtimeTranscriber.AudioBlock | python/realtime_transcriber.py:134-141 | a block is queued only while recording |
| Realtime.RealtimeTranscriber.HandleTranscription | python/realtime_transcriber.py:261-279 | the transcription specification and its record |
| Realtime.RealtimeTranscriber.Drain | python/realtime_transcriber.py:172-174 | every queued block moves, in order, to the end of the buffer |
| Realtime.RealtimeTranscriber.TakeChunk | python/realtime_transcriber.py:177-195 | with at least a chunk buffered: the chunk followed by what is kept is the old buffer; the previous overlap followed by the chunk is what is sent; the next overlap is the code's `chunk[-overlap_samples:]` (the whole chunk when `overlap_samples` is 0) |
| Realtime.RealtimeTranscriber.TranscribeChunk | python/realtime_transcriber.py:208-249 | with a model, non-blank stripped text is handled; otherwise nothing happens |
| Realtime.RealtimeTranscriber.ProcessIteration | python/realtime_transcriber.py:169-200 | one loop pass takes at most one chunk; every queued sample ends up in a chunk or in the buffer, in order; the kept overlap is the code's slice of the chunk taken; the chunk sent is the old overlap followed by the chunk, and its stripped text, when the model is loaded and the text is not blank, is appended to the transcript and gives the record exactly as the transcription handler does, while otherwise the rest of the engine is unchanged; the model flag and the output callback never change |
| Realtime.RealtimeTranscriber.Status | python/realtime_transcriber.py:281-293 | `get_status` is well formed when its settings are valid numbers |
| Realtime.StatusWellFormed | python/realtime_transcriber.py:281-293 | the status can be written and read back |
| Realtime.ClearRecordWellFormed | python/realtime_transcriber.py:123-129 | the `clear` record can be written and read back |
| Realtime.StateMembersWellFormed | python/realtime_transcriber.py:283-293 | the status's state members are well formed |
| Realtime.RateMembersWellFormed | python/realtime_transcriber.py:283-293 | the status's rate members are well formed |
| Realtime.OverlapMembersWellFormed | python/realtime_transcriber.py:283-293 | the status's overlap members are well formed |
| Simple.SimpleTranscriptionManager.constructor | backend/simple_transcription.py:18-21 | no sessions and no model |
| Simple.SimpleTranscriptionManager.ModelLoaded | backend/simple_transcription.py:25-29 | the background load only sets the model flag |
| Simple.SimpleTranscriptionManager.StartSession | backend/simple_transcription.py:35-44 | the start specification and the new id; the new entry takes the next generation, so no two starts share one |
| Simple.SimpleTranscriptionManager.StopSession | backend/simple_transcription.py:46-49 | the stop specification; a list or dictionary id raises (`TypeError`) and changes nothing |
| Simple.SimpleTranscriptionManager.AddUpdate | backend/simple_transcription.py:126-129 | queues the update on a known session only |
| Simple.SimpleTranscriptionManager.ClearSession | backend/simple_transcription.py:51-55 | the clear specification; a list or dictionary id raises (`TypeError`) and changes nothing |
| Simple.SimpleTranscriptionManager.ProcessAudio | backend/simple_transcription.py:57-124 | the processing specification and its answer text |
| Simple.SimpleTranscriptionManager.OpenStream | backend/simple_transcription.py:131-136 | the id is looked up once: the stream is bound to the entry it names then, or closed for an unknown id |
| Simple.SimpleTranscriptionManager.NextUpdate | backend/simple_transcription.py:136-145 | one step of the stream on the dictionary it is bound to, whether still in the table or replaced since: the oldest update, a heartbeat, or the end |
| Simple.SimpleTranscriptionManager.StartRoute | backend/simple_transcription.py:153-168 | the start route's table and reply; only a 200 answer uses up a generation |
| Simple.SimpleTranscriptionManager.StopRoute | backend/simple_transcription.py:170-184 | the stop route's table and reply |
| Simple.SimpleTranscriptionManager.ClearRoute | backend/simple_transcription.py:186-200 | the clear route's table and reply |
| Simple.SimpleTranscriptionManager.UploadRoute | backend/simple_transcription.py:202-290 | the upload route's table, reply and file suffix |
| Simple.StartCreates | backend/simple_transcription.py:35-44 | a fresh active entry with empty transcript and queue under the returned `session_…` id; every other entry is kept; an entry it replaces is kept for the streams bound to it |
| Simple.SameSecondReplaces | backend/simple_transcription.py:37-38 | two starts in the same second share an id: the second replaces the first in the table, and the first survives, untouched, for its streams |
| Simple.DistinctSeconds | backend/simple_transcription.py:37 | starts in different seconds get different ids |
| Simple.StopKeepsEntry | backend/simple_transcription.py:46-49 | stop keeps the entry and only clears `active`; an unknown id changes nothing |
| Simple.ClearQueuesOne | backend/simple_transcription.py:51-55 | clear empties the transcript and queues exactly one `clear` update last; an unknown id changes nothing |
| Simple.ProcessRefuses | backend/simple_transcription.py:59-63 | without a model, or for an unknown session, an error text and no change |
| Simple.ProcessAppends | backend/simple_transcription.py:80-118 | the text is the stripped join of the segments, empty exactly when all are blank; a non-empty text extends the transcript by text and a space and queues one update carrying the new transcript; an empty one changes nothing |
| Simple.OpenedStreamReads | backend/simple_transcription.py:131-136 | a stream reads the entry its id named when it opened; a stream opened on an unknown id ends at once |
| Simple.DeliverInOrder | backend/simple_transcription.py:136-145 | while its dictionary is active, the stream delivers that dictionary's updates in the order queued and removes each one from it, whether the dictionary is still in the table or was replaced |
| Simple.AddedComesLast | backend/simple_transcription.py:126-145 | an update added to the session a stream is attached to comes out after every earlier one; the queue is then empty and the next step is a heartbeat |
| Simple.StoppedStreamEnds | backend/simple_transcription.py:131-138 | a stream on a session stopped while still in the table ends at once, and so does one opened on an unknown id |
| Simple.HeartbeatsForever | backend/simple_transcription.py:138-145 | a stream whose dictionary is active with an empty queue sends only heartbeats, however many steps it is read |
| Simple.TableOpsMissDetached | backend/simple_transcription.py:46-56 | stop, clear and add reach entries only through the table, so they never change what a stream on a replaced dictionary reads |
| Simple.SameSecondStreamOutlivesStop | backend/simple_transcription.py:35-145 | a stream opened before a same-second start replaced its session keeps the old dictionary: an update and a stop sent under the shared id reach the new session, and the stream sends heartbeats without end |
| Simple.FrameReadBack | backend/simple_transcription.py:142 | each frame is `data: `, one line of JSON that reads back as the update, and a blank line |
| Simple.SuffixChoice | backend/simple_transcription.py:232-242 | `webm` wins over `mp4`, which wins over `wav`; `.webm` otherwise, including no content type |
| Simple.StartRouteChecks | backend/simple_transcription.py:153-168 | 400 exactly when `proceeding_id` is missing or falsy, and then no change; 200 returns the id of a fresh active session of the given generation |
| Simple.SessionRouteChecks | backend/simple_transcription.py:170-200 | stop and clear answer 400 exactly when `session_id` is missing or falsy; they fail (500) exactly when the body is not a dictionary or the id is a non-empty list or dictionary; only a 200 answer changes the table, by stopping or clearing that session |
| Simple.UploadRouteChecks | backend/simple_transcription.py:202-290 | 400 exactly when the id or the audio is missing, 503 without a model, 500 when the file was not saved; only a 200 can change the table |
| Simple.UnknownSessionUpload | backend/simple_transcription.py:286-290 | an upload for an unknown session is answered 200 with the text `Session not found` |
| Transcribe.InitialConsistent | python/transcribe.py:29-58 | a new recorder is idle and its flags agree with its stream |
| Transcribe.OperationsKeepConsistent | python/transcribe.py:77-170 | every operation, a start that fails after opening the stream included, keeps the flags and the stream in agreement (paused implies recording, recording iff a stream is open, an open stream started iff not paused) |
| Transcribe.StartOnce | python/transcribe.py:77-115 | a start succeeds exactly when idle, the stream opens and the threads and stream start, giving a running, unpaused recorder with a started stream and an empty buffer; a refused start or one whose stream does not open changes nothing; once the stream opened, a second start is refused and changes nothing |
| Transcribe.FailedStartKeepsRecording | python/transcribe.py:93-115 | a start that raises after the stream opened (and so started) answers false but leaves the recorder recording with its stream running; later starts are refused until a stop, after which a start can succeed |
| Transcribe.PauseResume | python/transcribe.py:117-137 | pausing then resuming a running recording restores it |
| Transcribe.IdleOperationsNoOp | python/transcribe.py:117-143 | pause, resume and stop do nothing unless recording; resume also needs a pause |
| Transcribe.StopIdempotent | python/transcribe.py:139-164 | after a stop nothing is recording, paused or open, and a second stop changes nothing |
| Transcribe.FeedQueue | python/transcribe.py:166-170 | the callback queues every block when not paused and none while paused |
| Transcribe.RealTimeWhisperTranscriber.constructor | python/transcribe.py:21-61 | a new recorder in the initial state, with the model size and language given |
| Transcribe.RealTimeWhisperTranscriber.SetTranscriptCallback | python/transcribe.py:73-75 | only sets the callback flag |
| Transcribe.RealTimeWhisperTranscriber.StartRecording | python/transcribe.py:77-115 | the start specification, including the failure after the stream opened |
| Transcribe.RealTimeWhisperTranscriber.PauseRecording | python/transcribe.py:117-126 | the pause specification |
| Transcribe.RealTimeWhisperTranscriber.ResumeRecording | python/transcribe.py:128-137 | the resume specification |
| Transcribe.RealTimeWhisperTranscriber.StopRecording | python/transcribe.py:139-164 | the stop specification |
| Transcribe.RealTimeWhisperTranscriber.AudioCallback | python/transcribe.py:166-170 | the callback specification; the block is passed back unchanged |
| Transcribe.RealTimeWhisperTranscriber.AvailableInputDevices | python/transcribe.py:250-261 | the devices with an input channel, built by a loop over the device indices |
| Transcribe.Zeros | python/transcribe.py:233 | `n` zero samples |
| Transcribe.PadShape | python/transcribe.py:230-233 | a short block is padded with zeros to exactly the minimum length; a long one is kept; the block is always a prefix |
| Transcribe.PadIdempotent | python/transcribe.py:230-233 | padding twice is padding once |
| Transcribe.ReportShape | python/transcribe.py:209-220 | text is reported exactly when not paused, a callback is set and the text is not blank; what is reported is stripped and not empty |
| Transcribe.Truncate | python/transcribe.py:259 | `int(x)` truncates toward zero |
| Transcribe.InputDevicesSound | python/transcribe.py:250-261 | each entry describes a device with an input channel under its own index |
| Transcribe.InputDevicesOrdered | python/transcribe.py:250-261 | the entries are in strictly increasing index order |
| Transcribe.InputDevicesComplete | python/transcribe.py:250-261 | every device with an input channel is listed |
| Transcribe.Registry.constructor | python/transcribe.py:270 | no instance yet |
| Transcribe.Registry.GetTranscriber | python/transcribe.py:272-279 | the existing instance, whatever model size and language are asked for, or a new one in the initial state for the size and language given, which is then kept |
| Transcribe.Registry.CleanupTranscriber | python/transcribe.py:281-287 | the instance is stopped and forgotten |
| Login.RoleByPrefix | backend/app.py:28-35 | clerk exactly for an upper-cased `CLERK` prefix, judge exactly for `JUDGE` and not `CLERK`; case does not matter |
| Login.MissingFieldRefused | backend/app.py:24-25 | a missing or empty field gives 400, whatever the database holds |
| Login.BadFormatRefused | backend/app.py:27-35 | with both fields present, 400 `Invalid matricule format` exactly when neither prefix matches |
| Login.LoginSucceeds | backend/app.py:19-50 | 200 exactly when both fields are non-empty strings, the prefix names a role, that role's collection has the account and the password matches; the answer carries role, name and matricule |
| Login.LoginOutcomes | backend/app.py:19-50 | every answer is a crash or 200, 400, 401 or 404; `success` is true only for 200; 404 means no account, 401 a mismatched password |
| Login.LookupByRole | backend/app.py:28-32 | a clerk's matricule is looked up among the clerks only |
| Json.Get | python/transcription_server.py:53-56 | a lookup finds a key exactly when some member has it, and then gives the value of the last such member |
| Json.EncodeNoNewline | python/transcription_server.py:41 | neither serialiser writes a raw line break |
| JsonParse.ParseEncodeLine | python/transcription_server.py:99 | a line written by either serialiser reads back as the written value, with or without its line break |
| JsonParse.ParseWellFormed | backend/transcriptionManager.js:126 | every value read is well formed, so it can be written back |
| LineProtocol.EncodeAll | backend/transcriptionManager.js:112 | each value is encoded, in order |
| LineProtocol.LinesAppend | backend/transcriptionManager.js:112-113 | writing one more value appends its line |
| LineProtocol.LinesReadBack | backend/transcriptionManager.js:46 | splitting the written text gives one piece per value and an empty rest; each piece parses back to its value |
| Text.Split | backend/transcriptionManager.js:46 | no piece contains the separator |
| Text.JoinSplit | backend/transcriptionManager.js:46 | joining the pieces gives back the text |
| Text.SplitAppend | backend/transcriptionManager.js:46 | splitting at one separator gives the pieces before it followed by the pieces after it |
| Text.SplitTerminated | backend/transcriptionManager.js:46 | separator-free lines, each followed by the separator, split back into those lines and an empty rest |
| Text.TrimEmpty | backend/transcriptionManager.js:48 | a trimmed text is empty exactly when the text is all whitespace |
| Text.AsciiUpperIdempotent | backend/app.py:28 | upper-casing twice is upper-casing once |
| Text.NatToStringValue | backend/simple_transcription.py:37 | rendering a natural and reading it back gives the same natural |
| Text.NatToStringInjective | backend/simple_transcription.py:37 | distinct naturals render as distinct texts |
| Text.PyStripIdempotent | python/realtime_transcriber.py:275 | stripping twice is stripping once |
| Protocol.StartCommandRead | backend/transcriptionManager.js:214-217 | the worker reads a start command's type as `start`, and its session as sent or `default` when it was `undefined` |
| Protocol.BareCommandRead | backend/transcriptionManager.js:229-231 | the worker reads a bare command's type as sent |
| Protocol.SentIsCommand | backend/transcriptionManager.js:207-258 | every command the manager writes is a dictionary the worker can parse, and none is `quit` |
| Protocol.CommandsReachWorker | backend/transcriptionManager.js:105-119 | the worker reading the manager's stdin handles exactly the commands sent, in order, and reads to the end |
| Protocol.StartReachesWorker | python/transcription_server.py:55-62 | `startTranscription(id)` starts the worker's engine recording on the same session, or `default` for `undefined` |
| Protocol.DispatchAllEffects | backend/transcriptionManager.js:129-171 | after messages are dispatched in order, running is true exactly when it was before or one of them was `ready` |
| Protocol.WorkerOutputOpensManager | python/transcription_server.py:118-134 | once the manager has received everything the worker printed, it is running, whatever the worker read |

## Left out

- Processes and streams: spawning the worker, its stderr logging, pipes and the Python `main()` entry points are not part of this model. The process is a present/absent flag. Stdout chunks, exits and process errors are method calls.
- Concurrency: threads, joins, `time.sleep` polling, the queue `get` timeouts and the event stream's one-second heartbeat timeout are not part of this model. Each loop is modelled as one pass, or as the stream's next step.
- Manager.TranscriptionManager.StartServer: the one-second wait before answering true is not modelled, and the answer is given at once. A fresh manager becomes running only when a `ready` line arrives (Manager.StartServerNotReady).
- Speech model and audio libraries: Whisper and faster-whisper inference, model loading (`load_model` in `python/transcribe.py`), sounddevice, PyAudio and WAV and temp-file I/O are not part of this model. Recognised segment texts are a parameter. Loading is a flag that `ModelLoaded` sets.
- Realtime.RealtimeTranscriber.TranscribeChunk: the float32 conversion, exceptions from the model and their error callback are not modelled.
- Floating point: `int(sample_rate * duration)` is not computed, and `chunkSamples` and `overlapSamples` are natural parameters. `python/transcribe.py`'s float normalisation and its int16 conversion are not modelled. Samples are `real` or `int` values.
- Transcribe.RealTimeWhisperTranscriber.StartRecording: `_recording_loop`'s time-based batching of blocks and the transcription thread's `queue.get` are not modelled. The paused check and the report of a transcript are Transcribe.ReportShape.
- Transcribe.RealTimeWhisperTranscriber.StopRecording: closing the stream and terminating PyAudio are a state change to no stream; their failures are not modelled.
- `RealTimeWhisperTranscriber.__del__`, `set_error_callback` and the error-callback paths of the engine (load and audio errors) are not part of this model.
- Clock values: timestamps and the second used in `session_<time>` ids are parameters.
- Python's Unicode `upper()`: only ASCII letters are upper-cased. For matricules, which are ASCII, the two agree.
- Database and password hashing: MongoDB lookups and bcrypt are oracles, passed in as `clerks`, `judges` and `checkpw`.
- Flask request parsing: `get_json` failing on a body that is not JSON is not modelled. A body that is not a dictionary is a `Crash` (an answer 500).
- Simple.SimpleTranscriptionManager.UploadRoute: the 500 `Processing error` answer for an exception raised while processing, and the temp-file cleanup, are not modelled. Whether the file was saved is a parameter.
- The event stream route itself, including its first `connected` frame, is not part of this model. Its generator is modelled one step at a time (Simple.SimpleTranscriptionManager.NextUpdate).
- Cross-chunk line reassembly: the manager does not reassemble lines across stdout chunks, and the model follows that code (Manager.SplitAfterBrace shows a message cut after its brace is lost).
- Server.TranscriptionServer.HandleStart: a number `session_id` is echoed as the lexeme read. Python echoes the float it parsed in its own form (`1e999` as `Infinity`, `1.50` as `1.5`), and that rendering is not modelled.
- Server.TranscriptionServer.HandleCommand: the echo of a number `session_id` keeps its lexeme, as for HandleStart.
- Server.TranscriptionServer.HandleStart: an object `session_id` that repeats a key is echoed with every member it was read with. Python's `json.loads` keeps one entry per key, at the first key's place and holding the last value, so for `{"a":1,"b":2,"a":3}` the program echoes `{"a": 3, "b": 2}`.
- Server.TranscriptionServer.HandleCommand: the repeated-key echo of HandleStart is not modelled, in the start reply or in the session of a `status` reply.
- Server.ReadLine: models universal newlines, which CPython gives `sys.stdin` on Windows only. On Linux and macOS `stdin` breaks lines at `\n` alone and keeps every `\r` in the line, so `{"type":"stop"}\r{"type":"clear"}\n` is one line there, answered `Invalid JSON command`.
- Server.ReadLineTranslates: states the Windows translation of `\r\n` and a lone `\r`; on Linux and macOS the line read is the input up to and including the first `\n`, untranslated.
- Server.BreakRead: a `\r\n` or a lone `\r` is a line break on Windows only; on Linux and macOS only `\n` is.
- Server.ReadLineAt: the `\r\n` and lone `\r` endings are Windows' reading; on Linux and macOS a `\r` stays in the line.
- Server.ReadOneCommand: a command ended by `\r\n` or a lone `\r` is its own line on Windows only; on Linux and macOS the `\r` is part of the line.
- Decoding of `stdin`: bytes that are not valid in the console's encoding make `readline` raise `UnicodeDecodeError`, which the program answers with `Error reading command` before it stops reading. Input here is already text, so that path is not modelled.
- Server.TranscriptionServer.HandleLine: a line `NaN`, `Infinity` or `-Infinity` is answered as invalid JSON and reading goes on. Python's `json.loads` reads it as a float, so the program answers `Error reading command` and stops reading.
- Server.TranscriptionServer.HandleLine: a line holding a lone surrogate escape (`"\ud800"`, or `\udc00` without a high half before it) is answered as invalid JSON and reading goes on, because a Dafny `char` cannot hold a lone surrogate. `json.loads` accepts it: the program handles such a dictionary as a command, and for any other such line answers `Error reading command` and stops reading.
- Server.TranscriptionServer.ReadCommands: the `NaN`, `Infinity` and `-Infinity` lines of HandleLine are not modelled.
- Server.TranscriptionServer.ReadCommands: the lone-surrogate lines of HandleLine are not modelled.
- Server.ReadingStops: does not cover the `NaN`, `Infinity` and `-Infinity` lines after which the program stops reading.
- Server.ReadingStops: does not cover the lone-surrogate lines after which the program stops reading.
- Manager.TranscriptionManager.HandleOutput: a line holding a lone surrogate escape is dropped as unparseable. `JSON.parse` accepts it, so for example `{"type":"ready","data":"\ud800"}` makes the program's manager running while the model's is not.
- Manager.LineEffects: the lone-surrogate lines of HandleOutput are not covered.
- Manager.PieceEffects: the lone-surrogate lines of HandleOutput are not covered.
- Manager.PiecesRunning: the lone-surrogate lines of HandleOutput are not covered.
- Server.DictWellFormed: proved of the model, which echoes number lexemes. The program prints `Infinity` for a `session_id` of `1e999`, which is not JSON, so for such input the promise does not hold of the program.
- Server.CommandWellFormed: the `Infinity` echo of DictWellFormed is not covered.
- Server.LineWellFormed: the `Infinity` echo of DictWellFormed is not covered.
- Server.ParsedLineWellFormed: the `Infinity` echo of DictWellFormed is not covered.
- Server.ReadWellFormed: the `Infinity` echo of DictWellFormed is not covered.
- Server.ServeWellFormed: the `Infinity` echo of DictWellFormed is not covered.
- Simple.SimpleTranscriptionManager.StartRoute: a number's truthiness is read from its lexeme. Python's float underflow (`1e-400` is `0.0`, which is falsy) is not modelled.
- Simple.StartRouteChecks: the `1e-400` underflow of StartRoute is not covered.
- Simple.SimpleTranscriptionManager.StopRoute: a `session_id` that underflows to `0.0` is truthy in the model, as for StartRoute.
- Simple.SimpleTranscriptionManager.ClearRoute: a `session_id` that underflows to `0.0` is truthy in the model, as for StopRoute.
- Simple.SessionRouteChecks: the `0.0` underflow of StopRoute and ClearRoute is not covered.
- Simple.SimpleTranscriptionManager.AddUpdate: the `TypeError` of a list or dictionary id is modelled only for StopSession and ClearSession. The routes pass ProcessAudio, AddUpdate and OpenStream only strings or ids already in the table.
- Reply names: the worker answers with `response` and `status` messages, which the manager's switch does not know (it expects `start_response`, `status_response` and so on). The model follows the code, so those replies change nothing in the manager (Manager.WorkerRepliesIgnored).

## Findings

| source | as written | input that shows it | evidently intended | confidence | as-written member | corrected member |
|---|---|---|---|---|---|---|
| python/realtime_transcriber.py:192-193 | `current_chunk[-overlap_samples:]` keeps the whole chunk when `overlap_samples` is 0, since `-0` is `0` | `overlap_samples` 0, chunk `[7, 8, 9]`: the kept overlap is `[7, 8, 9]` | an empty overlap; the last `min(overlap_samples, len(chunk))` samples in general | not executed; only reached when `overlap_duration * sample_rate` truncates to 0 | Realtime.OverlapAsWritten, Realtime.OverlapZeroKeepsWholeChunk | Realtime.OverlapTail |
