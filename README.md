# Voice-agent call relay: a Dafny model

The relay accepts a browser's websocket call and connects it to a voice agent.
Every audio frame the client sends is queued for the agent thread and recorded.
Audio the agent produces is recorded and sent back to the client.
Conversation events the agent produces are sent to the client as
`{"type": "transcript", "data": ...}` messages and appended to a transcript file.

The model covers three parts of `main.py`:

- `Wav` (`wav.dfy`): `create_wav_header`, a pure function.
  It builds the 44-byte PCM WAVE header with tags at fixed offsets.
  The RIFF size is the constant 36, the data size is the constant 0, and the five parameter fields are written with `int.to_bytes(_, 'little')`.
  Python raises OverflowError from `to_bytes` when a value does not fit.
  The model returns that as `Failure(Overflow(field))`, naming the first field in writing order that does not fit.
  A reader, `ParseHeader`, is the partner: an emitted header parses back to its parameters, and a header the reader accepts is exactly what the encoder emits for those parameters.
- `SessionNaming` (`naming.dfy`): the session id `strftime("%Y%m%d%H%M%S")` of a UTC timestamp, and the names `conversation_<id>.wav` and `transcript_<id>.txt`.
  The clock reading is a parameter.
- `Relay` (`relay.dfy`): the per-call state as a class `Session` whose methods update its fields in place.
  - The fields are the three queues, the bytes written to the recording, the messages sent to the client, the lines written to the transcript file, the `processing_complete` flag, and `connected`, which says whether the websocket is still open and so whether the receive loop still runs.
  - A ghost log of effects (enqueue, record, send, log) keeps the order in which the receive loop acts.
    The invariant `Valid()` states that every sink is exactly what the logged effects put there.
  - `ReceiveFrame` is one iteration of the receive loop, and it is proved against `Step`, a function on the effect log.
    Lemmas about `Step` prove FIFO order, draining to empty, and that no chunk or event is dropped or duplicated.
    They also prove that each agent chunk is recorded before it is sent, and that each transcript is sent before it is logged.
  - `Conversation` runs a whole call. The client sends a frame; the agent queues one audio chunk and one event; the client sends a second frame and disconnects.
    The recording is then the header, the first frame, the second frame, and then the agent's chunk.
    Each iteration writes the client frame before it drains the agent queue.
    So agent audio queued while the loop waits in `receive_bytes` is recorded after the next client frame.
    The agent thread runs concurrently, so a chunk queued after the first frame is written but before the loop checks the agent queue is drained in that same iteration.
    That timing gives the interleaved order header, first frame, chunk, second frame.
    The model runs the agent's callbacks only between iterations, so it covers the first timing and not the second.

`Outcomes` (`outcomes.dfy`) holds the `Option` and `Result` datatypes.

## Model

| member | source | states |
|---|---|---|
| Wav.LittleEndian | main.py:46-57 | `n.to_bytes(width, 'little')` for an `n` that fits: exactly `width` bytes, which decode back to `n` |
| Wav.ToBytes | main.py:51-55 | `to_bytes` succeeds exactly when `0 <= n < 256^width`; on success the bytes decode to `n`; otherwise it raises OverflowError for the field being written |
| Wav.LittleEndianOfValue | main.py:46-57 | little-endian encoding is the inverse of decoding: a byte string is the encoding of its own value at its own width |
| Wav.CreateWavHeader | main.py:41-58 | succeeds exactly when channels, sample rate, byte rate, block align and bits per sample all fit their widths unsigned; the header is 44 bytes; a failure names the first field, in writing order, that overflows |
| Wav.ParseHeader | main.py:44-57 | a header the reader accepts has the layout of the declared parameters at every offset |
| Wav.LayoutConstants | main.py:45-57 | `RIFF`, 36, `WAVE`, `fmt `, 16, 1, `data` and 0 sit at offsets 0, 4, 8, 12, 16, 20, 36 and 40 |
| Wav.LayoutFields | main.py:51-55 | channels, sample rate, byte rate, block align and bits per sample sit at offsets 22, 24, 28, 32 and 34 |
| Wav.HeaderLayout | main.py:41-58 | every emitted header carries the tags and constants, the parameters, byte rate `sr*ch*(bits//8)` and block align `ch*(bits//8)` at their offsets |
| Wav.ParseCreated | main.py:41-58 | reading back an emitted header yields the parameters it was built from |
| Wav.LayoutOfSlices | main.py:44-57 | a 44-byte string with the tags and constants in place is the layout of its own field slices |
| Wav.CreateParsed | main.py:41-58 | any byte string the reader accepts is exactly the header the encoder emits for the parameters read |
| Wav.DefaultFieldBytes | main.py:41-55 | for the defaults the five fields encode as `01 00`, `c0 5d 00 00`, `80 bb 00 00`, `02 00` and `10 00` |
| Wav.DefaultLayout | main.py:41-58 | with no arguments the encoder succeeds with the layout of those five encodings |
| Wav.DefaultLayoutBytes | main.py:44-57 | that layout is the 44-byte default header, byte for byte |
| Wav.DefaultHeaderCreated | main.py:41-58 | `create_wav_header()` returns exactly the 44 bytes of `DefaultHeader` |
| Wav.DefaultHeaderFields | main.py:41-43 | with the defaults (24000 Hz, 16 bits, mono) the byte rate field is 48000 and block align is 2 |
| SessionNaming.ZeroPad | main.py:37 | a number below `10^width` prints as exactly `width` decimal digits whose value is the number |
| SessionNaming.SessionId | main.py:37 | the session id is 14 decimal digits |
| SessionNaming.SessionIdRoundTrip | main.py:37 | reading the id's digit groups back gives year, month, day, hour, minute and second |
| SessionNaming.SessionIdCollision | main.py:37 | two sessions get the same id if and only if they start in the same second |
| SessionNaming.ConversationFileName | main.py:38 | `conversation_` + id + `.wav` is 17 characters longer than the id |
| SessionNaming.TranscriptFileName | main.py:39 | `transcript_` + id + `.txt` is 15 characters longer than the id |
| SessionNaming.FileNamesIdentifySession | main.py:37-39 | two sessions share a recording name, or a transcript name, if and only if they start in the same second |
| SessionNaming.RecordingAndTranscriptNamesDiffer | main.py:38-39 | a recording name never equals a transcript name |
| Relay.OpeningLog | main.py:114-115 | after the header write alone, the recording holds the header as its only segment and every other sink is empty |
| Relay.RecordingStartsWithHeader | main.py:114-115 | a log that opens with the header write records the header before any other byte |
| Relay.AudioDrainOrder | main.py:124-127 | draining agent audio takes the chunks in FIFO order; the k-th chunk is recorded, then immediately sent |
| Relay.TranscriptDrainOrder | main.py:130-134 | draining transcripts takes the events in queue order; the k-th event is sent as a `transcript` message, then immediately logged as `json.dumps(t) + "\n"` |
| Relay.AudioDrainSinks | main.py:124-127 | draining audio appends exactly the chunks' bytes to the recording, one segment per chunk, and exactly one audio message per chunk; it logs no line and queues nothing for the agent |
| Relay.TranscriptDrainSinks | main.py:130-134 | draining transcripts appends exactly one message and one line per event, in order; it records no audio and queues nothing |
| Relay.StepAudio | main.py:119-127 | one iteration appends the client frame and then every pending agent chunk to the recording |
| Relay.StepSegments | main.py:119-127 | one iteration records the client frame and then each agent chunk as separate writes, so nothing is dropped or duplicated |
| Relay.StepEnqueued | main.py:119-120 | one iteration queues exactly the received frame for the agent |
| Relay.StepMessages | main.py:123-132 | one iteration sends the pending agent audio, then the pending transcripts, and nothing else |
| Relay.StepLines | main.py:129-134 | one iteration logs exactly one line per pending transcript |
| Relay.StepKeepsSinks | main.py:118-134 | one iteration keeps every sink and the agent-bound queue equal to what the effect log puts there, and keeps the header write first |
| Relay.RecordingHasHeader | main.py:114-121 | in every valid session the recording begins with the WAV header |
| Relay.RecordingIsSegments | main.py:115-126 | in every valid session the recording is exactly its written segments laid end to end: the header, then each client frame and agent chunk |
| Relay.Session.constructor | main.py:32-39 | a new session has empty queues and sinks, names derived from the session id of the current second, an unset flag, and a recording holding the default header (line 115) |
| Relay.Session.ReceiveFrame | main.py:118-134 | one iteration: the frame is queued and recorded; both inbound queues end empty; the recording, the sent messages and the transcript lines grow by exactly what `Step` says; the invariant is kept |
| Relay.Session.QueueAndRecord | main.py:120-121 | the frame is appended to the agent-bound queue and written to the recording |
| Relay.Session.DrainAgentAudio | main.py:124-127 | empties the agent audio queue, appending every chunk to the recording and to the sent messages in order |
| Relay.Session.DrainTranscripts | main.py:130-134 | empties the transcript queue, appending one message and one serialised line per event in order |
| Relay.Session.AgentAudio | main.py:86-87 | the agent callback appends the chunk to the agent audio queue and keeps the invariant |
| Relay.Session.AgentTranscript | main.py:89-90 | the agent callback appends the event's attributes to the transcript queue and keeps the invariant |
| Relay.Session.AgentStopped | main.py:95-97 | when the agent connection fails to start, the flag is set and nothing the loop relays changes |
| Relay.Session.Disconnect | main.py:136-137 | on disconnect the flag is set and the loop stops; the files and sinks are unchanged |
| Relay.Conversation | main.py:114-137 | for a frame, an agent chunk and event, a second frame and a hang-up: the recording is header + first + second + chunk, one transcript line, the chunk's audio message and then the event message, and the flag is set |

## Left out

- Threads and timing: the agent thread and the keep-alive thread run concurrently with the receive loop. The model interleaves their queue operations only between whole loop iterations; a chunk that arrives while a queue is being drained is not modelled.
- The agent thread's forwarding loop (main.py:99-104), which takes frames off `client_audio_queue` and sends them to the agent, is not modelled. In the model that queue only grows.
- The keep-alive loop, the agent's configuration, `connection.start`, `connection.finish`, and the Deepgram SDK that calls the two callbacks are not modelled. `AgentStopped` also stands for the exception path at main.py:107-109.
- FastAPI routing, the static files, `websocket.accept`, and exceptions other than `WebSocketDisconnect` are not modelled.
- Relay.Session.Disconnect: models only a `WebSocketDisconnect` raised by `receive_bytes` between whole iterations. A disconnect raised by `send_bytes` (main.py:127) or `send_json` (main.py:132) inside a drain is not modelled. That path ends the loop partway through an iteration: the chunk already taken off the agent queue is recorded but never sent, or the transcript already taken off its queue is neither sent nor logged, and the rest of both queues stays unsent. The order lemmas ("each recorded chunk is then sent") hold only for iterations that complete.
- The `print` calls at main.py:108 and main.py:138 are console output and are not modelled.
- Real file I/O is not modelled. The recording and the transcript file are byte and line sequences in the session, and closing the files is not modelled.
- `json.dumps` is a parameter `serialize`; its output format is not modelled.
- Queues are unbounded, as `queue.Queue()` is.
- Session ids for years below 1000 are not modelled: `ValidTimestamp` requires four-digit years, because the platform's `%Y` may not pad them. Two calls started in the same second share their file names; the model proves when this happens and does not model what the shared files then contain.
- `agent_id` is unused by the relay and is not modelled.
- The header's RIFF size (36) and data size (0) are never updated after audio is written. The model records this as the code does.
- Relay.Conversation: stated for one exchange of two client frames with one agent chunk and one event between them, not for arbitrary arrival patterns.
