/**
 * The receive loop of one call session: every frame the client sends is
 * queued for the agent and recorded, then the agent's pending audio is
 * recorded and relayed, then its pending transcripts are relayed and logged.
 * The agent's threads only fill the two inbound queues; the loop itself is
 * sequential, and the model follows it statement by statement.
 */
module Relay {
  import opened Wav
  import opened SessionNaming

  /** One chunk of raw PCM bytes, as handed across a queue. */
  type Frame = seq<Byte>

  /** `conversation_text.__dict__`: the event's attributes by name. */
  type Transcript = map<string, string>

  /** A message the relay sends to the client. */
  datatype ClientMessage =
    | AudioMessage(audio: Frame)                   // websocket.send_bytes(audio_chunk)
    | JsonMessage(kind: string, data: Transcript)  // websocket.send_json({"type": kind, "data": data})

  /** The `"type"` of every transcript message. */
  const TranscriptKind: string := "transcript"

  /** One observable action of the receive loop. */
  datatype Effect =
    | Enqueued(frame: Frame)        // client_audio_queue.put(data)
    | Recorded(bytes: Frame)        // conv_file.write(...)
    | Sent(message: ClientMessage)  // websocket.send_bytes / send_json
    | Logged(line: string)          // one write to the transcript file

  function AudioOf(e: Effect): seq<Byte> {
    if e.Recorded? then e.bytes else []
  }

  function SegmentsOf(e: Effect): seq<Frame> {
    if e.Recorded? then [e.bytes] else []
  }

  function MessagesOf(e: Effect): seq<ClientMessage> {
    if e.Sent? then [e.message] else []
  }

  function LinesOf(e: Effect): seq<string> {
    if e.Logged? then [e.line] else []
  }

  function EnqueuedOf(e: Effect): seq<Frame> {
    if e.Enqueued? then [e.frame] else []
  }

  /** What `pick` extracts from each effect, concatenated in the order the effects happened. */
  function Collect<T>(es: seq<Effect>, pick: Effect -> seq<T>): seq<T> {
    if es == [] then [] else Collect(es[..|es| - 1], pick) + pick(es[|es| - 1])
  }

  /** The bytes of consecutive frames, one after the other. */
  function Flatten(frames: seq<Frame>): seq<Byte> {
    if frames == [] then [] else Flatten(frames[..|frames| - 1]) + frames[|frames| - 1]
  }

  /** The audio messages for `chunks`: one per chunk, in queue order. */
  function AudioMessages(chunks: seq<Frame>): (ms: seq<ClientMessage>)
    ensures |ms| == |chunks|
  {
    seq(|chunks|, i requires 0 <= i < |chunks| => AudioMessage(chunks[i]))
  }

  /** The typed messages for `ts`: one `{"type": "transcript", "data": t}` per transcript, in queue order. */
  function TranscriptMessages(ts: seq<Transcript>): (ms: seq<ClientMessage>)
    ensures |ms| == |ts|
  {
    seq(|ts|, i requires 0 <= i < |ts| => JsonMessage(TranscriptKind, ts[i]))
  }

  /** The transcript-file lines for `ts`: `json.dumps(t) + "\n"` per transcript, in queue order. */
  function TranscriptLines(ts: seq<Transcript>, serialize: Transcript -> string): (ls: seq<string>)
    ensures |ls| == |ts|
  {
    seq(|ts|, i requires 0 <= i < |ts| => serialize(ts[i]) + "\n")
  }

  /** Draining agent audio: each chunk is written to the recording, then sent to the client. */
  function AudioDrain(chunks: seq<Frame>): seq<Effect> {
    if chunks == [] then []
    else
      var last := chunks[|chunks| - 1];
      AudioDrain(chunks[..|chunks| - 1]) + [Recorded(last), Sent(AudioMessage(last))]
  }

  /** Draining transcripts: each is sent to the client, then appended to the transcript file. */
  function TranscriptDrain(ts: seq<Transcript>, serialize: Transcript -> string): seq<Effect> {
    if ts == [] then []
    else
      var last := ts[|ts| - 1];
      TranscriptDrain(ts[..|ts| - 1], serialize)
      + [Sent(JsonMessage(TranscriptKind, last)), Logged(serialize(last) + "\n")]
  }

  /**
   * The effect log after one more loop iteration: queue and record the client
   * frame, then drain the agent audio, then drain the transcripts.
   */
  function Step(es: seq<Effect>, frame: Frame, chunks: seq<Frame>, ts: seq<Transcript>,
                serialize: Transcript -> string): seq<Effect>
  {
    es + [Enqueued(frame), Recorded(frame)] + AudioDrain(chunks) + TranscriptDrain(ts, serialize)
  }

  lemma CollectSnoc<T>(es: seq<Effect>, e: Effect, pick: Effect -> seq<T>)
    ensures Collect(es + [e], pick) == Collect(es, pick) + pick(e)
  {
    assert (es + [e])[..|es|] == es;
  }

  /** A log holding only the header write puts the header in the recording and nothing anywhere else. */
  lemma OpeningLog(header: seq<Byte>)
    ensures Collect([Recorded(header)], AudioOf) == header
    ensures Collect([Recorded(header)], SegmentsOf) == [header]
    ensures Collect([Recorded(header)], EnqueuedOf) == []
    ensures Collect([Recorded(header)], MessagesOf) == []
    ensures Collect([Recorded(header)], LinesOf) == []
  {
    var log := [Recorded(header)];
    assert log[..0] == [];
  }

  /** A log that opens with the header write records the header before anything else. */
  lemma RecordingStartsWithHeader(es: seq<Effect>, header: seq<Byte>)
    requires |es| > 0 && es[0] == Recorded(header)
    ensures |Collect(es, AudioOf)| >= |header|
    ensures Collect(es, AudioOf)[..|header|] == header
  {
    assert es == [Recorded(header)] + es[1..];
    CollectAppend([Recorded(header)], es[1..], AudioOf);
    OpeningLog(header);
  }

  /** Collecting distributes over the concatenation of two runs of effects. */
  lemma {:induction false} CollectAppend<T>(a: seq<Effect>, b: seq<Effect>, pick: Effect -> seq<T>)
    ensures Collect(a + b, pick) == Collect(a, pick) + Collect(b, pick)
  {
    if b != [] {
      var b' := b[..|b| - 1];
      assert a + b == (a + b') + [b[|b| - 1]];
      CollectSnoc(a + b', b[|b| - 1], pick);
      CollectAppend(a, b', pick);
      CollectSnoc(b', b[|b| - 1], pick);
      assert b' + [b[|b| - 1]] == b;
    } else {
      assert a + b == a;
    }
  }

  /** The recorded bytes are exactly the recorded segments laid end to end. */
  lemma {:induction false} AudioIsFlattenedSegments(es: seq<Effect>)
    ensures Collect(es, AudioOf) == Flatten(Collect(es, SegmentsOf))
  {
    if es != [] {
      var init := es[..|es| - 1];
      var e := es[|es| - 1];
      AudioIsFlattenedSegments(init);
      var segs := Collect(init, SegmentsOf);
      assert Collect(es, AudioOf) == Collect(init, AudioOf) + AudioOf(e);
      if e.Recorded? {
        assert Collect(es, SegmentsOf) == segs + [e.bytes];
        assert (segs + [e.bytes])[..|segs|] == segs;
      } else {
        assert Collect(es, SegmentsOf) == segs + [];
        assert segs + [] == segs;
        assert Collect(init, AudioOf) + [] == Collect(init, AudioOf);
      }
    }
  }

  /**
   * Draining agent audio works in FIFO order, chunk by chunk, and writes each
   * chunk to the recording immediately before sending it to the client.
   */
  lemma {:induction false} AudioDrainOrder(chunks: seq<Frame>, k: nat)
    requires k < |chunks|
    ensures |AudioDrain(chunks)| == 2 * |chunks|
    ensures AudioDrain(chunks)[2 * k] == Recorded(chunks[k])
    ensures AudioDrain(chunks)[2 * k + 1] == Sent(AudioMessage(chunks[k]))
  {
    var init := chunks[..|chunks| - 1];
    if k < |init| {
      AudioDrainOrder(init, k);
    } else if init != [] {
      AudioDrainOrder(init, 0);
    }
  }

  /**
   * Draining transcripts works in queue order and, for each one, sends the
   * typed message before appending its line to the transcript file.
   */
  lemma {:induction false} TranscriptDrainOrder(ts: seq<Transcript>, serialize: Transcript -> string, k: nat)
    requires k < |ts|
    ensures |TranscriptDrain(ts, serialize)| == 2 * |ts|
    ensures TranscriptDrain(ts, serialize)[2 * k] == Sent(JsonMessage(TranscriptKind, ts[k]))
    ensures TranscriptDrain(ts, serialize)[2 * k + 1] == Logged(serialize(ts[k]) + "\n")
  {
    var init := ts[..|ts| - 1];
    if k < |init| {
      TranscriptDrainOrder(init, serialize, k);
    } else if init != [] {
      TranscriptDrainOrder(init, serialize, 0);
    }
  }

  /** Collecting over two more effects adds what each of them contributes. */
  lemma CollectPair<T>(es: seq<Effect>, e1: Effect, e2: Effect, pick: Effect -> seq<T>)
    ensures Collect(es + [e1, e2], pick) == Collect(es, pick) + pick(e1) + pick(e2)
  {
    assert es + [e1, e2] == (es + [e1]) + [e2];
    CollectSnoc(es + [e1], e2, pick);
    CollectSnoc(es, e1, pick);
  }

  /**
   * What draining agent audio leaves in each sink: the chunks' bytes in the
   * recording as one segment each, one audio message per chunk, no transcript
   * line and nothing queued for the agent.
   */
  lemma {:induction false} AudioDrainSinks(chunks: seq<Frame>)
    ensures Collect(AudioDrain(chunks), AudioOf) == Flatten(chunks)
    ensures Collect(AudioDrain(chunks), SegmentsOf) == chunks
    ensures Collect(AudioDrain(chunks), MessagesOf) == AudioMessages(chunks)
    ensures Collect(AudioDrain(chunks), LinesOf) == []
    ensures Collect(AudioDrain(chunks), EnqueuedOf) == []
  {
    if chunks != [] {
      var init := chunks[..|chunks| - 1];
      var last := chunks[|chunks| - 1];
      var rec, snd := Recorded(last), Sent(AudioMessage(last));
      AudioDrainSinks(init);
      CollectPair(AudioDrain(init), rec, snd, AudioOf);
      CollectPair(AudioDrain(init), rec, snd, SegmentsOf);
      CollectPair(AudioDrain(init), rec, snd, MessagesOf);
      CollectPair(AudioDrain(init), rec, snd, LinesOf);
      CollectPair(AudioDrain(init), rec, snd, EnqueuedOf);
      assert init + [last] == chunks;
      assert AudioMessages(init) + [AudioMessage(last)] == AudioMessages(chunks);
    }
  }

  /**
   * What draining transcripts leaves in each sink: one typed message and one
   * serialised line per transcript, in queue order, and nothing recorded or
   * queued for the agent.
   */
  lemma {:induction false} TranscriptDrainSinks(ts: seq<Transcript>, serialize: Transcript -> string)
    ensures Collect(TranscriptDrain(ts, serialize), AudioOf) == []
    ensures Collect(TranscriptDrain(ts, serialize), SegmentsOf) == []
    ensures Collect(TranscriptDrain(ts, serialize), MessagesOf) == TranscriptMessages(ts)
    ensures Collect(TranscriptDrain(ts, serialize), LinesOf) == TranscriptLines(ts, serialize)
    ensures Collect(TranscriptDrain(ts, serialize), EnqueuedOf) == []
  {
    if ts != [] {
      var init := ts[..|ts| - 1];
      var last := ts[|ts| - 1];
      var snd, lg := Sent(JsonMessage(TranscriptKind, last)), Logged(serialize(last) + "\n");
      TranscriptDrainSinks(init, serialize);
      CollectPair(TranscriptDrain(init, serialize), snd, lg, AudioOf);
      CollectPair(TranscriptDrain(init, serialize), snd, lg, SegmentsOf);
      CollectPair(TranscriptDrain(init, serialize), snd, lg, MessagesOf);
      CollectPair(TranscriptDrain(init, serialize), snd, lg, LinesOf);
      CollectPair(TranscriptDrain(init, serialize), snd, lg, EnqueuedOf);
      assert TranscriptMessages(init) + [JsonMessage(TranscriptKind, last)] == TranscriptMessages(ts);
      assert TranscriptLines(init, serialize) + [serialize(last) + "\n"] == TranscriptLines(ts, serialize);
    }
  }

  /** Collecting after one more iteration adds what each part of the iteration contributes. */
  lemma CollectStep<T>(es: seq<Effect>, frame: Frame, chunks: seq<Frame>, ts: seq<Transcript>,
                       serialize: Transcript -> string, pick: Effect -> seq<T>)
    ensures Collect(Step(es, frame, chunks, ts, serialize), pick)
            == Collect(es, pick) + pick(Enqueued(frame)) + pick(Recorded(frame))
               + Collect(AudioDrain(chunks), pick) + Collect(TranscriptDrain(ts, serialize), pick)
  {
    var audio, text := AudioDrain(chunks), TranscriptDrain(ts, serialize);
    CollectAppend(es + [Enqueued(frame), Recorded(frame)] + audio, text, pick);
    CollectAppend(es + [Enqueued(frame), Recorded(frame)], audio, pick);
    CollectPair(es, Enqueued(frame), Recorded(frame), pick);
  }

  /**
   * One call session: the queues between the receive loop and the agent
   * thread, and what the loop has written to the client and to the two files.
   */
  class Session {
    const sessionId: string
    const conversationFileName: string
    const transcriptFileName: string
    /** `json.dumps`, taken as given. */
    const serialize: Transcript -> string
    /** The WAV header written when the recording is opened. */
    const header: seq<Byte>

    /** The bytes written to the conversation recording so far. */
    var conversationFile: seq<Byte>
    /** `client_audio_queue`: client audio waiting for the agent thread. */
    var clientAudioQueue: seq<Frame>
    /** `agent_audio_queue`: agent audio waiting for the receive loop, oldest first. */
    var agentAudioQueue: seq<Frame>
    /** `transcript_queue`: conversation events waiting for the receive loop, oldest first. */
    var transcriptQueue: seq<Transcript>
    /** Every message sent to the client so far, in order. */
    var sentToClient: seq<ClientMessage>
    /** Every write to the transcript file so far, one serialised event and newline each. */
    var transcriptLines: seq<string>
    /** `processing_complete`: once set, never cleared. */
    var processingComplete: bool
    /** Whether the websocket is still open, so the receive loop still runs. */
    var connected: bool

    /** Everything the receive loop has done, in the order it did it. */
    ghost var effects: seq<Effect>

    /**
     * The log starts with the header write, and the sinks and the outbound
     * queue are exactly what the logged effects put there.
     */
    ghost predicate Valid()
      reads this
    {
      && |effects| > 0 && effects[0] == Recorded(header)
      && conversationFile == Collect(effects, AudioOf)
      && clientAudioQueue == Collect(effects, EnqueuedOf)
      && sentToClient == Collect(effects, MessagesOf)
      && transcriptLines == Collect(effects, LinesOf)
    }

    /** The segments written to the recording: the header, then one per client frame or agent chunk. */
    ghost function Segments(): seq<Frame>
      reads this
    {
      Collect(effects, SegmentsOf)
    }

    /**
     * Accepting a connection: name the session after the current second, set
     * up empty queues, and write the default WAV header to the recording.
     */
    constructor (now: Timestamp, serialize: Transcript -> string)
      requires ValidTimestamp(now)
      ensures Valid()
      ensures sessionId == SessionId(now)
      ensures conversationFileName == ConversationFileName(sessionId)
      ensures transcriptFileName == TranscriptFileName(sessionId)
      ensures this.serialize == serialize && header == DefaultHeader
      ensures conversationFile == header && Segments() == [header]
      ensures clientAudioQueue == [] && agentAudioQueue == [] && transcriptQueue == []
      ensures sentToClient == [] && transcriptLines == []
      ensures !processingComplete && connected
    {
      sessionId := SessionId(now);
      conversationFileName := ConversationFileName(SessionId(now));
      transcriptFileName := TranscriptFileName(SessionId(now));
      this.serialize := serialize;
      var h := DefaultHeader;
      header := h;
      conversationFile := h;
      clientAudioQueue, agentAudioQueue, transcriptQueue := [], [], [];
      sentToClient, transcriptLines := [], [];
      processingComplete, connected := false, true;
      effects := [Recorded(h)];
      OpeningLog(h);
    }

    /**
     * One iteration of the receive loop for a frame the client sent: queue it
     * for the agent and record it, then drain the agent audio queue (record,
     * then send, each chunk), then drain the transcript queue (send, then log,
     * each event).
     */
    method ReceiveFrame(data: Frame)
      requires Valid() && connected
      modifies this
      ensures Valid()
      ensures effects == Step(old(effects), data, old(agentAudioQueue), old(transcriptQueue), serialize)
      ensures clientAudioQueue == old(clientAudioQueue) + [data]
      ensures agentAudioQueue == [] && transcriptQueue == []
      ensures conversationFile == old(conversationFile) + data + Flatten(old(agentAudioQueue))
      ensures Segments() == old(Segments()) + [data] + old(agentAudioQueue)
      ensures sentToClient == old(sentToClient) + AudioMessages(old(agentAudioQueue))
                                                + TranscriptMessages(old(transcriptQueue))
      ensures transcriptLines == old(transcriptLines) + TranscriptLines(old(transcriptQueue), serialize)
      ensures processingComplete == old(processingComplete) && connected
    {
      ghost var before, chunks, ts := effects, agentAudioQueue, transcriptQueue;
      QueueAndRecord(data);
      DrainAgentAudio();
      DrainTranscripts();
      StepKeepsSinks(before, data, chunks, ts, serialize, effects,
                     conversationFile, clientAudioQueue, sentToClient, transcriptLines);
    }

    /** `client_audio_queue.put(data)`, then `conv_file.write(data)`. */
    method QueueAndRecord(data: Frame)
      modifies this`clientAudioQueue, this`conversationFile, this`effects
      ensures clientAudioQueue == old(clientAudioQueue) + [data]
      ensures conversationFile == old(conversationFile) + data
      ensures effects == old(effects) + [Enqueued(data), Recorded(data)]
    {
      clientAudioQueue := clientAudioQueue + [data];
      conversationFile := conversationFile + data;
      effects := effects + [Enqueued(data), Recorded(data)];
    }

    /** `while not agent_audio_queue.empty()`: record each pending chunk, then send it. */
    method DrainAgentAudio()
      modifies this`agentAudioQueue, this`conversationFile, this`sentToClient, this`effects
      ensures agentAudioQueue == []
      ensures conversationFile == old(conversationFile) + Flatten(old(agentAudioQueue))
      ensures sentToClient == old(sentToClient) + AudioMessages(old(agentAudioQueue))
      ensures effects == old(effects) + AudioDrain(old(agentAudioQueue))
    {
      ghost var drained: seq<Frame> := [];
      while agentAudioQueue != []
        invariant old(agentAudioQueue) == drained + agentAudioQueue
        invariant conversationFile == old(conversationFile) + Flatten(drained)
        invariant sentToClient == old(sentToClient) + AudioMessages(drained)
        invariant effects == old(effects) + AudioDrain(drained)
        decreases |agentAudioQueue|
      {
        var chunk := agentAudioQueue[0];
        agentAudioQueue := agentAudioQueue[1..];
        conversationFile := conversationFile + chunk;
        effects := effects + [Recorded(chunk)];
        sentToClient := sentToClient + [AudioMessage(chunk)];
        effects := effects + [Sent(AudioMessage(chunk))];
        assert (drained + [chunk])[..|drained|] == drained;
        assert AudioMessages(drained + [chunk]) == AudioMessages(drained) + [AudioMessage(chunk)];
        drained := drained + [chunk];
      }
      assert drained == old(agentAudioQueue);
    }

    /** `while not transcript_queue.empty()`: send each pending event, then log it. */
    method DrainTranscripts()
      modifies this`transcriptQueue, this`sentToClient, this`transcriptLines, this`effects
      ensures transcriptQueue == []
      ensures sentToClient == old(sentToClient) + TranscriptMessages(old(transcriptQueue))
      ensures transcriptLines == old(transcriptLines) + TranscriptLines(old(transcriptQueue), serialize)
      ensures effects == old(effects) + TranscriptDrain(old(transcriptQueue), serialize)
    {
      ghost var logged: seq<Transcript> := [];
      while transcriptQueue != []
        invariant old(transcriptQueue) == logged + transcriptQueue
        invariant sentToClient == old(sentToClient) + TranscriptMessages(logged)
        invariant transcriptLines == old(transcriptLines) + TranscriptLines(logged, serialize)
        invariant effects == old(effects) + TranscriptDrain(logged, serialize)
        decreases |transcriptQueue|
      {
        var transcript := transcriptQueue[0];
        transcriptQueue := transcriptQueue[1..];
        sentToClient := sentToClient + [JsonMessage(TranscriptKind, transcript)];
        effects := effects + [Sent(JsonMessage(TranscriptKind, transcript))];
        transcriptLines := transcriptLines + [serialize(transcript) + "\n"];
        effects := effects + [Logged(serialize(transcript) + "\n")];
        assert (logged + [transcript])[..|logged|] == logged;
        assert TranscriptMessages(logged + [transcript])
               == TranscriptMessages(logged) + [JsonMessage(TranscriptKind, transcript)];
        assert TranscriptLines(logged + [transcript], serialize)
               == TranscriptLines(logged, serialize) + [serialize(transcript) + "\n"];
        logged := logged + [transcript];
      }
      assert logged == old(transcriptQueue);
    }

    /** `on_audio_data`: the agent thread queues one decoded audio chunk. */
    method AgentAudio(chunk: Frame)
      requires Valid()
      modifies this`agentAudioQueue
      ensures Valid()
      ensures agentAudioQueue == old(agentAudioQueue) + [chunk]
    {
      agentAudioQueue := agentAudioQueue + [chunk];
    }

    /** `on_conversation_text`: the agent thread queues one conversation event. */
    method AgentTranscript(t: Transcript)
      requires Valid()
      modifies this`transcriptQueue
      ensures Valid()
      ensures transcriptQueue == old(transcriptQueue) + [t]
    {
      transcriptQueue := transcriptQueue + [t];
    }

    /**
     * The agent thread gives up (the connection does not start, or it raises):
     * it sets the flag, but the receive loop keeps relaying.
     */
    method AgentStopped()
      requires Valid()
      modifies this`processingComplete
      ensures Valid() && processingComplete
    {
      processingComplete := true;
    }

    /** `WebSocketDisconnect`: the loop ends and sets the flag; nothing else changes. */
    method Disconnect()
      requires Valid()
      modifies this`processingComplete, this`connected
      ensures Valid() && processingComplete && !connected
    {
      processingComplete := true;
      connected := false;
    }
  }

  /** In every reachable session the recording begins with the WAV header. */
  lemma RecordingHasHeader(s: Session)
    requires s.Valid()
    ensures |s.conversationFile| >= |s.header|
    ensures s.conversationFile[..|s.header|] == s.header
  {
    RecordingStartsWithHeader(s.effects, s.header);
  }

  /** In every reachable session the recording is its segments laid end to end. */
  lemma RecordingIsSegments(s: Session)
    requires s.Valid()
    ensures s.conversationFile == Flatten(s.Segments())
  {
    AudioIsFlattenedSegments(s.effects);
  }

  /** What one more iteration adds to the recording: the client frame, then the agent chunks. */
  lemma StepAudio(es: seq<Effect>, frame: Frame, chunks: seq<Frame>, ts: seq<Transcript>,
                  serialize: Transcript -> string)
    ensures Collect(Step(es, frame, chunks, ts, serialize), AudioOf)
            == Collect(es, AudioOf) + frame + Flatten(chunks)
  {
    AudioDrainSinks(chunks);
    TranscriptDrainSinks(ts, serialize);
    CollectStep(es, frame, chunks, ts, serialize, AudioOf);
    assert AudioOf(Enqueued(frame)) == [];
  }

  /** The segments one more iteration records: the client frame, then each agent chunk. */
  lemma StepSegments(es: seq<Effect>, frame: Frame, chunks: seq<Frame>, ts: seq<Transcript>,
                     serialize: Transcript -> string)
    ensures Collect(Step(es, frame, chunks, ts, serialize), SegmentsOf)
            == Collect(es, SegmentsOf) + [frame] + chunks
  {
    AudioDrainSinks(chunks);
    TranscriptDrainSinks(ts, serialize);
    CollectStep(es, frame, chunks, ts, serialize, SegmentsOf);
    assert SegmentsOf(Enqueued(frame)) == [];
  }

  /** What one more iteration adds to the agent's queue: the client frame alone. */
  lemma StepEnqueued(es: seq<Effect>, frame: Frame, chunks: seq<Frame>, ts: seq<Transcript>,
                     serialize: Transcript -> string)
    ensures Collect(Step(es, frame, chunks, ts, serialize), EnqueuedOf)
            == Collect(es, EnqueuedOf) + [frame]
  {
    AudioDrainSinks(chunks);
    TranscriptDrainSinks(ts, serialize);
    CollectStep(es, frame, chunks, ts, serialize, EnqueuedOf);
    assert EnqueuedOf(Recorded(frame)) == [];
  }

  /** What one more iteration sends to the client: the agent audio, then the transcripts. */
  lemma StepMessages(es: seq<Effect>, frame: Frame, chunks: seq<Frame>, ts: seq<Transcript>,
                     serialize: Transcript -> string)
    ensures Collect(Step(es, frame, chunks, ts, serialize), MessagesOf)
            == Collect(es, MessagesOf) + AudioMessages(chunks) + TranscriptMessages(ts)
  {
    AudioDrainSinks(chunks);
    TranscriptDrainSinks(ts, serialize);
    CollectStep(es, frame, chunks, ts, serialize, MessagesOf);
    var prior := Collect(es, MessagesOf);
    assert prior + MessagesOf(Enqueued(frame)) + MessagesOf(Recorded(frame)) == prior;
  }

  /** What one more iteration writes to the transcript file: one line per transcript. */
  lemma StepLines(es: seq<Effect>, frame: Frame, chunks: seq<Frame>, ts: seq<Transcript>,
                  serialize: Transcript -> string)
    ensures Collect(Step(es, frame, chunks, ts, serialize), LinesOf)
            == Collect(es, LinesOf) + TranscriptLines(ts, serialize)
  {
    AudioDrainSinks(chunks);
    TranscriptDrainSinks(ts, serialize);
    CollectStep(es, frame, chunks, ts, serialize, LinesOf);
    var prior := Collect(es, LinesOf);
    assert prior + LinesOf(Enqueued(frame)) + LinesOf(Recorded(frame)) + [] == prior;
  }

  /** An iteration keeps every sink equal to what the logged effects put there. */
  lemma StepKeepsSinks(es: seq<Effect>, frame: Frame, chunks: seq<Frame>, ts: seq<Transcript>,
                       serialize: Transcript -> string, es': seq<Effect>,
                       file: seq<Byte>, queue: seq<Frame>, sent: seq<ClientMessage>, lines: seq<string>)
    requires |es| > 0 && es' == Step(es, frame, chunks, ts, serialize)
    requires file == Collect(es, AudioOf) + frame + Flatten(chunks)
    requires queue == Collect(es, EnqueuedOf) + [frame]
    requires sent == Collect(es, MessagesOf) + AudioMessages(chunks) + TranscriptMessages(ts)
    requires lines == Collect(es, LinesOf) + TranscriptLines(ts, serialize)
    ensures |es'| > 0 && es'[0] == es[0]
    ensures file == Collect(es', AudioOf)
    ensures queue == Collect(es', EnqueuedOf)
    ensures sent == Collect(es', MessagesOf)
    ensures lines == Collect(es', LinesOf)
    ensures Collect(es', SegmentsOf) == Collect(es, SegmentsOf) + [frame] + chunks
  {
    StepAudio(es, frame, chunks, ts, serialize);
    StepSegments(es, frame, chunks, ts, serialize);
    StepEnqueued(es, frame, chunks, ts, serialize);
    StepMessages(es, frame, chunks, ts, serialize);
    StepLines(es, frame, chunks, ts, serialize);
  }

  /**
   * A whole call: the client sends a frame, the agent then answers with an
   * audio chunk and one conversation event, the client sends a second frame
   * and hangs up. The agent's chunk is recorded after the second client
   * frame, because each iteration writes the client frame before draining
   * the agent queue.
   */
  method Conversation(now: Timestamp, serialize: Transcript -> string,
                      first: Frame, reply: Frame, event: Transcript, second: Frame)
      returns (file: seq<Byte>, lines: seq<string>, sent: seq<ClientMessage>, complete: bool)
    requires ValidTimestamp(now)
    ensures file == DefaultHeader + first + second + reply
    ensures lines == [serialize(event) + "\n"]
    ensures sent == [AudioMessage(reply), JsonMessage(TranscriptKind, event)]
    ensures complete
  {
    var s := new Session(now, serialize);
    ghost var header := s.header;
    s.ReceiveFrame(first);
    assert Flatten([]) == [] && AudioMessages([]) == [] && TranscriptMessages([]) == [];
    assert s.conversationFile == header + first;
    assert TranscriptLines([], serialize) == [];
    s.AgentAudio(reply);
    s.AgentTranscript(event);
    s.ReceiveFrame(second);
    assert Flatten([reply]) == reply;
    assert s.conversationFile == header + first + second + reply;
    s.Disconnect();
    file, lines, sent, complete := s.conversationFile, s.transcriptLines, s.sentToClient, s.processingComplete;
  }
}
