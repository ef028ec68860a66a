/**
 * The production relay (backend/server.py): one `AudioLoop` per browser
 * connection, bridging the browser's websocket and a Gemini Live session
 * through two queues. `out_queue` (at most five frames) carries microphone
 * audio from the browser to the session; `audio_in_queue` (unbounded)
 * carries the model's speech back, paced at its playback duration and
 * flushed at the end of every turn.
 *
 * The four tasks are modelled as methods, one step each; which task runs
 * when is left to the caller. The session and the browser are append-only
 * logs (`session`, `client`); what the session answers is an input.
 */
module ServerRelay {
  import opened Common
  import opened Json
  import opened Tools
  import opened Relay

  // ---------------------------------------------------------------------
  // Playback pacing
  // ---------------------------------------------------------------------

  const SampleRate := 24000
  const Channels := 1
  const BytesPerSample := 2

  /** How long `send_audio_to_client` sleeps after forwarding `length` bytes of 16-bit mono PCM at 24 kHz. */
  function PlaybackDelay(length: nat): real
  {
    length as real / 48000.0
  }

  /** 48000 bytes are one second of speech; a delay is never negative. */
  lemma OneSecondOfSpeech()
    ensures PlaybackDelay(48000) == 1.0
    ensures PlaybackDelay(0) == 0.0
    ensures forall n: nat :: PlaybackDelay(n) >= 0.0
  {
  }

  /** The delay grows with the chunk and is additive, so splitting a chunk does not change the total pause. */
  lemma PlaybackDelayAdditive(a: nat, b: nat)
    ensures PlaybackDelay(a + b) == PlaybackDelay(a) + PlaybackDelay(b)
    ensures a <= b ==> PlaybackDelay(a) <= PlaybackDelay(b)
  {
  }

  /** Bytes of audio forwarded to the browser so far. */
  function BytesPlayed(client: seq<ClientMessage>): nat
  {
    if client == [] then 0
    else
      var last := client[|client| - 1];
      BytesPlayed(client[..|client| - 1]) + (if last.AudioOut? then |last.audio| else 0)
  }

  lemma BytesPlayedSnoc(client: seq<ClientMessage>, m: ClientMessage)
    ensures BytesPlayed(client + [m]) == BytesPlayed(client) + (if m.AudioOut? then |m.audio| else 0)
  {
    assert (client + [m])[..|client|] == client;
  }

  /** None of the messages is speech. */
  predicate NoAudio(msgs: seq<ClientMessage>)
  {
    forall k :: 0 <= k < |msgs| ==> !msgs[k].AudioOut?
  }

  lemma NoAudioAppend(a: seq<ClientMessage>, b: seq<ClientMessage>)
    requires NoAudio(a) && NoAudio(b)
    ensures NoAudio(a + b)
  {
    forall k | |a| <= k < |a + b|
      ensures (a + b)[k] == b[k - |a|]
    {
    }
  }

  lemma {:induction false} BytesPlayedAppend(client: seq<ClientMessage>, more: seq<ClientMessage>)
    requires NoAudio(more)
    ensures BytesPlayed(client + more) == BytesPlayed(client)
  {
    if more != [] {
      var init := more[..|more| - 1];
      assert client + more == (client + init) + [more[|more| - 1]];
      BytesPlayedAppend(client, init);
      BytesPlayedSnoc(client + init, more[|more| - 1]);
    } else {
      assert client + more == client;
    }
  }

  // ---------------------------------------------------------------------
  // Health check
  // ---------------------------------------------------------------------

  datatype HttpResponse = HttpResponse(status: int, body: string)

  const HttpOk := 200

  /**
   * `health_check`: both health paths are answered 200 "OK\n"; for any other
   * path nothing is answered and the websocket handshake goes ahead.
   */
  function HealthCheck(path: string): (r: Option<HttpResponse>)
    ensures r.Some? <==> path == "/healthz" || path == "/health"
    ensures r.Some? ==> r.value == HttpResponse(HttpOk, "OK\n")
  {
    if path == "/healthz" then Some(HttpResponse(HttpOk, "OK\n"))
    else if path == "/health" then Some(HttpResponse(HttpOk, "OK\n"))
    else None
  }

  // ---------------------------------------------------------------------
  // The state of one connection, and what each step does to it
  // ---------------------------------------------------------------------

  datatype LoopState = LoopState(
    outQueue: seq<Frame>,
    audioInQueue: seq<Bytes>,
    session: seq<SessionInput>,
    client: seq<ClientMessage>,
    senderRunning: bool,
    closed: bool,
    slept: real)

  /** The state `run` sets up: empty queues, nothing said yet, all tasks running. */
  const Opened := LoopState([], [], [], [], true, false, 0.0)

  /**
   * One round of `send_realtime_audio_to_gemini`: the head frame is taken and
   * sent; when sending fails the browser gets one `model_error` and the task
   * ends, while the other tasks go on.
   */
  function SendRealtime(st: LoopState, delivered: bool): LoopState
    requires st.outQueue != []
  {
    var rest := st.(outQueue := st.outQueue[1..]);
    if delivered then rest.(session := st.session + [RealtimeAudio(st.outQueue[0])])
    else rest.(client := st.client + [ModelError], senderRunning := false)
  }

  /**
   * One message of a turn in `receive_audio_from_gemini`: audio is queued for
   * the browser and nothing else of the message is looked at; otherwise a tool
   * call is answered. A call that raises ends the task group: the connection
   * is closed and the browser gets a `model_error`.
   */
  function Receive(st: LoopState, m: ServerMessage, web: Endpoints): LoopState
  {
    if |m.data| > 0 then st.(audioInQueue := st.audioInQueue + [m.data])
    else if m.toolCall.None? then st
    else
      var r := RunTools(m.toolCall.value, web, true);
      if r.responses.Some? then
        st.(client := st.client + r.notes, session := st.session + [ToolResponse(r.responses.value)])
      else
        st.(client := st.client + r.notes + [ModelError], closed := true)
  }

  /** The end of a turn: whatever speech has not been forwarded yet is dropped. */
  function Flush(st: LoopState): LoopState
  {
    st.(audioInQueue := [])
  }

  /** One whole turn: its messages in order, then the flush; nothing more once the connection closes. */
  function Turn(st: LoopState, turn: seq<ServerMessage>, web: Endpoints): LoopState
    decreases |turn|
  {
    if turn == [] then Flush(st)
    else
      var next := Receive(st, turn[0], web);
      if next.closed then next else Turn(next, turn[1..], web)
  }

  /** One round of `send_audio_to_client`: the head chunk goes to the browser, then the task sleeps for its duration. */
  function SendToClient(st: LoopState): LoopState
    requires st.audioInQueue != []
  {
    var chunk := st.audioInQueue[0];
    st.(audioInQueue := st.audioInQueue[1..],
        client := st.client + [AudioOut(chunk)],
        slept := st.slept + PlaybackDelay(|chunk|))
  }

  // ---------------------------------------------------------------------
  // Properties of the steps
  // ---------------------------------------------------------------------

  /**
   * Every turn that does not close the connection leaves the speech queue
   * empty, and a turn never touches the microphone queue, the sender or the
   * pacing.
   */
  lemma {:induction false} TurnFlushes(st: LoopState, turn: seq<ServerMessage>, web: Endpoints)
    ensures var r := Turn(st, turn, web);
      && (!r.closed ==> r.audioInQueue == [])
      && r.outQueue == st.outQueue && r.senderRunning == st.senderRunning && r.slept == st.slept
      && (st.closed ==> r.closed)
    decreases |turn|
  {
    if turn != [] {
      var next := Receive(st, turn[0], web);
      if !next.closed {
        TurnFlushes(next, turn[1..], web);
      }
    }
  }

  /** A turn that closes the connection does so at a tool call that raised, and reports it last. */
  lemma {:induction false} TurnClosesWithError(st: LoopState, turn: seq<ServerMessage>, web: Endpoints)
    requires !st.closed
    ensures var r := Turn(st, turn, web);
      r.closed ==> |r.client| > 0 && r.client[|r.client| - 1] == ModelError
    decreases |turn|
  {
    if turn != [] {
      var next := Receive(st, turn[0], web);
      if !next.closed {
        TurnClosesWithError(next, turn[1..], web);
      }
    }
  }

  /** The `interrupted` flag is only logged: it does not change what a message does. */
  lemma InterruptionOnlyLogged(st: LoopState, m: ServerMessage, web: Endpoints)
    ensures Receive(st, m.(interrupted := true), web) == Receive(st, m.(interrupted := false), web)
  {
  }

  /** The text of a message is only printed. */
  lemma TextOnlyPrinted(st: LoopState, m: ServerMessage, web: Endpoints, t: string)
    ensures Receive(st, m.(text := t), web) == Receive(st, m, web)
  {
  }

  /** A message carrying audio is never answered as a tool call, even when it has one. */
  lemma AudioSkipsToolCall(st: LoopState, m: ServerMessage, web: Endpoints)
    requires |m.data| > 0
    ensures var r := Receive(st, m, web);
      r.session == st.session && r.client == st.client && r.closed == st.closed
      && r.audioInQueue == st.audioInQueue + [m.data]
  {
  }

  /**
   * A tool-call message is answered with exactly one response batch, one
   * response per call in call order, after two browser notifications per call;
   * if any call raises, no batch is sent and the connection closes with an error.
   */
  lemma ToolCallAnswered(st: LoopState, m: ServerMessage, web: Endpoints)
    requires |m.data| == 0 && m.toolCall.Some?
    ensures var r := Receive(st, m, web); var calls := m.toolCall.value;
      if forall k :: 0 <= k < |calls| ==> CallTool(calls[k], web).Some? then
        r.closed == st.closed && |r.client| == |st.client| + 2 * |calls|
        && |r.session| == |st.session| + 1
        && r.session[..|st.session|] == st.session
        && var last := r.session[|st.session|];
           last.ToolResponse? && |last.responses| == |calls|
           && forall k :: 0 <= k < |calls| ==> last.responses[k] == ResponseTo(calls[k], CallTool(calls[k], web).value)
      else
        r.closed && r.session == st.session && r.client[|r.client| - 1] == ModelError
  {
    ToolResponsesMatchCalls(m.toolCall.value, web, true);
  }

  /** A failed send is reported once and stops forwarding; nothing already sent is undone. */
  lemma SendFailureStopsSender(st: LoopState)
    requires st.outQueue != []
    ensures var r := SendRealtime(st, false);
      !r.senderRunning && r.session == st.session && r.client == st.client + [ModelError]
      && r.outQueue == st.outQueue[1..]
  {
  }

  /** The pause after each chunk sent to the browser is its playback time. */
  lemma PacingMatchesPlayback(st: LoopState)
    requires st.audioInQueue != []
    requires st.slept == PlaybackDelay(BytesPlayed(st.client))
    ensures var r := SendToClient(st);
      r.slept == PlaybackDelay(BytesPlayed(r.client))
      && r.client[|r.client| - 1] == AudioOut(st.audioInQueue[0])
  {
    var chunk := st.audioInQueue[0];
    BytesPlayedSnoc(st.client, AudioOut(chunk));
    PlaybackDelayAdditive(BytesPlayed(st.client), |chunk|);
  }

  /** Announcing tool calls never counts as speech played. */
  lemma {:induction false} NotesAreNotAudio(calls: seq<Call>, web: Endpoints)
    ensures NoAudio(RunTools(calls, web, true).notes)
  {
    if calls != [] {
      NotesAreNotAudio(calls[1..], web);
      var rest := RunTools(calls[1..], web, true).notes;
      match CallTool(calls[0], web)
      case None =>
      case Some(result) =>
        NoAudioAppend([ToolCalled(calls[0].name), ToolResponded(result)], rest);
    }
  }

  /**
   * What holds between the steps: the microphone queue is within its bound
   * and first-in first-out (`received` is every frame put, `taken` every
   * frame taken out); the session has been sent the frames taken, in order,
   * all of them while the sender runs; the time slept is the playback time of
   * the speech forwarded.
   */
  ghost predicate Invariant(st: LoopState, received: seq<Frame>, taken: seq<Frame>)
  {
    && |st.outQueue| <= Capacity
    && taken + st.outQueue == received
    && AudioSent(st.session) <= taken
    && (st.senderRunning ==> AudioSent(st.session) == taken)
    && st.slept == PlaybackDelay(BytesPlayed(st.client))
  }

  /** The connection starts out satisfying the invariant. */
  lemma OpenedInvariant()
    ensures Invariant(Opened, [], [])
  {
  }

  /** Sending the head frame moves it from the queue to the frames taken, and keeps the invariant. */
  lemma SendRealtimeKeepsInvariant(st: LoopState, delivered: bool, received: seq<Frame>, taken: seq<Frame>)
    requires Invariant(st, received, taken) && st.senderRunning && st.outQueue != []
    ensures Invariant(SendRealtime(st, delivered), received, taken + [st.outQueue[0]])
  {
    var msg := st.outQueue[0];
    assert (taken + [msg]) + st.outQueue[1..] == received by {
      assert st.outQueue == [msg] + st.outQueue[1..];
    }
    if delivered {
      AudioSentSnoc(st.session, RealtimeAudio(msg));
    } else {
      BytesPlayedSnoc(st.client, ModelError);
    }
  }

  /** Receiving a message keeps the invariant: tool notifications and errors are not speech. */
  lemma ReceiveKeepsInvariant(st: LoopState, m: ServerMessage, web: Endpoints, received: seq<Frame>, taken: seq<Frame>)
    requires Invariant(st, received, taken)
    ensures Invariant(Receive(st, m, web), received, taken)
  {
    if |m.data| == 0 && m.toolCall.Some? {
      var calls := m.toolCall.value;
      var r := RunTools(calls, web, true);
      NotesAreNotAudio(calls, web);
      BytesPlayedAppend(st.client, r.notes);
      if r.responses.Some? {
        AudioSentSnoc(st.session, ToolResponse(r.responses.value));
      } else {
        BytesPlayedSnoc(st.client + r.notes, ModelError);
      }
    }
  }

  /** A whole turn keeps the invariant. */
  lemma {:induction false} TurnKeepsInvariant(st: LoopState, turn: seq<ServerMessage>, web: Endpoints, received: seq<Frame>, taken: seq<Frame>)
    requires Invariant(st, received, taken)
    ensures Invariant(Turn(st, turn, web), received, taken)
    decreases |turn|
  {
    if turn != [] {
      ReceiveKeepsInvariant(st, turn[0], web, received, taken);
      var next := Receive(st, turn[0], web);
      if !next.closed {
        TurnKeepsInvariant(next, turn[1..], web, received, taken);
      }
    }
  }

  /** Forwarding a chunk keeps the invariant: the pause matches the speech. */
  lemma SendToClientKeepsInvariant(st: LoopState, received: seq<Frame>, taken: seq<Frame>)
    requires Invariant(st, received, taken) && st.audioInQueue != []
    ensures Invariant(SendToClient(st), received, taken)
  {
    PacingMatchesPlayback(st);
  }

  // ---------------------------------------------------------------------
  // The connection object
  // ---------------------------------------------------------------------

  class AudioLoop {
    var outQueue: seq<Frame>
    var audioInQueue: seq<Bytes>
    var session: seq<SessionInput>
    var client: seq<ClientMessage>
    var senderRunning: bool
    var closed: bool
    var slept: real

    /** Every frame ever put into `out_queue`, and every frame taken out of it. */
    ghost var received: seq<Frame>
    ghost var taken: seq<Frame>

    function State(): LoopState
      reads this
    {
      LoopState(outQueue, audioInQueue, session, client, senderRunning, closed, slept)
    }

    /** The invariant, of the current state. */
    ghost predicate Valid()
      reads this
    {
      Invariant(State(), received, taken)
    }

    /** `run`: the session is open and both queues are new. */
    constructor ()
      ensures State() == Opened && Valid()
      ensures received == [] && taken == []
    {
      outQueue := [];
      audioInQueue := [];
      session := [];
      client := [];
      senderRunning := true;
      closed := false;
      slept := 0.0;
      received := [];
      taken := [];
    }

    /** `out_queue.put` when there is room. */
    method Put(f: Frame)
      requires Valid() && |outQueue| < Capacity
      modifies this`outQueue, this`received
      ensures outQueue == old(outQueue) + [f] && received == old(received) + [f]
      ensures Valid()
    {
      outQueue := outQueue + [f];
      received := received + [f];
    }

    /**
     * `listen_audio_from_websocket`, one message: the audio chunks are put in
     * order until a chunk raises; the error is printed and the next message
     * awaited. The queue is assumed to have room for them (`put` would
     * otherwise wait for the sender).
     */
    method ListenAudioFromWebsocket(message: Option<Json>)
      requires Valid()
      requires |outQueue| + |InboundFrames(message)| <= Capacity
      modifies this`outQueue, this`received
      ensures outQueue == old(outQueue) + InboundFrames(message)
      ensures received == old(received) + InboundFrames(message)
      ensures Valid()
    {
      var chunks := MessageChunks(message);
      if chunks.Some? {
        PutChunks(chunks.value);
      }
    }

    /** The chunk loop of one message. */
    method PutChunks(cs: seq<Json>)
      requires Valid()
      requires |outQueue| + |ChunkFrames(cs)| <= Capacity
      modifies this`outQueue, this`received
      ensures outQueue == old(outQueue) + ChunkFrames(cs)
      ensures received == old(received) + ChunkFrames(cs)
      ensures Valid()
    {
      ghost var put: seq<Frame> := [];
      var i := 0;
      while i < |cs|
        invariant 0 <= i <= |cs|
        invariant ChunkFrames(cs) == put + ChunkFrames(cs[i..])
        invariant outQueue == old(outQueue) + put
        invariant received == old(received) + put
        invariant Valid()
      {
        assert cs[i..] == [cs[i]] + cs[i + 1..];
        match ChunkStep(cs[i]) {
          case Raise =>
            assert ChunkFrames(cs[i..]) == [];
            assert put + [] == put;
            return;
          case Skip =>
          case Enqueue(f) =>
            Put(f);
            put := put + [f];
        }
        i := i + 1;
      }
      assert cs[i..] == [];
      assert put + [] == put;
    }

    /** `send_realtime_audio_to_gemini`, one round: take the head frame and send it, or report the failure and stop. */
    method SendRealtimeAudioToGemini(delivered: bool)
      requires Valid() && !closed && senderRunning && outQueue != []
      modifies this
      ensures State() == SendRealtime(old(State()), delivered)
      ensures received == old(received) && taken == old(taken) + [old(outQueue)[0]]
      ensures Valid()
    {
      SendRealtimeKeepsInvariant(State(), delivered, received, taken);
      var msg := outQueue[0];
      outQueue := outQueue[1..];
      taken := taken + [msg];
      if delivered {
        session := session + [RealtimeAudio(msg)];
      } else {
        client := client + [ModelError];
        senderRunning := false;
      }
    }

    /**
     * One call of `handle_tool_call`: announce it, look the tool up and invoke
     * it, and announce the result; `None` when the lookup or the call raised.
     */
    method AnswerCall(fc: Call, web: Endpoints) returns (resp: Option<Json>)
      modifies this`client
      ensures resp == CallTool(fc, web)
      ensures client == old(client) + (if resp.Some? then [ToolCalled(fc.name), ToolResponded(resp.value)] else [ToolCalled(fc.name)])
    {
      client := client + [ToolCalled(fc.name)];
      var tool := GetTool(AssistantName, fc.name);
      resp := None;
      if tool.Some? {
        resp := Invoke(tool.value, fc.args, web);
      }
      if resp.Some? {
        client := client + [ToolResponded(resp.value)];
      }
    }

    /** The loop of `handle_tool_call`: the calls answered in order, stopping at the first that raises. */
    method AnswerCalls(calls: seq<Call>, web: Endpoints) returns (responses: Option<seq<FunctionResponse>>)
      modifies this`client
      ensures responses == RunTools(calls, web, true).responses
      ensures client == old(client) + RunTools(calls, web, true).notes
    {
      ghost var notes: seq<ClientMessage> := [];
      var answered: seq<FunctionResponse> := [];
      var i := 0;
      assert calls[i..] == calls;
      PrependNothing(RunTools(calls, web, true));
      while i < |calls|
        invariant 0 <= i <= |calls|
        invariant RunTools(calls, web, true) == Prepend(notes, answered, RunTools(calls[i..], web, true))
        invariant client == old(client) + notes
      {
        var fc := calls[i];
        var resp := AnswerCall(fc, web);
        RunToolsStep(calls, i, web, notes, answered);
        if resp.None? {
          assert client == old(client) + (notes + [ToolCalled(fc.name)]);
          return None;
        }
        ghost var pair := [ToolCalled(fc.name), ToolResponded(resp.value)];
        assert client == old(client) + (notes + pair);
        notes := notes + pair;
        answered := answered + [ResponseTo(fc, resp.value)];
        i := i + 1;
      }
      assert calls[i..] == [];
      assert notes + [] == notes && answered + [] == answered;
      responses := Some(answered);
    }

    /**
     * `handle_tool_call`: each call is announced to the browser, looked up and
     * invoked, and its result announced; the responses go to the session in
     * one batch. `ok` is false when a lookup or a call raised, in which case
     * nothing reaches the session.
     */
    method HandleToolCall(calls: seq<Call>, web: Endpoints) returns (ok: bool)
      modifies this`client, this`session
      ensures var r := RunTools(calls, web, true);
        && ok == r.responses.Some?
        && client == old(client) + r.notes
        && session == old(session) + (if ok then [ToolResponse(r.responses.value)] else [])
    {
      var responses := AnswerCalls(calls, web);
      ok := responses.Some?;
      if ok {
        session := session + [ToolResponse(responses.value)];
      }
    }

    /**
     * `receive_audio_from_gemini`, one message of a turn. A tool call that
     * raises escapes the task; the task group then cancels the connection and
     * `run` reports a `model_error` to the browser.
     */
    method ReceiveAudioFromGemini(m: ServerMessage, web: Endpoints)
      requires Valid() && !closed
      modifies this`audioInQueue, this`client, this`session, this`closed
      ensures State() == Receive(old(State()), m, web)
      ensures Valid()
    {
      ReceiveKeepsInvariant(State(), m, web, received, taken);
      if |m.data| > 0 {
        audioInQueue := audioInQueue + [m.data];
        return;
      }
      if m.toolCall.Some? {
        var ok := HandleToolCall(m.toolCall.value, web);
        if !ok {
          client := client + [ModelError];
          closed := true;
        }
      }
    }

    /** The end of a turn: `get_nowait` until the speech queue is empty. */
    method EndOfTurn()
      modifies this`audioInQueue
      ensures State() == Flush(old(State()))
    {
      while audioInQueue != []
        decreases |audioInQueue|
      {
        audioInQueue := audioInQueue[1..];
      }
    }

    /** One pass of the `while True` loop of `receive_audio_from_gemini`: a whole turn, then the flush. */
    method ReceiveTurn(turn: seq<ServerMessage>, web: Endpoints)
      requires Valid() && !closed
      modifies this
      ensures State() == Turn(old(State()), turn, web)
      ensures received == old(received) && taken == old(taken)
      ensures Valid()
    {
      var i := 0;
      while i < |turn|
        invariant 0 <= i <= |turn|
        invariant Valid() && !closed
        invariant Turn(old(State()), turn, web) == Turn(State(), turn[i..], web)
        invariant received == old(received) && taken == old(taken)
      {
        assert turn[i..][0] == turn[i] && turn[i..][1..] == turn[i + 1..];
        ReceiveAudioFromGemini(turn[i], web);
        if closed {
          return;
        }
        i := i + 1;
      }
      assert turn[i..] == [];
      EndOfTurn();
    }

    /** `send_audio_to_client`, one round: forward the head chunk, then sleep for its playback time. */
    method SendAudioToClient()
      requires Valid() && !closed && audioInQueue != []
      modifies this
      ensures State() == SendToClient(old(State()))
      ensures received == old(received) && taken == old(taken)
      ensures Valid()
    {
      SendToClientKeepsInvariant(State(), received, taken);
      var bytestream := audioInQueue[0];
      audioInQueue := audioInQueue[1..];
      client := client + [AudioOut(bytestream)];
      var durationSeconds := |bytestream| as real / (SampleRate * Channels * BytesPerSample) as real;
      slept := slept + durationSeconds;
    }
  }
}
