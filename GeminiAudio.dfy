/**
 * The proof-of-concept relay (backend/proof-of-concepts/gemini_audio.py):
 * the same four tasks as the production relay, but the browser hears
 * nothing about tool calls, the speech is forwarded without pacing, and
 * nothing catches a failed send, so it ends the connection like a tool call
 * that raises does. The browser is only ever sent speech.
 */
module GeminiAudio {
  import opened Common
  import opened Json
  import opened Tools
  import opened Relay

  datatype LoopState = LoopState(
    outQueue: seq<Frame>,
    audioInQueue: seq<Bytes>,
    session: seq<SessionInput>,
    client: seq<ClientMessage>,
    closed: bool)

  const Opened := LoopState([], [], [], [], false)

  /** One round of `send_realtime_audio_to_gemini`: the head frame is sent, or the failure ends the connection. */
  function SendRealtime(st: LoopState, delivered: bool): LoopState
    requires st.outQueue != []
  {
    var rest := st.(outQueue := st.outQueue[1..]);
    if delivered then rest.(session := st.session + [RealtimeAudio(st.outQueue[0])])
    else rest.(closed := true)
  }

  /** One message of a turn: audio is queued and nothing else looked at; otherwise a tool call is answered silently. */
  function Receive(st: LoopState, m: ServerMessage, web: Endpoints): LoopState
  {
    if |m.data| > 0 then st.(audioInQueue := st.audioInQueue + [m.data])
    else if m.toolCall.None? then st
    else
      var r := RunTools(m.toolCall.value, web, false);
      if r.responses.Some? then st.(session := st.session + [ToolResponse(r.responses.value)])
      else st.(closed := true)
  }

  /** One whole turn, then the flush of the unplayed speech. */
  function Turn(st: LoopState, turn: seq<ServerMessage>, web: Endpoints): LoopState
    decreases |turn|
  {
    if turn == [] then st.(audioInQueue := [])
    else
      var next := Receive(st, turn[0], web);
      if next.closed then next else Turn(next, turn[1..], web)
  }

  /** Every message sent to the browser is speech. */
  predicate OnlySpeech(client: seq<ClientMessage>)
  {
    forall k :: 0 <= k < |client| ==> client[k].AudioOut?
  }

  /**
   * A turn that does not close the connection ends with the speech queue
   * empty; no turn sends anything to the browser or touches the microphone queue.
   */
  lemma {:induction false} TurnFlushes(st: LoopState, turn: seq<ServerMessage>, web: Endpoints)
    ensures var r := Turn(st, turn, web);
      && (!r.closed ==> r.audioInQueue == [])
      && r.client == st.client && r.outQueue == st.outQueue
      && (st.closed ==> r.closed)
    decreases |turn|
  {
    if turn != [] {
      var next := Receive(st, turn[0], web);
      ToolResponsesMatchCalls(if turn[0].toolCall.Some? then turn[0].toolCall.value else [], web, false);
      if !next.closed {
        TurnFlushes(next, turn[1..], web);
      }
    }
  }

  /** A message carrying audio is never answered as a tool call. */
  lemma AudioSkipsToolCall(st: LoopState, m: ServerMessage, web: Endpoints)
    requires |m.data| > 0
    ensures var r := Receive(st, m, web);
      r.session == st.session && r.closed == st.closed && r.audioInQueue == st.audioInQueue + [m.data]
  {
  }

  /**
   * A tool-call message is answered by one batch with one response per call,
   * in call order, and nothing is said to the browser; a call that raises
   * sends no batch and ends the connection.
   */
  lemma ToolCallAnswered(st: LoopState, m: ServerMessage, web: Endpoints)
    requires |m.data| == 0 && m.toolCall.Some?
    ensures var r := Receive(st, m, web); var calls := m.toolCall.value;
      && r.client == st.client
      && if forall k :: 0 <= k < |calls| ==> CallTool(calls[k], web).Some? then
        r.closed == st.closed && |r.session| == |st.session| + 1
        && r.session[..|st.session|] == st.session
        && var last := r.session[|st.session|];
           last.ToolResponse? && |last.responses| == |calls|
           && forall k :: 0 <= k < |calls| ==> last.responses[k] == ResponseTo(calls[k], CallTool(calls[k], web).value)
      else
        r.closed && r.session == st.session
  {
    ToolResponsesMatchCalls(m.toolCall.value, web, false);
  }

  class AudioLoop {
    var outQueue: seq<Frame>
    var audioInQueue: seq<Bytes>
    var session: seq<SessionInput>
    var client: seq<ClientMessage>
    var closed: bool

    ghost var received: seq<Frame>
    ghost var taken: seq<Frame>

    function State(): LoopState
      reads this
    {
      LoopState(outQueue, audioInQueue, session, client, closed)
    }

    /**
     * The microphone queue is within its bound and first-in first-out; while
     * the connection is open the session has been sent every frame taken, in
     * order; the browser has only been sent speech.
     */
    ghost predicate Valid()
      reads this
    {
      && |outQueue| <= Capacity
      && taken + outQueue == received
      && AudioSent(session) <= taken
      && (!closed ==> AudioSent(session) == taken)
      && OnlySpeech(client)
    }

    constructor ()
      ensures State() == Opened && Valid()
      ensures received == [] && taken == []
    {
      outQueue := [];
      audioInQueue := [];
      session := [];
      client := [];
      closed := false;
      received := [];
      taken := [];
    }

    method Put(f: Frame)
      requires Valid() && |outQueue| < Capacity
      modifies this`outQueue, this`received
      ensures outQueue == old(outQueue) + [f] && received == old(received) + [f]
      ensures Valid()
    {
      outQueue := outQueue + [f];
      received := received + [f];
    }

    /** `listen_audio_from_websocket`, one message; errors are printed and the next message awaited. */
    method ListenAudioFromWebsocket(message: Option<Json>)
      requires Valid()
      requires |outQueue| + |InboundFrames(message)| <= Capacity
      modifies this`outQueue, this`received
      ensures outQueue == old(outQueue) + InboundFrames(message)
      ensures received == old(received) + InboundFrames(message)
      ensures Valid()
    {
      var chunks := MessageChunks(message);
      if chunks.Some? {
        PutChunks(chunks.value);
      }
    }

    /** The chunk loop of one message. */
    method PutChunks(cs: seq<Json>)
      requires Valid()
      requires |outQueue| + |ChunkFrames(cs)| <= Capacity
      modifies this`outQueue, this`received
      ensures outQueue == old(outQueue) + ChunkFrames(cs)
      ensures received == old(received) + ChunkFrames(cs)
      ensures Valid()
    {
      ghost var put: seq<Frame> := [];
      var i := 0;
      while i < |cs|
        invariant 0 <= i <= |cs|
        invariant ChunkFrames(cs) == put + ChunkFrames(cs[i..])
        invariant outQueue == old(outQueue) + put
        invariant received == old(received) + put
        invariant Valid()
      {
        assert cs[i..] == [cs[i]] + cs[i + 1..];
        match ChunkStep(cs[i]) {
          case Raise =>
            assert ChunkFrames(cs[i..]) == [];
            assert put + [] == put;
            return;
          case Skip =>
          case Enqueue(f) =>
            Put(f);
            put := put + [f];
        }
        i := i + 1;
      }
      assert cs[i..] == [];
      assert put + [] == put;
    }

    /** `send_realtime_audio_to_gemini`, one round; a failed send escapes the task and ends the connection. */
    method SendRealtimeAudioToGemini(delivered: bool)
      requires Valid() && !closed && outQueue != []
      modifies this
      ensures State() == SendRealtime(old(State()), delivered)
      ensures received == old(received) && taken == old(taken) + [old(outQueue)[0]]
      ensures Valid()
    {
      var msg := outQueue[0];
      outQueue := outQueue[1..];
      taken := taken + [msg];
      assert taken + outQueue == received by {
        assert old(outQueue) == [msg] + outQueue;
      }
      if delivered {
        AudioSentSnoc(session, RealtimeAudio(msg));
        session := session + [RealtimeAudio(msg)];
      } else {
        closed := true;
      }
    }

    /** The loop of `handle_tool_call`: the calls answered in order, stopping at the first that raises. */
    method AnswerCalls(calls: seq<Call>, web: Endpoints) returns (responses: Option<seq<FunctionResponse>>)
      ensures responses == RunTools(calls, web, false).responses
    {
      var answered: seq<FunctionResponse> := [];
      var i := 0;
      while i < |calls|
        invariant 0 <= i <= |calls|
        invariant |answered| == i
        invariant forall k :: 0 <= k < i ==> CallTool(calls[k], web).Some?
        invariant forall k :: 0 <= k < i ==> answered[k] == ResponseTo(calls[k], CallTool(calls[k], web).value)
      {
        var fc := calls[i];
        var tool := GetTool(AssistantName, fc.name);
        var resp: Option<Json> := None;
        if tool.Some? {
          resp := Invoke(tool.value, fc.args, web);
        }
        assert resp == CallTool(fc, web);
        if resp.None? {
          assert !CallTool(calls[i], web).Some?;
          ToolResponsesMatchCalls(calls, web, false);
          return None;
        }
        answered := answered + [ResponseTo(fc, resp.value)];
        i := i + 1;
      }
      ToolResponsesMatchCalls(calls, web, false);
      assert answered == RunTools(calls, web, false).responses.value;
      responses := Some(answered);
    }

    /** `handle_tool_call`: one batch of responses to the session; `ok` is false when a call raised and nothing was sent. */
    method HandleToolCall(calls: seq<Call>, web: Endpoints) returns (ok: bool)
      requires Valid()
      modifies this`session
      ensures var r := RunTools(calls, web, false);
        && ok == r.responses.Some?
        && session == old(session) + (if ok then [ToolResponse(r.responses.value)] else [])
      ensures Valid()
    {
      var responses := AnswerCalls(calls, web);
      ok := responses.Some?;
      if ok {
        AudioSentSnoc(session, ToolResponse(responses.value));
        session := session + [ToolResponse(responses.value)];
      }
    }

    /** `receive_audio_from_gemini`, one message of a turn; a tool call that raises ends the connection. */
    method ReceiveAudioFromGemini(m: ServerMessage, web: Endpoints)
      requires Valid() && !closed
      modifies this`audioInQueue, this`session, this`closed
      ensures State() == Receive(old(State()), m, web)
      ensures Valid()
    {
      if |m.data| > 0 {
        audioInQueue := audioInQueue + [m.data];
        return;
      }
      if m.toolCall.Some? {
        var ok := HandleToolCall(m.toolCall.value, web);
        if !ok {
          closed := true;
        }
      }
    }

    /** The end of a turn: `get_nowait` until the speech queue is empty. */
    method EndOfTurn()
      modifies this`audioInQueue
      ensures audioInQueue == []
    {
      while audioInQueue != []
        decreases |audioInQueue|
      {
        audioInQueue := audioInQueue[1..];
      }
    }

    /** One pass of the `while True` loop of `receive_audio_from_gemini`. */
    method ReceiveTurn(turn: seq<ServerMessage>, web: Endpoints)
      requires Valid() && !closed
      modifies this`audioInQueue, this`session, this`closed
      ensures State() == Turn(old(State()), turn, web)
      ensures Valid()
    {
      var i := 0;
      while i < |turn|
        invariant 0 <= i <= |turn|
        invariant Valid() && !closed
        invariant Turn(old(State()), turn, web) == Turn(State(), turn[i..], web)
      {
        assert turn[i..][0] == turn[i] && turn[i..][1..] == turn[i + 1..];
        ReceiveAudioFromGemini(turn[i], web);
        if closed {
          return;
        }
        i := i + 1;
      }
      assert turn[i..] == [];
      EndOfTurn();
    }

    /** `send_audio_to_client`, one round: the head chunk is forwarded at once, with no pause. */
    method SendAudioToClient()
      requires Valid() && !closed && audioInQueue != []
      modifies this`audioInQueue, this`client
      ensures audioInQueue == old(audioInQueue)[1..]
      ensures client == old(client) + [AudioOut(old(audioInQueue)[0])]
      ensures Valid()
    {
      var bytestream := audioInQueue[0];
      audioInQueue := audioInQueue[1..];
      client := client + [AudioOut(bytestream)];
      assert forall k :: 0 <= k < |old(client)| ==> client[k] == old(client)[k];
    }
  }
}
