/**
 * What the two websocket relays (backend/server.py and
 * backend/proof-of-concepts/gemini_audio.py) have in common: the frames the
 * browser sends, the messages of the Live session, the filter that keeps
 * only the audio chunks of an inbound message, and the answering of a tool
 * call.
 */
module Relay {
  import opened Common
  import opened Text
  import opened Json
  import opened Tools

  type Bytes = seq<bv8>

  /** `out_queue` has `maxsize=5`. */
  const Capacity := 5

  /** An entry of `out_queue`: `{"data": ..., "mime_type": ...}`. */
  datatype Frame = Frame(data: Json, mimeType: string)

  /** A function call the model asks for. */
  datatype Call = Call(id: string, name: string, args: map<string, Json>)

  /** `types.FunctionResponse` */
  datatype FunctionResponse = FunctionResponse(id: string, name: string, response: Json, willContinue: bool)

  /**
   * One message of a turn of the Live session, with the parts the relays
   * read: the inline audio (`data`), the text, the tool call and the
   * `interrupted` flag.
   */
  datatype ServerMessage = ServerMessage(data: Bytes, text: string, toolCall: Option<seq<Call>>, interrupted: bool)

  /** What a relay sends to the Live session. */
  datatype SessionInput = RealtimeAudio(frame: Frame) | ToolResponse(responses: seq<FunctionResponse>)

  /** What a relay sends to the browser (the JSON encoding is not modelled). */
  datatype ClientMessage =
    | AudioOut(audio: Bytes)
    | ToolCalled(toolName: string)
    | ToolResponded(result: Json)
    | ModelError

  // ---------------------------------------------------------------------
  // Inbound filter (`listen_audio_from_websocket`)
  // ---------------------------------------------------------------------

  datatype ChunkVerdict = Enqueue(frame: Frame) | Skip | Raise

  /**
   * One media chunk: an object whose `mime_type` is "audio/pcm" is enqueued
   * with its `data`; another `mime_type` is skipped; a chunk that is not an
   * object, has no `mime_type`, or is audio without `data` raises.
   */
  function ChunkStep(chunk: Json): ChunkVerdict
  {
    if !chunk.JObj? || "mime_type" !in chunk.fields then Raise
    else if chunk.fields["mime_type"] != JStr("audio/pcm") then Skip
    else if "data" !in chunk.fields then Raise
    else Enqueue(Frame(chunk.fields["data"], "audio/pcm"))
  }

  /** The chunk loop: the frames put, in order, up to the first chunk that raises. */
  function ChunkFrames(chunks: seq<Json>): seq<Frame>
  {
    if chunks == [] then []
    else match ChunkStep(chunks[0])
      case Raise => []
      case Skip => ChunkFrames(chunks[1..])
      case Enqueue(f) => [f] + ChunkFrames(chunks[1..])
  }

  /**
   * `data["realtime_input"]["media_chunks"]` of a decoded message, or `None`
   * when the message raises before the chunk loop (it did not decode, the
   * keys are missing, or the membership test is applied to a value that
   * cannot answer it). A message without `realtime_input` has no chunks.
   */
  function MessageChunks(message: Option<Json>): Option<seq<Json>>
  {
    match message
    case None => None
    case Some(JObj(fields)) =>
      if "realtime_input" !in fields then Some([])
      else
        var input := fields["realtime_input"];
        if !input.JObj? || "media_chunks" !in input.fields then None
        else Elements(input.fields["media_chunks"])
    case Some(JArr(items)) => if JStr("realtime_input") in items then None else Some([])
    case Some(JStr(s)) => if Contains(s, "realtime_input") then None else Some([])
    case Some(_) => None
  }

  /** The frames one inbound message puts into `out_queue`. */
  function InboundFrames(message: Option<Json>): seq<Frame>
  {
    match MessageChunks(message)
    case None => []
    case Some(chunks) => ChunkFrames(chunks)
  }

  /** Every frame put is an "audio/pcm" frame carrying the `data` of one of the chunks. */
  lemma {:induction false} ChunkFramesAreAudio(chunks: seq<Json>)
    ensures |ChunkFrames(chunks)| <= |chunks|
    ensures forall f :: f in ChunkFrames(chunks) ==>
      f.mimeType == "audio/pcm" && exists c :: c in chunks && ChunkStep(c) == Enqueue(f)
  {
    if chunks != [] {
      ChunkFramesAreAudio(chunks[1..]);
      forall f | f in ChunkFrames(chunks)
        ensures f.mimeType == "audio/pcm" && exists c :: c in chunks && ChunkStep(c) == Enqueue(f)
      {
        if ChunkStep(chunks[0]) == Enqueue(f) {
          assert chunks[0] in chunks;
        } else {
          assert f in ChunkFrames(chunks[1..]);
          var c :| c in chunks[1..] && ChunkStep(c) == Enqueue(f);
          assert c in chunks;
        }
      }
    }
  }

  /** The chunks are handled in order: a well-formed prefix contributes its frames first. */
  lemma {:induction false} ChunkFramesAppend(c1: seq<Json>, c2: seq<Json>)
    requires forall k :: 0 <= k < |c1| ==> !ChunkStep(c1[k]).Raise?
    ensures ChunkFrames(c1 + c2) == ChunkFrames(c1) + ChunkFrames(c2)
  {
    if c1 != [] {
      assert (c1 + c2)[1..] == c1[1..] + c2;
      ChunkFramesAppend(c1[1..], c2);
    } else {
      assert c1 + c2 == c2;
    }
  }

  /** A chunk that raises ends the message: nothing after it is enqueued, and what came before stays. */
  lemma {:induction false} ChunkFramesStopAtRaise(c1: seq<Json>, bad: Json, c2: seq<Json>)
    requires forall k :: 0 <= k < |c1| ==> !ChunkStep(c1[k]).Raise?
    requires ChunkStep(bad).Raise?
    ensures ChunkFrames(c1 + [bad] + c2) == ChunkFrames(c1)
  {
    assert c1 + [bad] + c2 == c1 + ([bad] + c2);
    ChunkFramesAppend(c1, [bad] + c2);
    assert ChunkFrames([bad] + c2) == [];
    assert ChunkFrames(c1) + [] == ChunkFrames(c1);
  }

  /** A message that does not decode, or lacks `realtime_input`, enqueues nothing. */
  lemma MalformedMessageEnqueuesNothing(message: Option<Json>)
    requires message.None? || (message.value.JObj? && "realtime_input" !in message.value.fields)
    ensures InboundFrames(message) == []
  {
  }

  // ---------------------------------------------------------------------
  // Tool calls (`handle_tool_call`)
  // ---------------------------------------------------------------------

  /** `get_tool(ASSISTANT_NAME, fc.name)(**fc.args)`: `None` when the lookup or the call raises. */
  function CallTool(c: Call, web: Endpoints): Option<Json>
  {
    match GetTool(AssistantName, c.name)
    case None => None
    case Some(tool) => Invoke(tool, c.args, web)
  }

  /** The response built for one answered call. */
  function ResponseTo(c: Call, result: Json): FunctionResponse
  {
    FunctionResponse(c.id, c.name, JObj(map["result" := result]), false)
  }

  /**
   * What answering a batch of calls sends: the notifications to the browser
   * (when `notify`), and the responses, or `None` when some call raises and
   * the batch is never sent.
   */
  datatype ToolRun = ToolRun(notes: seq<ClientMessage>, responses: Option<seq<FunctionResponse>>)

  function RunTools(calls: seq<Call>, web: Endpoints, notify: bool): ToolRun
  {
    if calls == [] then ToolRun([], Some([]))
    else
      var c := calls[0];
      var called := if notify then [ToolCalled(c.name)] else [];
      match CallTool(c, web)
      case None => ToolRun(called, None)
      case Some(result) =>
        var rest := RunTools(calls[1..], web, notify);
        var answered := if notify then [ToolResponded(result)] else [];
        ToolRun(called + answered + rest.notes,
                if rest.responses.None? then None else Some([ResponseTo(c, result)] + rest.responses.value))
  }

  /**
   * A batch is answered exactly when every call succeeds, and then with one
   * response per call, in call order, keeping each call's id and name,
   * wrapping its result as `{"result": ...}` and not asking to continue;
   * two notifications go to the browser per call when `notify`, none otherwise.
   */
  lemma ToolResponsesMatchCalls(calls: seq<Call>, web: Endpoints, notify: bool)
    ensures var r := RunTools(calls, web, notify);
      && (r.responses.Some? <==> forall k :: 0 <= k < |calls| ==> CallTool(calls[k], web).Some?)
      && (r.responses.Some? ==>
            |r.responses.value| == |calls|
            && (forall k :: 0 <= k < |calls| ==>
                  r.responses.value[k] == ResponseTo(calls[k], CallTool(calls[k], web).value))
            && |r.notes| == (if notify then 2 * |calls| else 0))
      && (!notify ==> r.notes == [])
  {
    AnsweredIffAllSucceed(calls, web, notify);
    if forall k :: 0 <= k < |calls| ==> CallTool(calls[k], web).Some? {
      ResponsesInCallOrder(calls, web, notify);
    }
    SilentBatch(calls, web);
  }

  /** The batch is answered exactly when every call succeeds. */
  lemma {:induction false} AnsweredIffAllSucceed(calls: seq<Call>, web: Endpoints, notify: bool)
    ensures RunTools(calls, web, notify).responses.Some? <==> forall k :: 0 <= k < |calls| ==> CallTool(calls[k], web).Some?
  {
    if calls != [] {
      AnsweredIffAllSucceed(calls[1..], web, notify);
      if RunTools(calls, web, notify).responses.Some? {
        forall k | 0 <= k < |calls|
          ensures CallTool(calls[k], web).Some?
        {
          if k > 0 {
            assert calls[k] == calls[1..][k - 1];
          }
        }
      }
      if forall k :: 0 <= k < |calls| ==> CallTool(calls[k], web).Some? {
        assert CallTool(calls[0], web).Some?;
        forall k | 0 <= k < |calls[1..]|
          ensures CallTool(calls[1..][k], web).Some?
        {
          assert calls[1..][k] == calls[k + 1];
        }
      }
    }
  }

  /** When every call succeeds, the batch holds one response per call, in call order, after two notes per call when `notify`. */
  lemma {:induction false} ResponsesInCallOrder(calls: seq<Call>, web: Endpoints, notify: bool)
    requires forall k :: 0 <= k < |calls| ==> CallTool(calls[k], web).Some?
    ensures var r := RunTools(calls, web, notify);
      && r.responses.Some? && |r.responses.value| == |calls|
      && (forall k :: 0 <= k < |calls| ==>
            r.responses.value[k] == ResponseTo(calls[k], CallTool(calls[k], web).value))
      && |r.notes| == (if notify then 2 * |calls| else 0)
  {
    if calls != [] {
      forall k | 0 <= k < |calls[1..]|
        ensures CallTool(calls[1..][k], web).Some?
      {
        assert calls[1..][k] == calls[k + 1];
      }
      ResponsesInCallOrder(calls[1..], web, notify);
      var r := RunTools(calls, web, notify);
      forall k | 0 <= k < |calls|
        ensures r.responses.value[k] == ResponseTo(calls[k], CallTool(calls[k], web).value)
      {
        if k > 0 {
          assert calls[k] == calls[1..][k - 1];
        }
      }
    }
  }

  /** Without notifications the browser is told nothing. */
  lemma {:induction false} SilentBatch(calls: seq<Call>, web: Endpoints)
    ensures RunTools(calls, web, false).notes == []
  {
    if calls != [] {
      SilentBatch(calls[1..], web);
    }
  }

  /** A call naming a tool the registry does not have makes the whole batch go unanswered. */
  lemma UnknownToolLosesBatch(calls: seq<Call>, web: Endpoints, notify: bool, k: nat)
    requires k < |calls| && GetTool(AssistantName, calls[k].name).None?
    ensures RunTools(calls, web, notify).responses.None?
  {
    ToolResponsesMatchCalls(calls, web, notify);
  }

  // ---------------------------------------------------------------------
  // Logs
  // ---------------------------------------------------------------------

  /** The frames a relay has forwarded to the session, in order. */
  function AudioSent(session: seq<SessionInput>): seq<Frame>
  {
    if session == [] then []
    else
      var last := session[|session| - 1];
      AudioSent(session[..|session| - 1]) + (if last.RealtimeAudio? then [last.frame] else [])
  }

  lemma AudioSentSnoc(session: seq<SessionInput>, x: SessionInput)
    ensures AudioSent(session + [x]) == AudioSent(session) + (if x.RealtimeAudio? then [x.frame] else [])
  {
    assert (session + [x])[..|session|] == session;
  }

  /** Where to prepend what earlier calls of a batch have produced. */
  function Prepend(notes: seq<ClientMessage>, responses: seq<FunctionResponse>, r: ToolRun): ToolRun
  {
    ToolRun(notes + r.notes, if r.responses.None? then None else Some(responses + r.responses.value))
  }

  lemma PrependNothing(r: ToolRun)
    ensures Prepend([], [], r) == r
  {
    assert [] + r.notes == r.notes;
    if r.responses.Some? {
      assert [] + r.responses.value == r.responses.value;
    }
  }

  lemma PrependTwice(n1: seq<ClientMessage>, r1: seq<FunctionResponse>, n2: seq<ClientMessage>, r2: seq<FunctionResponse>, x: ToolRun)
    ensures Prepend(n1, r1, Prepend(n2, r2, x)) == Prepend(n1 + n2, r1 + r2, x)
  {
    assert n1 + (n2 + x.notes) == (n1 + n2) + x.notes;
    if x.responses.Some? {
      assert r1 + (r2 + x.responses.value) == (r1 + r2) + x.responses.value;
    }
  }

  /** The batch from call `i` on, as the loop of `handle_tool_call` with notifications meets it. */
  lemma RunToolsFrom(calls: seq<Call>, i: nat, web: Endpoints)
    requires i < |calls|
    ensures var c := calls[i];
      RunTools(calls[i..], web, true) ==
        match CallTool(c, web)
        case None => ToolRun([ToolCalled(c.name)], None)
        case Some(result) =>
          Prepend([ToolCalled(c.name), ToolResponded(result)], [ResponseTo(c, result)], RunTools(calls[i + 1..], web, true))
  {
    var c := calls[i];
    assert calls[i..][0] == c;
    assert calls[i..][1..] == calls[i + 1..];
    match CallTool(c, web)
    case None =>
    case Some(result) =>
      var rest := RunTools(calls[i + 1..], web, true);
      assert [ToolCalled(c.name)] + [ToolResponded(result)] + rest.notes == [ToolCalled(c.name), ToolResponded(result)] + rest.notes;
  }

  /** One turn of the loop of `handle_tool_call` with notifications: what call `i` adds to the batch. */
  lemma RunToolsStep(calls: seq<Call>, i: nat, web: Endpoints, notes: seq<ClientMessage>, answered: seq<FunctionResponse>)
    requires i < |calls|
    requires RunTools(calls, web, true) == Prepend(notes, answered, RunTools(calls[i..], web, true))
    ensures var c := calls[i];
      match CallTool(c, web)
      case None => RunTools(calls, web, true) == ToolRun(notes + [ToolCalled(c.name)], None)
      case Some(result) =>
        RunTools(calls, web, true) ==
          Prepend(notes + [ToolCalled(c.name), ToolResponded(result)], answered + [ResponseTo(c, result)], RunTools(calls[i + 1..], web, true))
  {
    RunToolsFrom(calls, i, web);
    var c := calls[i];
    match CallTool(c, web)
    case None =>
    case Some(result) =>
      PrependTwice(notes, answered, [ToolCalled(c.name), ToolResponded(result)], [ResponseTo(c, result)],
                   RunTools(calls[i + 1..], web, true));
  }
}
