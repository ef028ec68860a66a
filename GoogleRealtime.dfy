/**
 * The console experiment (backend/proof-of-concepts/google_realtime.py): a
 * Live session fed from the keyboard, the microphone and the camera, whose
 * speech is played locally. Microphone chunks and camera frames share one
 * queue of at most five entries. Typing "q" ends the program. Text from the
 * model is only printed and tool calls are never answered.
 */
module GoogleRealtime {
  import opened Common
  import opened Text
  import opened Relay

  /** An entry of `out_queue`: a microphone chunk or a camera frame (base64 JPEG). */
  datatype Media = PcmAudio(pcm: Bytes) | JpegImage(jpeg: string)

  /** What is sent to the Live session. */
  datatype Sent = TextTurn(text: string, endOfTurn: bool) | MediaIn(media: Media)

  // ---------------------------------------------------------------------
  // Keyboard (`send_text`)
  // ---------------------------------------------------------------------

  /** The line typed ends the program: compared after lower-casing only, so "Q" quits too and " q" does not. */
  predicate IsQuit(line: string)
  {
    Lower(line) == "q"
  }

  /** `text or "."`: an empty line is sent as a single dot. */
  function TextToSend(line: string): (r: string)
    ensures r != []
    ensures line != [] ==> r == line
  {
    if line == [] then "." else line
  }

  /** The turns `send_text` sends for the lines typed, up to the first that quits. */
  function TextTurns(lines: seq<string>): seq<Sent>
  {
    if lines == [] || IsQuit(lines[0]) then []
    else [TextTurn(TextToSend(lines[0]), true)] + TextTurns(lines[1..])
  }

  /** Every text sent is non-empty and ends the user's turn; lines before a quit are sent one each, unchanged or as ".". */
  lemma {:induction false} TextTurnsShape(lines: seq<string>)
    ensures |TextTurns(lines)| <= |lines|
    ensures forall k :: 0 <= k < |TextTurns(lines)| ==>
      && TextTurns(lines)[k] == TextTurn(TextToSend(lines[k]), true)
      && !IsQuit(lines[k])
      && TextTurns(lines)[k].text != []
  {
    if lines != [] && !IsQuit(lines[0]) {
      TextTurnsShape(lines[1..]);
      var r := TextTurns(lines);
      forall k | 1 <= k < |r|
        ensures r[k] == TextTurns(lines[1..])[k - 1] && lines[k] == lines[1..][k - 1]
      {
      }
    }
  }

  /** Some line typed quits. */
  predicate Quits(lines: seq<string>)
  {
    lines != [] && (IsQuit(lines[0]) || Quits(lines[1..]))
  }

  lemma {:induction false} QuitsIff(lines: seq<string>)
    ensures Quits(lines) <==> exists k :: 0 <= k < |lines| && IsQuit(lines[k])
    ensures !Quits(lines) ==> |TextTurns(lines)| == |lines|
  {
    if lines != [] {
      QuitsIff(lines[1..]);
      if Quits(lines[1..]) {
        var k :| 0 <= k < |lines[1..]| && IsQuit(lines[1..][k]);
        assert IsQuit(lines[k + 1]);
      }
      if exists k :: 0 <= k < |lines| && IsQuit(lines[k]) {
        var k :| 0 <= k < |lines| && IsQuit(lines[k]);
        if k > 0 {
          assert IsQuit(lines[1..][k - 1]);
        }
      }
    }
  }

  /** The lines from `i` on, as the loop of `send_text` meets them. */
  lemma TextTurnsFrom(lines: seq<string>, i: nat)
    requires i < |lines|
    ensures TextTurns(lines[i..]) ==
      if IsQuit(lines[i]) then [] else [TextTurn(TextToSend(lines[i]), true)] + TextTurns(lines[i + 1..])
    ensures Quits(lines[i..]) == (IsQuit(lines[i]) || Quits(lines[i + 1..]))
  {
    assert lines[i..][0] == lines[i] && lines[i..][1..] == lines[i + 1..];
  }

  /** A quitting line sends nothing, and nothing typed after it is sent. */
  lemma {:induction false} QuitStopsSending(before: seq<string>, q: string, after: seq<string>)
    requires forall k :: 0 <= k < |before| ==> !IsQuit(before[k])
    requires IsQuit(q)
    ensures TextTurns(before + [q] + after) == TextTurns(before)
    ensures |TextTurns(before)| == |before|
  {
    if before == [] {
      assert (before + [q] + after)[0] == q;
    } else {
      assert (before + [q] + after)[1..] == before[1..] + [q] + after;
      QuitStopsSending(before[1..], q, after);
    }
  }

  // ---------------------------------------------------------------------
  // Camera (`get_frames`)
  // ---------------------------------------------------------------------

  /** The frames `get_frames` puts for the captures, up to the first capture that fails. */
  function FramesBeforeGap(captures: seq<Option<string>>): seq<Media>
  {
    if captures == [] || captures[0].None? then []
    else [JpegImage(captures[0].value)] + FramesBeforeGap(captures[1..])
  }

  /** A failed capture ends the camera loop: it and everything after it put nothing, and all earlier frames are put in order. */
  lemma {:induction false} CameraStopsAtGap(before: seq<string>, after: seq<Option<string>>)
    ensures var captures := seq(|before|, k requires 0 <= k < |before| => Some(before[k])) + [None] + after;
      FramesBeforeGap(captures) == seq(|before|, k requires 0 <= k < |before| => JpegImage(before[k]))
  {
    var captures := seq(|before|, k requires 0 <= k < |before| => Some(before[k])) + [None] + after;
    if before == [] {
      assert captures[0] == None;
    } else {
      CameraStopsAtGap(before[1..], after);
      var tail := seq(|before| - 1, k requires 0 <= k < |before| - 1 => Some(before[1..][k])) + [None] + after;
      assert captures[1..] == tail;
      assert captures[0] == Some(before[0]);
    }
  }

  // ---------------------------------------------------------------------
  // Session replies (`receive_audio`)
  // ---------------------------------------------------------------------

  /** One message of a turn: only audio is kept; text is printed and a tool call ignored. */
  function Receive(audioInQueue: seq<Bytes>, m: ServerMessage): seq<Bytes>
  {
    if |m.data| > 0 then audioInQueue + [m.data] else audioInQueue
  }

  /** The speech queued by a turn's messages, before the flush. */
  function TurnAudio(turn: seq<ServerMessage>): (r: seq<Bytes>)
    ensures forall k :: 0 <= k < |r| ==> r[k] != []
  {
    if turn == [] then []
    else
      var rest := TurnAudio(turn[..|turn| - 1]);
      var m := turn[|turn| - 1];
      assert forall k :: 0 <= k < |rest| ==> (rest + [m.data])[k] == rest[k];
      Receive(rest, m)
  }

  /** A turn whose messages carry no audio, only text or tool calls, queues nothing. */
  lemma {:induction false} SilentTurnQueuesNothing(turn: seq<ServerMessage>)
    requires forall k :: 0 <= k < |turn| ==> turn[k].data == []
    ensures TurnAudio(turn) == []
  {
    if turn != [] {
      SilentTurnQueuesNothing(turn[..|turn| - 1]);
    }
  }

  /** Every audio part of the turn is queued, in order: the count of queued chunks is the count of messages with audio. */
  function CountAudio(turn: seq<ServerMessage>): nat
  {
    if turn == [] then 0 else CountAudio(turn[..|turn| - 1]) + (if |turn[|turn| - 1].data| > 0 then 1 else 0)
  }

  lemma {:induction false} TurnAudioCount(turn: seq<ServerMessage>)
    ensures |TurnAudio(turn)| == CountAudio(turn)
  {
    if turn != [] {
      TurnAudioCount(turn[..|turn| - 1]);
    }
  }

  /** The media the session has been sent, in order. */
  function MediaSent(session: seq<Sent>): seq<Media>
  {
    if session == [] then []
    else
      var last := session[|session| - 1];
      MediaSent(session[..|session| - 1]) + (if last.MediaIn? then [last.media] else [])
  }

  lemma MediaSentSnoc(session: seq<Sent>, x: Sent)
    ensures MediaSent(session + [x]) == MediaSent(session) + (if x.MediaIn? then [x.media] else [])
  {
    assert (session + [x])[..|session|] == session;
  }

  lemma {:induction false} MediaSentText(session: seq<Sent>, texts: seq<Sent>)
    requires forall k :: 0 <= k < |texts| ==> texts[k].TextTurn?
    ensures MediaSent(session + texts) == MediaSent(session)
  {
    if texts != [] {
      var init := texts[..|texts| - 1];
      assert session + texts == (session + init) + [texts[|texts| - 1]];
      MediaSentText(session, init);
      MediaSentSnoc(session + init, texts[|texts| - 1]);
    } else {
      assert session + texts == session;
    }
  }

  /** Typing never sends media. */
  lemma TextTurnsAreText(session: seq<Sent>, lines: seq<string>)
    ensures MediaSent(session + TextTurns(lines)) == MediaSent(session)
  {
    TextTurnsShape(lines);
    MediaSentText(session, TextTurns(lines));
  }

  class AudioLoop {
    var outQueue: seq<Media>
    var audioInQueue: seq<Bytes>
    var session: seq<Sent>
    var played: seq<Bytes>
    var exited: bool

    /** Every entry ever put into `out_queue`, and every entry taken out of it. */
    ghost var received: seq<Media>
    ghost var taken: seq<Media>

    /** The shared queue is within its bound and first-in first-out, and the session has been sent exactly what was taken, in order. */
    ghost predicate Valid()
      reads this
    {
      && |outQueue| <= Capacity
      && taken + outQueue == received
      && MediaSent(session) == taken
    }

    /** `run`: the session is open and both queues are new. */
    constructor ()
      ensures outQueue == [] && audioInQueue == [] && session == [] && played == [] && !exited
      ensures received == [] && taken == []
      ensures Valid()
    {
      outQueue := [];
      audioInQueue := [];
      session := [];
      played := [];
      exited := false;
      received := [];
      taken := [];
    }

    method Put(m: Media)
      requires Valid() && |outQueue| < Capacity
      modifies this`outQueue, this`received
      ensures outQueue == old(outQueue) + [m] && received == old(received) + [m]
      ensures Valid()
    {
      outQueue := outQueue + [m];
      received := received + [m];
    }

    /**
     * `send_text` over the lines typed: each is sent as one turn until a line
     * that quits, which ends the program (`run` then cancels the other tasks).
     */
    method SendText(lines: seq<string>)
      requires Valid() && !exited
      modifies this`session, this`exited
      ensures session == old(session) + TextTurns(lines)
      ensures exited == Quits(lines)
      ensures Valid()
    {
      SendLines(lines);
      TextTurnsAreText(old(session), lines);
    }

    /** The loop of `send_text`. */
    method SendLines(lines: seq<string>)
      requires !exited
      modifies this`session, this`exited
      ensures session == old(session) + TextTurns(lines)
      ensures exited == Quits(lines)
    {
      ghost var sent: seq<Sent> := [];
      var i := 0;
      while i < |lines|
        invariant 0 <= i <= |lines|
        invariant TextTurns(lines) == sent + TextTurns(lines[i..])
        invariant Quits(lines) == Quits(lines[i..])
        invariant session == old(session) + sent
        invariant !exited
      {
        TextTurnsFrom(lines, i);
        var quit := SendLine(lines[i]);
        if quit {
          assert sent + [] == sent;
          exited := true;
          return;
        }
        ghost var turn := TextTurn(TextToSend(lines[i]), true);
        assert sent + TextTurns(lines[i..]) == (sent + [turn]) + TextTurns(lines[i + 1..]);
        sent := sent + [turn];
        i := i + 1;
      }
      assert lines[i..] == [];
      assert sent + [] == sent;
    }

    /** One line of `send_text`: a quitting line sends nothing; any other is sent as one turn. */
    method SendLine(text: string) returns (quit: bool)
      modifies this`session
      ensures quit == IsQuit(text)
      ensures session == old(session) + if quit then [] else [TextTurn(TextToSend(text), true)]
    {
      quit := Lower(text) == "q";
      if quit {
        return;
      }
      session := session + [TextTurn(if text == "" then "." else text, true)];
    }

    /**
     * `get_frames` over the captures: each frame is put until a capture
     * fails, which ends the loop. The queue is assumed to have room.
     */
    method GetFrames(captures: seq<Option<string>>)
      requires Valid()
      requires |outQueue| + |FramesBeforeGap(captures)| <= Capacity
      modifies this`outQueue, this`received
      ensures outQueue == old(outQueue) + FramesBeforeGap(captures)
      ensures received == old(received) + FramesBeforeGap(captures)
      ensures Valid()
    {
      ghost var put: seq<Media> := [];
      var i := 0;
      while i < |captures|
        invariant 0 <= i <= |captures|
        invariant FramesBeforeGap(captures) == put + FramesBeforeGap(captures[i..])
        invariant outQueue == old(outQueue) + put
        invariant received == old(received) + put
        invariant Valid()
      {
        var frame := captures[i];
        assert captures[i..][0] == frame && captures[i..][1..] == captures[i + 1..];
        if frame.None? {
          assert put + [] == put;
          return;
        }
        Put(JpegImage(frame.value));
        put := put + [JpegImage(frame.value)];
        i := i + 1;
      }
      assert captures[i..] == [];
      assert put + [] == put;
    }

    /** `listen_audio`, one microphone chunk. */
    method ListenAudio(data: Bytes)
      requires Valid() && |outQueue| < Capacity
      modifies this`outQueue, this`received
      ensures outQueue == old(outQueue) + [PcmAudio(data)] && received == old(received) + [PcmAudio(data)]
      ensures Valid()
    {
      Put(PcmAudio(data));
    }

    /** `send_realtime`, one round: the oldest entry, audio or image, goes to the session. */
    method SendRealtime()
      requires Valid() && outQueue != []
      modifies this`outQueue, this`session, this`taken
      ensures outQueue == old(outQueue)[1..]
      ensures session == old(session) + [MediaIn(old(outQueue)[0])]
      ensures taken == old(taken) + [old(outQueue)[0]]
      ensures Valid()
    {
      var msg := outQueue[0];
      outQueue := outQueue[1..];
      taken := taken + [msg];
      assert taken + outQueue == received by {
        assert old(outQueue) == [msg] + outQueue;
      }
      MediaSentSnoc(session, MediaIn(msg));
      session := session + [MediaIn(msg)];
    }

    /** The `async for` over one turn: the audio of each message is queued, in order; nothing else is. */
    method ReceiveResponses(turn: seq<ServerMessage>)
      modifies this`audioInQueue
      ensures audioInQueue == old(audioInQueue) + TurnAudio(turn)
    {
      var i := 0;
      while i < |turn|
        invariant 0 <= i <= |turn|
        invariant audioInQueue == old(audioInQueue) + TurnAudio(turn[..i])
      {
        var response := turn[i];
        assert turn[..i + 1][..i] == turn[..i] && turn[..i + 1][i] == response;
        if |response.data| > 0 {
          audioInQueue := audioInQueue + [response.data];
        }
        i := i + 1;
      }
      assert turn[..i] == turn;
    }

    /** The end of a turn: `get_nowait` until the speech queue is empty. */
    method EndOfTurn()
      modifies this`audioInQueue
      ensures audioInQueue == []
    {
      while audioInQueue != []
        decreases |audioInQueue|
      {
        audioInQueue := audioInQueue[1..];
      }
    }

    /** One pass of the `while True` loop of `receive_audio`. */
    method ReceiveTurn(turn: seq<ServerMessage>)
      modifies this`audioInQueue
      ensures audioInQueue == []
    {
      ReceiveResponses(turn);
      EndOfTurn();
    }

    /** `play_audio`, one round: the oldest chunk of speech is played. */
    method PlayAudio()
      requires audioInQueue != []
      modifies this`audioInQueue, this`played
      ensures audioInQueue == old(audioInQueue)[1..]
      ensures played == old(played) + [old(audioInQueue)[0]]
    {
      var bytestream := audioInQueue[0];
      audioInQueue := audioInQueue[1..];
      played := played + [bytestream];
    }
  }
}
