/** From the bot's JSON-RPC messages to the browser's event stream: the translation of notifications,
    and the loop that streams a session's inbox to the chat client. */
module ChatStream {
  import opened Prelude
  import opened Wire

  type Fields = map<string, Json>

  // ---------------------------------------------------------------------------------------------
  // Translation of bot messages
  // ---------------------------------------------------------------------------------------------

  /** A string field; absent, missing and non-string are the same. */
  function Text(m: Option<Fields>, key: string): Option<string> {
    if m.Some? && key in m.value && m.value[key].Str? then Some(m.value[key].s) else None
  }

  /** An object field. */
  function Object(m: Option<Fields>, key: string): Option<Fields> {
    if m.Some? && key in m.value && m.value[key].Obj? then Some(m.value[key].fields) else None
  }

  function OrDefault(s: string, default: string): string {
    if s == "" then default else s
  }

  function SimpleEvent(kind: string, content: string): Fields {
    map["type" := Str(kind), "content" := Str(content)]
  }

  function ToolResultText(update: Fields, codec: Codec): string {
    if "content" !in update then ""
    else
      match update["content"]
      case Null => ""
      case Str(s) => s
      case Obj(fields) => Text(Some(fields), "text").GetOr("")
      case j => codec.marshal(j)
  }

  function ToolInput(update: Fields, codec: Codec): string {
    if "content" !in update then ""
    else
      match update["content"]
      case Null => ""
      case Str(s) => s
      case j => codec.marshal(j)
  }

  function MediaEvent(content: Option<Fields>): Option<Fields> {
    var url := Text(Object(content, "media"), "downloadUrl").GetOr("");
    if url == "" then None
    else
      var data := map["type" := Str("url"), "content" := Str(url)];
      var caption := Text(content, "text").GetOr("");
      Some(map["type" := Str("media"),
               "data" := Obj(if caption == "" then data else data["caption" := Str(caption)])])
  }

  /** A bot notification as a chat event; none when it cannot be translated. */
  function TranslateBotEvent(rpcMethod: string, params: Option<Fields>, codec: Codec): Option<Fields> {
    if rpcMethod != "session/update" || Object(params, "update").None? then None
    else
      var update := Object(params, "update").value;
      var kind := Text(Some(update), "sessionUpdate").GetOr("");
      var content := Object(Some(update), "content");
      if kind == "agent_message_chunk" then Some(SimpleEvent("chunk", Text(content, "text").GetOr("")))
      else if kind == "agent_message_final" then Some(SimpleEvent("done", Text(content, "text").GetOr("")))
      else if kind == "tool_result" then
        Some(map["type" := Str("tool_result"),
                 "name" := Str(OrDefault(Text(Some(update), "title").GetOr(""), "tool")),
                 "status" := Str(OrDefault(Text(Some(update), "status").GetOr(""), "completed")),
                 "content" := Str(ToolResultText(update, codec))])
      else if kind == "agent_thought_chunk" then Some(SimpleEvent("thinking", Text(content, "text").GetOr("")))
      else if kind == "tool_call" then
        Some(map["type" := Str("tool_call"),
                 "name" := Str(OrDefault(Text(Some(update), "title").GetOr(""), "tool")),
                 "input" := Str(ToolInput(update, codec))])
      else if kind == "agent_media" then MediaEvent(content)
      else if Text(content, "text").Some? then Some(SimpleEvent("chunk", Text(content, "text").value))
      else None
  }

  /** The event an error response to a request becomes, with the session it goes to. */
  function ErrorReply(msg: Fields): (string, Fields) {
    var err := Object(Some(msg), "error");
    var inData := Text(Object(err, "data"), "sessionId").GetOr("");
    (if inData != "" then inData else Text(Some(msg), "sessionId").GetOr(""),
     SimpleEvent("error", Text(err, "message").GetOr("Unknown error from bot")))
  }

  /** What one raw text from the bot puts into session inboxes: session and event, in order. */
  function BotMessage(raw: string, codec: Codec): seq<(string, Fields)> {
    var json := codec.parse(raw);
    if json.None? || !json.value.Obj? then []
    else
      var msg := json.value.fields;
      if Text(Some(msg), "type") == Some("ping") then []
      else
        var rpcMethod := Text(Some(msg), "method").GetOr("");
        var params := Object(Some(msg), "params");
        var sessionID := Text(params, "sessionId").GetOr("");
        var event := if rpcMethod == "" then None else TranslateBotEvent(rpcMethod, params, codec);
        (if event.Some? && sessionID != "" then [(sessionID, event.value)] else [])
        + (if "id" in msg && "result" !in msg && "error" in msg && ErrorReply(msg).0 != ""
           then [ErrorReply(msg)] else [])
  }

  // ---------------------------------------------------------------------------------------------
  // The streaming loop
  // ---------------------------------------------------------------------------------------------

  const SSE_TIMEOUT: int := 600
  const HEARTBEAT_INTERVAL: int := 15

  /** What the loop writes, before printing. */
  datatype Frame = EventFrame(kind: string, data: Json) | CommentFrame(text: string)

  const HEARTBEAT := CommentFrame("heartbeat")

  function Print(f: Frame, codec: Codec): string {
    match f
    case EventFrame(kind, data) => FormatEvent(kind, codec.marshal(data))
    case CommentFrame(text) => FormatComment(text)
  }

  function PrintAll(fs: seq<Frame>, codec: Codec): string {
    if fs == [] then "" else Print(fs[0], codec) + PrintAll(fs[1..], codec)
  }

  datatype Signal = NoSignal | ClientGone | BotGone

  /** What the inbox read of one turn yields; an empty read is followed by a second look at the
      signals. */
  datatype Poll = ConsumeFails | NothingYet(signal: Signal) | Message(data: string)

  /** One turn of the loop, as the environment decides it: the signal seen at its start, the time of
      the deadline check, the read, and the time after the read. */
  datatype Turn = Turn(signal: Signal, now: int, poll: Poll, later: int)

  datatype CloseReason =
    Open | Done | ErrorEvent | ClientDisconnect | BotDisconnect | Timeout | ConsumeError | WriteError

  function SessionFrame(sessionID: string, sessionNumber: int): Frame {
    EventFrame("session", Obj(map["sessionId" := Str(sessionID), "sessionNumber" := Num(sessionNumber)]))
  }

  function ErrorFrame(message: string): Frame {
    EventFrame("error", Obj(map["content" := Str(message)]))
  }

  const NO_BOT: string := "No bot connected"
  const STREAM_TIMEOUT: string := "Stream timeout"
  const INTERNAL_ERROR: string := "Internal server error"

  /** The loop's variables, and what it has written. */
  datatype Stream = Stream(
    frames: seq<Frame>,
    reply: string,
    hasChunks: bool,
    deadline: int,
    lastHeartbeat: int,
    reason: CloseReason)

  function Write(s: Stream, f: Frame): Stream {
    s.(frames := s.frames + [f])
  }

  function Close(s: Stream, message: string, reason: CloseReason): Stream {
    Write(s, ErrorFrame(message)).(reason := reason)
  }

  /** The event of an inbox entry: its kind and its payload.  None for what is skipped: an entry that
      is not an object, or a media event without its payload. */
  function Decode(raw: string, codec: Codec): Option<(string, Json)> {
    var json := codec.parse(raw);
    if json == Some(Null) then Some(("message", Null))
    else if json.None? || !json.value.Obj? then None
    else
      var fields := json.value.fields;
      var kind := OrDefault(Text(Some(fields), "type").GetOr(""), "message");
      if kind != "media" then Some((kind, Obj(fields - {"type"})))
      else if Object(Some(fields), "data").Some? then Some((kind, Obj(Object(Some(fields), "data").value)))
      else None
  }

  function ContentOf(data: Json): string {
    if data.Obj? then Text(Some(data.fields), "content").GetOr("") else ""
  }

  /** A done event that was not preceded by a chunk is preceded by one now. */
  function Injects(s: Stream, kind: string, data: Json): bool {
    kind == "done" && !s.hasChunks && ContentOf(data) != ""
  }

  predicate TerminalKind(kind: string) {
    kind == "done" || kind == "error"
  }

  function Deliver(s: Stream, kind: string, data: Json): Stream {
    var text := ContentOf(data);
    var s1 := if kind == "chunk" then s.(hasChunks := true, reply := s.reply + text) else s;
    var s2 := if Injects(s1, kind, data)
              then Write(s1.(reply := s1.reply + text), EventFrame("chunk", Obj(map["content" := Str(text)])))
              else s1;
    Write(s2, EventFrame(kind, data)).(reason := if kind == "done" then Done
                                                 else if kind == "error" then ErrorEvent else s.reason)
  }

  function TakeTurn(s: Stream, t: Turn, codec: Codec): Stream {
    if s.reason != Open then s
    else if t.signal == ClientGone then s.(reason := ClientDisconnect)
    else if t.signal == BotGone then Close(s, NO_BOT, BotDisconnect)
    else if t.now > s.deadline then Close(s, STREAM_TIMEOUT, Timeout)
    else
      match t.poll
      case ConsumeFails => Close(s, INTERNAL_ERROR, ConsumeError)
      case NothingYet(signal) => EmptyRead(s, signal, t.later)
      case Message(raw) => TakeMessage(s, raw, t.later, codec)
  }

  function EmptyRead(s: Stream, signal: Signal, later: int): Stream {
    if signal == ClientGone then s.(reason := ClientDisconnect)
    else if signal == BotGone then Close(s, NO_BOT, BotDisconnect)
    else if later - s.lastHeartbeat >= HEARTBEAT_INTERVAL
    then Write(s.(lastHeartbeat := later), HEARTBEAT)
    else s
  }

  /** A message puts the deadline off, whether or not it is skipped. */
  function TakeMessage(s: Stream, raw: string, later: int, codec: Codec): Stream {
    var active := s.(deadline := later + SSE_TIMEOUT);
    var event := Decode(raw, codec);
    if event.None? then active else Deliver(active, event.value.0, event.value.1)
  }

  function TakeTurns(s: Stream, ts: seq<Turn>, codec: Codec): Stream
    decreases |ts|
  {
    if ts == [] then s else TakeTurns(TakeTurn(s, ts[0], codec), ts[1..], codec)
  }

  function Opening(sessionID: string, sessionNumber: int, start: int): Stream {
    Stream([SessionFrame(sessionID, sessionNumber)], "", false, start + SSE_TIMEOUT, start, Open)
  }

  /** The streaming handler from the first byte on, over any sequence of turns.  `start` is the time at
      which the stream opens; a failing first write ends it at once. */
  method ChatSSE(sessionID: string, sessionNumber: int, start: int, sessionWriteFails: bool,
                 turns: seq<Turn>, codec: Codec)
    returns (out: string, reply: string, reason: CloseReason)
    ensures sessionWriteFails ==> out == "" && reply == "" && reason == WriteError
    ensures !sessionWriteFails ==>
              var s := TakeTurns(Opening(sessionID, sessionNumber, start), turns, codec);
              out == PrintAll(s.frames, codec) && reply == s.reply && reason == s.reason
  {
    out, reply, reason := "", "", Open;
    var deadline := start + SSE_TIMEOUT;
    if sessionWriteFails {
      return "", "", WriteError;
    }
    out := out + Print(SessionFrame(sessionID, sessionNumber), codec);
    var lastHeartbeat := start;
    var hasChunks := false;
    ghost var frames := [SessionFrame(sessionID, sessionNumber)];
    PrintAppend([], frames[0], codec);
    assert [] + frames == frames && turns[0..] == turns;
    var i := 0;
    while i < |turns| && reason == Open
      invariant 0 <= i <= |turns|
      invariant out == PrintAll(frames, codec)
      invariant TakeTurns(Opening(sessionID, sessionNumber, start), turns, codec)
                == TakeTurns(Stream(frames, reply, hasChunks, deadline, lastHeartbeat, reason), turns[i..], codec)
    {
      var t := turns[i];
      assert turns[i..][0] == t && turns[i..][1..] == turns[i + 1..];
      i := i + 1;
      if t.signal == ClientGone {
        reason := ClientDisconnect;
      } else if t.signal == BotGone {
        reason := BotDisconnect;
        out, frames := WriteFrame(out, ErrorFrame(NO_BOT), codec, frames);
      } else if t.now > deadline {
        reason := Timeout;
        out, frames := WriteFrame(out, ErrorFrame(STREAM_TIMEOUT), codec, frames);
      } else if t.poll.ConsumeFails? {
        reason := ConsumeError;
        out, frames := WriteFrame(out, ErrorFrame(INTERNAL_ERROR), codec, frames);
      } else if t.poll.NothingYet? {
        if t.poll.signal == ClientGone {
          reason := ClientDisconnect;
        } else if t.poll.signal == BotGone {
          reason := BotDisconnect;
          out, frames := WriteFrame(out, ErrorFrame(NO_BOT), codec, frames);
        } else if t.later - lastHeartbeat >= HEARTBEAT_INTERVAL {
          out, frames := WriteFrame(out, HEARTBEAT, codec, frames);
          lastHeartbeat := t.later;
        }
      } else {
        deadline := t.later + SSE_TIMEOUT;
        var event := Decode(t.poll.data, codec);
        if event.Some? {
          var (kind, data) := event.value;
          if kind == "chunk" {
            hasChunks := true;
            reply := reply + ContentOf(data);
          }
          if kind == "done" && !hasChunks {
            var text := ContentOf(data);
            if text != "" {
              reply := reply + text;
              out, frames := WriteFrame(out, EventFrame("chunk", Obj(map["content" := Str(text)])), codec, frames);
            }
          }
          out, frames := WriteFrame(out, EventFrame(kind, data), codec, frames);
          if kind == "done" {
            reason := Done;
          } else if kind == "error" {
            reason := ErrorEvent;
          }
        }
      }
    }
    if reason != Open {
      ClosedStays(Stream(frames, reply, hasChunks, deadline, lastHeartbeat, reason), turns[i..], codec);
    }
  }

  method WriteFrame(out: string, f: Frame, codec: Codec, ghost frames: seq<Frame>)
    returns (out': string, ghost frames': seq<Frame>)
    requires out == PrintAll(frames, codec)
    ensures frames' == frames + [f] && out' == PrintAll(frames', codec)
  {
    PrintAppend(frames, f, codec);
    out', frames' := out + Print(f, codec), frames + [f];
  }

  lemma {:induction false} PrintAppend(fs: seq<Frame>, f: Frame, codec: Codec)
    ensures PrintAll(fs + [f], codec) == PrintAll(fs, codec) + Print(f, codec)
    decreases |fs|
  {
    if fs == [] {
      assert fs + [f] == [f];
      assert Print(f, codec) + "" == Print(f, codec) && "" + Print(f, codec) == Print(f, codec);
    } else {
      assert (fs + [f])[1..] == fs[1..] + [f];
      PrintAppend(fs[1..], f, codec);
    }
  }

  lemma {:induction false} ClosedStays(s: Stream, ts: seq<Turn>, codec: Codec)
    requires s.reason != Open
    ensures TakeTurns(s, ts, codec) == s
    decreases |ts|
  {
    if ts != [] {
      ClosedStays(s, ts[1..], codec);
    }
  }

  // ---------------------------------------------------------------------------------------------
  // Shape of the stream
  // ---------------------------------------------------------------------------------------------

  predicate IsTerminal(f: Frame) {
    f.EventFrame? && TerminalKind(f.kind)
  }

  ghost predicate NoTerminal(fs: seq<Frame>) {
    forall f :: f in fs ==> !IsTerminal(f)
  }

  /** How the stream stands: nothing terminal while it is open or after the client left; otherwise one
      terminal frame, at the very end, of the kind the close reason says. */
  ghost predicate WellShaped(s: Stream) {
    && s.frames != []
    && (s.reason == Open || s.reason == ClientDisconnect ==> NoTerminal(s.frames))
    && (s.reason != Open && s.reason != ClientDisconnect ==>
          var last := s.frames[|s.frames| - 1];
          && NoTerminal(s.frames[..|s.frames| - 1])
          && last.EventFrame? && last.kind == if s.reason == Done then "done" else "error")
  }

  lemma WriteShape(s: Stream, f: Frame)
    requires s.frames != [] && NoTerminal(s.frames)
    ensures !IsTerminal(f) ==> NoTerminal(Write(s, f).frames)
    ensures Write(s, f).frames[..|s.frames|] == s.frames
  {
    assert (s.frames + [f])[..|s.frames|] == s.frames;
  }

  lemma DeliverShape(s: Stream, kind: string, data: Json)
    requires WellShaped(s) && s.reason == Open
    ensures WellShaped(Deliver(s, kind, data))
  {
    var text := ContentOf(data);
    var s1 := if kind == "chunk" then s.(hasChunks := true, reply := s.reply + text) else s;
    var s2 := if Injects(s1, kind, data)
              then Write(s1.(reply := s1.reply + text), EventFrame("chunk", Obj(map["content" := Str(text)])))
              else s1;
    WriteShape(s1.(reply := s1.reply + text), EventFrame("chunk", Obj(map["content" := Str(text)])));
    WriteShape(s2, EventFrame(kind, data));
  }

  lemma CloseShape(s: Stream, message: string, reason: CloseReason)
    requires WellShaped(s) && s.reason == Open
    requires reason != Open && reason != ClientDisconnect && reason != Done
    ensures WellShaped(Close(s, message, reason)) && s.frames <= Close(s, message, reason).frames
  {
    WriteShape(s, ErrorFrame(message));
  }

  lemma EmptyReadShape(s: Stream, signal: Signal, later: int)
    requires WellShaped(s) && s.reason == Open
    ensures WellShaped(EmptyRead(s, signal, later)) && s.frames <= EmptyRead(s, signal, later).frames
  {
    CloseShape(s, NO_BOT, BotDisconnect);
    WriteShape(s.(lastHeartbeat := later), HEARTBEAT);
  }

  lemma MessageShape(s: Stream, raw: string, later: int, codec: Codec)
    requires WellShaped(s) && s.reason == Open
    ensures WellShaped(TakeMessage(s, raw, later, codec))
    ensures s.frames <= TakeMessage(s, raw, later, codec).frames
  {
    var event := Decode(raw, codec);
    if event.Some? {
      DeliverShape(s.(deadline := later + SSE_TIMEOUT), event.value.0, event.value.1);
    }
  }

  lemma TurnShape(s: Stream, t: Turn, codec: Codec)
    requires WellShaped(s)
    ensures WellShaped(TakeTurn(s, t, codec)) && s.frames <= TakeTurn(s, t, codec).frames
  {
    if s.reason == Open {
      CloseShape(s, NO_BOT, BotDisconnect);
      CloseShape(s, STREAM_TIMEOUT, Timeout);
      CloseShape(s, INTERNAL_ERROR, ConsumeError);
      match t.poll {
        case ConsumeFails =>
        case NothingYet(signal) => EmptyReadShape(s, signal, t.later);
        case Message(raw) => MessageShape(s, raw, t.later, codec);
      }
    }
  }

  lemma {:induction false} TurnsShape(s: Stream, ts: seq<Turn>, codec: Codec)
    requires WellShaped(s)
    ensures WellShaped(TakeTurns(s, ts, codec))
    ensures s.frames <= TakeTurns(s, ts, codec).frames
    decreases |ts|
  {
    if ts != [] {
      TurnShape(s, ts[0], codec);
      TurnsShape(TakeTurn(s, ts[0], codec), ts[1..], codec);
    }
  }

  /** Every run of the loop writes the session event first, then events that are not terminal, then at
      most one done or error event, which is the last thing written. */
  lemma StreamShape(sessionID: string, sessionNumber: int, start: int, turns: seq<Turn>, codec: Codec)
    ensures var s := TakeTurns(Opening(sessionID, sessionNumber, start), turns, codec);
            && WellShaped(s)
            && s.frames[0] == EventFrame("session", Obj(map["sessionId" := Str(sessionID),
                                                            "sessionNumber" := Num(sessionNumber)]))
  {
    TurnsShape(Opening(sessionID, sessionNumber, start), turns, codec);
  }

  // ---------------------------------------------------------------------------------------------
  // The deadline and the reply
  // ---------------------------------------------------------------------------------------------

  /** When the last message was read, or the stream opened. */
  function LastActivity(ts: seq<Turn>, start: int): int
    decreases |ts|
  {
    if ts == [] then start else LastActivity(ts[1..], if ts[0].poll.Message? then ts[0].later else start)
  }

  lemma {:induction false} DeadlineFollowsActivity(s: Stream, ts: seq<Turn>, last: int, codec: Codec)
    requires s.deadline == last + SSE_TIMEOUT
    ensures var s' := TakeTurns(s, ts, codec);
            s'.reason == Open ==> s'.deadline == LastActivity(ts, last) + SSE_TIMEOUT
    decreases |ts|
  {
    if ts != [] {
      var s1 := TakeTurn(s, ts[0], codec);
      if s1.reason != Open {
        ClosedStays(s1, ts[1..], codec);
      } else {
        DeadlineFollowsActivity(s1, ts[1..], if ts[0].poll.Message? then ts[0].later else last, codec);
      }
    }
  }

  /** An open stream without a signal times out exactly when no message has been read, skipped ones
      included, for more than 600 seconds. */
  lemma TimesOutIffIdle(sessionID: string, sessionNumber: int, start: int, turns: seq<Turn>, t: Turn, codec: Codec)
    requires TakeTurns(Opening(sessionID, sessionNumber, start), turns, codec).reason == Open
    requires t.signal == NoSignal
    ensures TakeTurn(TakeTurns(Opening(sessionID, sessionNumber, start), turns, codec), t, codec).reason == Timeout
            <==> t.now > LastActivity(turns, start) + 600
  {
    DeadlineFollowsActivity(Opening(sessionID, sessionNumber, start), turns, start, codec);
  }

  // ---------------------------------------------------------------------------------------------
  // Heartbeats
  // ---------------------------------------------------------------------------------------------

  /** Nothing to read, nothing signalled, and the deadline not passed. */
  predicate Idle(s: Stream, t: Turn) {
    s.reason == Open && t.signal == NoSignal && t.now <= s.deadline && t.poll == NothingYet(NoSignal)
  }

  /** The turn writes a heartbeat comment and nothing else. */
  predicate Beats(s: Stream, t: Turn, codec: Codec) {
    TakeTurn(s, t, codec).frames == s.frames + [CommentFrame("heartbeat")]
  }

  /** The times of the heartbeat comments, in order. */
  function HeartbeatTimes(s: Stream, ts: seq<Turn>, codec: Codec): seq<int>
    decreases |ts|
  {
    if ts == [] then []
    else
      (if Beats(s, ts[0], codec) then [ts[0].later] else [])
      + HeartbeatTimes(TakeTurn(s, ts[0], codec), ts[1..], codec)
  }

  /** Each time is at least 15 seconds after the one before. */
  predicate Spaced(times: seq<int>, before: int)
    decreases |times|
  {
    times != [] ==> times[0] - before >= 15 && Spaced(times[1..], times[0])
  }

  function LastOf(times: seq<int>, before: int): int
    decreases |times|
  {
    if times == [] then before else LastOf(times[1..], times[0])
  }

  function Comments(fs: seq<Frame>): nat {
    if fs == [] then 0 else (if fs[0].CommentFrame? then 1 else 0) + Comments(fs[1..])
  }

  lemma {:induction false} CommentsAppend(fs: seq<Frame>, f: Frame)
    ensures Comments(fs + [f]) == Comments(fs) + (if f.CommentFrame? then 1 else 0)
    decreases |fs|
  {
    if fs == [] {
      assert fs + [f] == [f];
    } else {
      assert (fs + [f])[1..] == fs[1..] + [f];
      CommentsAppend(fs[1..], f);
    }
  }

  /** What a turn does to the heartbeat: the idle one writes the comment when 15 seconds have gone by, and
      no other turn writes a comment. */
  lemma TurnBeats(s: Stream, t: Turn, codec: Codec)
    ensures Beats(s, t, codec) <==> Idle(s, t) && t.later - s.lastHeartbeat >= 15
    ensures TakeTurn(s, t, codec).lastHeartbeat == if Beats(s, t, codec) then t.later else s.lastHeartbeat
    ensures Comments(TakeTurn(s, t, codec).frames) == Comments(s.frames) + (if Beats(s, t, codec) then 1 else 0)
    ensures Idle(s, t) ==> TakeTurn(s, t, codec).reason == Open
  {
    var s' := TakeTurn(s, t, codec);
    if s'.frames != s.frames && s.reason == Open {
      if t.signal == NoSignal && t.now <= s.deadline && t.poll.Message? {
        MessageBeats(s, t.poll.data, t.later, codec);
      } else {
        var last := s'.frames[|s'.frames| - 1];
        assert s'.frames == s.frames + [last];
        CommentsAppend(s.frames, last);
      }
    }
  }

  lemma MessageBeats(s: Stream, raw: string, later: int, codec: Codec)
    ensures var s' := TakeMessage(s, raw, later, codec);
            && s'.lastHeartbeat == s.lastHeartbeat
            && Comments(s'.frames) == Comments(s.frames)
            && s'.frames != s.frames + [CommentFrame("heartbeat")]
  {
    var event := Decode(raw, codec);
    if event.Some? {
      DeliverBeats(s.(deadline := later + SSE_TIMEOUT), event.value.0, event.value.1);
    }
  }

  lemma DeliverBeats(s: Stream, kind: string, data: Json)
    ensures var s' := Deliver(s, kind, data);
            && s'.lastHeartbeat == s.lastHeartbeat
            && Comments(s'.frames) == Comments(s.frames)
            && s'.frames != s.frames + [CommentFrame("heartbeat")]
  {
    var f := EventFrame(kind, data);
    var chunk := EventFrame("chunk", Obj(map["content" := Str(ContentOf(data))]));
    CommentsAppend(s.frames, f);
    CommentsAppend(s.frames, chunk);
    CommentsAppend(s.frames + [chunk], f);
    assert (s.frames + [f])[|s.frames|] != CommentFrame("heartbeat");
    assert |s.frames + [chunk] + [f]| == |s.frames| + 2;
  }

  lemma {:induction false} HeartbeatsRun(s: Stream, ts: seq<Turn>, codec: Codec)
    ensures var times, s' := HeartbeatTimes(s, ts, codec), TakeTurns(s, ts, codec);
            && Spaced(times, s.lastHeartbeat) && s'.lastHeartbeat == LastOf(times, s.lastHeartbeat)
            && Comments(s'.frames) == Comments(s.frames) + |times|
    decreases |ts|
  {
    if ts != [] {
      var s1 := TakeTurn(s, ts[0], codec);
      TurnBeats(s, ts[0], codec);
      HeartbeatsRun(s1, ts[1..], codec);
      var rest := HeartbeatTimes(s1, ts[1..], codec);
      if Beats(s, ts[0], codec) {
        assert ([ts[0].later] + rest)[1..] == rest;
      } else {
        assert [] + rest == rest;
      }
    }
  }

  /** In every run the heartbeat comments are all the comments there are, at least 15 seconds apart and
      from the opening; and an idle turn writes one exactly when at least 15 seconds have passed since
      the last one or the opening. */
  lemma HeartbeatIffDue(sessionID: string, sessionNumber: int, start: int, turns: seq<Turn>, t: Turn, codec: Codec)
    ensures var opening := Opening(sessionID, sessionNumber, start);
            var s, times := TakeTurns(opening, turns, codec), HeartbeatTimes(opening, turns, codec);
            && Spaced(times, start) && Comments(s.frames) == |times|
            && (Idle(s, t) ==>
                  if t.later - LastOf(times, start) >= 15
                  then TakeTurn(s, t, codec).frames == s.frames + [CommentFrame("heartbeat")]
                  else TakeTurn(s, t, codec).frames == s.frames)
  {
    var opening := Opening(sessionID, sessionNumber, start);
    HeartbeatsRun(opening, turns, codec);
    CommentsAppend([], opening.frames[0]);
    assert [] + opening.frames == opening.frames && opening.frames[0].EventFrame?;
    TurnBeats(TakeTurns(opening, turns, codec), t, codec);
  }

  /** The text of all chunk events written, injected ones included. */
  function Replied(fs: seq<Frame>): string {
    if fs == [] then "" else ReplyOf(fs[0]) + Replied(fs[1..])
  }

  function ReplyOf(f: Frame): string {
    if f.EventFrame? && f.kind == "chunk" then ContentOf(f.data) else ""
  }

  lemma {:induction false} RepliedAppend(fs: seq<Frame>, f: Frame)
    ensures Replied(fs + [f]) == Replied(fs) + ReplyOf(f)
    decreases |fs|
  {
    if fs == [] {
      assert fs + [f] == [f] && [f][1..] == [];
      assert ReplyOf(f) + "" == ReplyOf(f) == "" + ReplyOf(f);
    } else {
      assert (fs + [f])[1..] == fs[1..] + [f];
      RepliedAppend(fs[1..], f);
      assert ReplyOf(fs[0]) + (Replied(fs[1..]) + ReplyOf(f)) == (ReplyOf(fs[0]) + Replied(fs[1..])) + ReplyOf(f);
    }
  }

  predicate ReplyKept(s: Stream) {
    s.reply == Replied(s.frames)
  }

  lemma WriteReplies(s: Stream, f: Frame)
    requires ReplyKept(s)
    ensures ReplyKept(Write(s, f).(reply := s.reply + ReplyOf(f)))
  {
    RepliedAppend(s.frames, f);
  }

  lemma DeliverReplies(s: Stream, kind: string, data: Json)
    requires ReplyKept(s)
    ensures ReplyKept(Deliver(s, kind, data))
  {
    var text := ContentOf(data);
    var chunk := EventFrame("chunk", Obj(map["content" := Str(text)]));
    if kind == "chunk" {
      WriteReplies(s, EventFrame(kind, data));
    } else {
      var s2 := if Injects(s, kind, data) then Write(s.(reply := s.reply + text), chunk) else s;
      WriteReplies(s, chunk);
      WriteReplies(s2, EventFrame(kind, data));
      assert s2.reply + "" == s2.reply;
    }
  }

  lemma CloseReplies(s: Stream, message: string, reason: CloseReason)
    requires ReplyKept(s)
    ensures ReplyKept(Close(s, message, reason))
  {
    WriteReplies(s, ErrorFrame(message));
    assert s.reply + "" == s.reply;
  }

  lemma EmptyReadReplies(s: Stream, signal: Signal, later: int)
    requires ReplyKept(s)
    ensures ReplyKept(EmptyRead(s, signal, later))
  {
    CloseReplies(s, NO_BOT, BotDisconnect);
    WriteReplies(s, HEARTBEAT);
    assert s.reply + "" == s.reply;
  }

  lemma MessageReplies(s: Stream, raw: string, later: int, codec: Codec)
    requires ReplyKept(s)
    ensures ReplyKept(TakeMessage(s, raw, later, codec))
  {
    var event := Decode(raw, codec);
    if event.Some? {
      DeliverReplies(s.(deadline := later + SSE_TIMEOUT), event.value.0, event.value.1);
    }
  }

  lemma TurnReplies(s: Stream, t: Turn, codec: Codec)
    requires ReplyKept(s)
    ensures ReplyKept(TakeTurn(s, t, codec))
  {
    CloseReplies(s, NO_BOT, BotDisconnect);
    CloseReplies(s, STREAM_TIMEOUT, Timeout);
    CloseReplies(s, INTERNAL_ERROR, ConsumeError);
    match t.poll {
      case ConsumeFails =>
      case NothingYet(signal) => EmptyReadReplies(s, signal, t.later);
      case Message(raw) => MessageReplies(s, raw, t.later, codec);
    }
  }

  lemma {:induction false} TurnsReply(s: Stream, ts: seq<Turn>, codec: Codec)
    requires ReplyKept(s)
    ensures ReplyKept(TakeTurns(s, ts, codec))
    decreases |ts|
  {
    if ts != [] {
      TurnReplies(s, ts[0], codec);
      TurnsReply(TakeTurn(s, ts[0], codec), ts[1..], codec);
    }
  }

  /** In every run the collected reply is the text of the chunk events written. */
  lemma ReplyIsChunks(sessionID: string, sessionNumber: int, start: int, turns: seq<Turn>, codec: Codec)
    ensures var s := TakeTurns(Opening(sessionID, sessionNumber, start), turns, codec);
            s.reply == Replied(s.frames)
  {
    var s := Opening(sessionID, sessionNumber, start);
    assert s.frames[1..] == [] && ReplyOf(s.frames[0]) + "" == "";
    TurnsReply(s, turns, codec);
  }

  // ---------------------------------------------------------------------------------------------
  // Round trip
  // ---------------------------------------------------------------------------------------------

  /** The events among the frames. */
  function EventsOf(fs: seq<Frame>): seq<Event> {
    if fs == [] then [] else FrameEvents(fs[0]) + EventsOf(fs[1..])
  }

  function FrameEvents(f: Frame): seq<Event> {
    if f.EventFrame? then [Event(f.kind, f.data)] else []
  }

  /** A kind survives the wire: it is not empty, and has no line break and no space at its ends. */
  predicate CleanKind(kind: string) {
    kind != "" && '\n' !in kind && Trim(kind) == kind
  }

  predicate CleanFrame(f: Frame) {
    if f.EventFrame? then CleanKind(f.kind) else '\n' !in f.text
  }

  ghost predicate CleanFrames(fs: seq<Frame>) {
    forall f :: f in fs ==> CleanFrame(f)
  }

  lemma FrameSays(f: Frame, codec: Codec)
    requires Faithful(codec) && CleanFrame(f)
    ensures Says(Print(f, codec), FrameEvents(f), codec.parse)
  {
    if f.EventFrame? {
      EventSays(f.kind, codec.marshal(f.data), codec.parse);
    } else {
      CommentSays(f.text, codec.parse);
    }
  }

  /** Printed frames parse back to their events. */
  lemma {:induction false} FramesSay(fs: seq<Frame>, codec: Codec)
    requires Faithful(codec) && CleanFrames(fs)
    ensures Says(PrintAll(fs, codec), EventsOf(fs), codec.parse)
    decreases |fs|
  {
    if fs == [] {
      SaysNothing(codec.parse);
    } else {
      assert fs[0] in fs && forall g :: g in fs[1..] ==> g in fs;
      FrameSays(fs[0], codec);
      FramesSay(fs[1..], codec);
      SaysBoth(Print(fs[0], codec), FrameEvents(fs[0]), PrintAll(fs[1..], codec), EventsOf(fs[1..]), codec.parse);
    }
  }

  // ---------------------------------------------------------------------------------------------
  // What bots can put into an inbox
  // ---------------------------------------------------------------------------------------------

  predicate KnownKind(kind: string) {
    kind in ["chunk", "done", "tool_result", "thinking", "tool_call", "media", "error"]
  }

  /** An inbox entry written for a bot message. */
  ghost predicate FromBot(raw: string, codec: Codec) {
    exists bot: string, i: nat :: i < |BotMessage(bot, codec)| && raw == codec.marshal(Obj(BotMessage(bot, codec)[i].1))
  }

  predicate KnownEvent(e: Fields) {
    Text(Some(e), "type").Some? && KnownKind(Text(Some(e), "type").value)
  }

  lemma TranslatedIsKnown(rpcMethod: string, params: Option<Fields>, codec: Codec)
    ensures var e := TranslateBotEvent(rpcMethod, params, codec);
            e.Some? ==> KnownEvent(e.value)
  {
  }

  lemma BotMessageIsKnown(bot: string, codec: Codec, i: nat)
    requires i < |BotMessage(bot, codec)|
    ensures KnownEvent(BotMessage(bot, codec)[i].1)
  {
    var msg := codec.parse(bot).value.fields;
    TranslatedIsKnown(Text(Some(msg), "method").GetOr(""), Object(Some(msg), "params"), codec);
  }

  /** Which notifications become events: those with an update of a known type, a medium only with a URL, and
      of the unknown types those whose content has a text. */
  lemma TranslatesIff(rpcMethod: string, params: Option<Fields>, codec: Codec)
    ensures var update := Object(params, "update");
            var kind, content := Text(update, "sessionUpdate").GetOr(""), Object(update, "content");
            var known := kind in ["agent_message_chunk", "agent_message_final", "agent_thought_chunk",
                                  "tool_call", "tool_result"];
            TranslateBotEvent(rpcMethod, params, codec).Some?
            <==> && rpcMethod == "session/update" && update.Some?
                 && (known || (if kind == "agent_media"
                               then Text(Object(content, "media"), "downloadUrl").GetOr("") != ""
                               else Text(content, "text").Some?))
  {
  }

  /** What a translated update of an unknown type becomes: its text, as a chunk. */
  lemma UnknownIsChunk(update: Fields, text: string, codec: Codec)
    requires Text(Object(Some(update), "content"), "text") == Some(text)
    requires Text(Some(update), "sessionUpdate").GetOr("")
             !in ["agent_message_chunk", "agent_message_final", "agent_thought_chunk", "tool_call", "tool_result",
                  "agent_media"]
    ensures TranslateBotEvent("session/update", Some(map["update" := Obj(update)]), codec)
            == Some(map["type" := Str("chunk"), "content" := Str(text)])
  {
    assert Object(Some(map["update" := Obj(update)]), "update") == Some(update);
  }

  /** A tool event is named after the tool, or "tool"; a result without a status counts as completed.  Texts
      stay as they are, of a structured result the text is taken, and everything else can be decoded
      again. */
  lemma ToolContent(update: Fields, kind: string, content: Json, codec: Codec)
    requires Faithful(codec) && kind in ["tool_call", "tool_result"]
    requires Text(Some(update), "sessionUpdate") == Some(kind) && "content" in update && update["content"] == content
    ensures var e := TranslateBotEvent("session/update", Some(map["update" := Obj(update)]), codec);
            var title, status := Text(Some(update), "title").GetOr(""), Text(Some(update), "status").GetOr("");
            var text := Text(e, if kind == "tool_call" then "input" else "content");
            && e.Some? && text.Some?
            && Text(e, "name") == Some(if title == "" then "tool" else title)
            && (kind == "tool_result" ==> Text(e, "status") == Some(if status == "" then "completed" else status))
            && match content
               case Null => text.value == ""
               case Str(s) => text.value == s
               case Obj(fields) =>
                 if kind == "tool_call" then codec.parse(text.value) == Some(content)
                 else text.value == Text(Some(fields), "text").GetOr("")
               case _ => codec.parse(text.value) == Some(content)
  {
    assert Object(Some(map["update" := Obj(update)]), "update") == Some(update);
  }

  /** Pings, results, errors that answer no request, and notifications without a session reach no inbox. */
  lemma NeverReachesSession(msg: Fields, codec: Codec)
    requires Faithful(codec)
    requires || Text(Some(msg), "type") == Some("ping")
             || (Text(Object(Some(msg), "params"), "sessionId").GetOr("") == ""
                 && ("id" !in msg || "result" in msg || "error" !in msg))
    ensures BotMessage(codec.marshal(Obj(msg)), codec) == []
  {
    assert codec.parse(codec.marshal(Obj(msg))) == Some(Obj(msg));
  }

  /** Which inbox entries the loop passes on, as events of their own type: null and objects, a medium only
      with its data; what has no type is called a message.  Every other entry is skipped. */
  lemma PassedOnIff(s: Stream, raw: string, later: int, codec: Codec)
    ensures var s', json := TakeMessage(s, raw, later, codec), codec.parse(raw);
            var fields := if json.Some? && json.value.Obj? then json.value.fields else map[];
            var kind := if Text(Some(fields), "type").GetOr("") == "" then "message"
                        else Text(Some(fields), "type").value;
            if json == Some(Null) || (json.Some? && json.value.Obj?
                                      && (kind == "media" ==> Object(Some(fields), "data").Some?))
            then |s'.frames| > |s.frames| && s'.frames[|s'.frames| - 1].EventFrame?
                 && s'.frames[|s'.frames| - 1].kind == kind
            else s'.frames == s.frames && s'.reason == s.reason
  {
  }

  predicate Letter(c: char) {
    'a' <= c <= 'z' || c == '_'
  }

  ghost predicate Letters(word: string) {
    word != "" && forall i :: 0 <= i < |word| ==> Letter(word[i])
  }

  lemma CleanWord(kind: string)
    requires Letters(kind)
    ensures CleanKind(kind)
  {
    assert Letter(kind[0]) && Letter(kind[|kind| - 1]);
    assert TrimStart(kind) == kind && TrimEnd(kind) == kind;
  }

  lemma KnownWords()
    ensures Letters("chunk") && Letters("done") && Letters("error") && Letters("session")
    ensures Letters("tool_result") && Letters("thinking") && Letters("tool_call") && Letters("media")
  {
  }

  lemma KnownKindIsClean(kind: string)
    requires KnownKind(kind) || kind == "session"
    ensures CleanKind(kind)
  {
    KnownWords();
    CleanWord(kind);
  }

  /** Reading back an inbox entry gives the event's own type. */
  lemma DecodeEncoded(e: Fields, codec: Codec)
    requires Faithful(codec) && Text(Some(e), "type").Some? && Text(Some(e), "type").value != ""
    ensures var d := Decode(codec.marshal(Obj(e)), codec);
            d.Some? ==> d.value.0 == Text(Some(e), "type").value
  {
    assert codec.parse(codec.marshal(Obj(e))) == Some(Obj(e));
  }

  lemma DecodedIsKnown(raw: string, codec: Codec)
    requires Faithful(codec) && FromBot(raw, codec)
    ensures var d := Decode(raw, codec);
            d.Some? ==> KnownKind(d.value.0)
  {
    var bot, i :| 0 <= i < |BotMessage(bot, codec)| && raw == codec.marshal(Obj(BotMessage(bot, codec)[i].1));
    var e := BotMessage(bot, codec)[i].1;
    BotMessageIsKnown(bot, codec, i);
    assert Text(Some(e), "type").value != "" by {
      KnownKindIsClean(Text(Some(e), "type").value);
    }
    DecodeEncoded(e, codec);
  }

  ghost predicate AllFromBot(ts: seq<Turn>, codec: Codec) {
    forall t :: t in ts && t.poll.Message? ==> FromBot(t.poll.data, codec)
  }

  lemma WriteClean(s: Stream, f: Frame)
    requires CleanFrames(s.frames) && CleanFrame(f)
    ensures CleanFrames(Write(s, f).frames)
  {
  }

  lemma DeliverClean(s: Stream, kind: string, data: Json)
    requires CleanFrames(s.frames) && CleanKind(kind)
    ensures CleanFrames(Deliver(s, kind, data).frames)
  {
    KnownKindIsClean("chunk");
    var text := ContentOf(data);
    var s1 := if kind == "chunk" then s.(hasChunks := true, reply := s.reply + text) else s;
    var chunk := EventFrame("chunk", Obj(map["content" := Str(text)]));
    WriteClean(s1.(reply := s1.reply + text), chunk);
    var s2 := if Injects(s1, kind, data) then Write(s1.(reply := s1.reply + text), chunk) else s1;
    WriteClean(s2, EventFrame(kind, data));
  }

  lemma MessageClean(s: Stream, raw: string, later: int, codec: Codec)
    requires Faithful(codec) && CleanFrames(s.frames) && FromBot(raw, codec)
    ensures CleanFrames(TakeMessage(s, raw, later, codec).frames)
  {
    var d := Decode(raw, codec);
    if d.Some? {
      DecodedIsKnown(raw, codec);
      KnownKindIsClean(d.value.0);
      DeliverClean(s.(deadline := later + SSE_TIMEOUT), d.value.0, d.value.1);
    }
  }

  lemma ErrorsClean(s: Stream, message: string, reason: CloseReason)
    requires CleanFrames(s.frames)
    ensures CleanFrames(Close(s, message, reason).frames)
  {
    KnownKindIsClean("error");
    WriteClean(s, ErrorFrame(message));
  }

  lemma TurnClean(s: Stream, t: Turn, codec: Codec)
    requires Faithful(codec) && CleanFrames(s.frames)
    requires t.poll.Message? ==> FromBot(t.poll.data, codec)
    ensures CleanFrames(TakeTurn(s, t, codec).frames)
  {
    ErrorsClean(s, NO_BOT, BotDisconnect);
    ErrorsClean(s, STREAM_TIMEOUT, Timeout);
    ErrorsClean(s, INTERNAL_ERROR, ConsumeError);
    WriteClean(s.(lastHeartbeat := t.later), HEARTBEAT);
    if t.poll.Message? {
      MessageClean(s, t.poll.data, t.later, codec);
    }
  }

  lemma {:induction false} TurnsClean(s: Stream, ts: seq<Turn>, codec: Codec)
    requires Faithful(codec) && CleanFrames(s.frames) && AllFromBot(ts, codec)
    ensures CleanFrames(TakeTurns(s, ts, codec).frames)
    decreases |ts|
  {
    if ts != [] {
      assert ts[0] in ts && forall t :: t in ts[1..] ==> t in ts;
      TurnClean(s, ts[0], codec);
      TurnsClean(TakeTurn(s, ts[0], codec), ts[1..], codec);
    }
  }

  /** Whatever bots send, and however the response is cut into reads, the browser gets exactly the
      events the loop wrote, in order. */
  lemma StreamParsesBack(sessionID: string, sessionNumber: int, start: int, turns: seq<Turn>,
                         codec: Codec, pieces: seq<string>)
    requires Faithful(codec) && AllFromBot(turns, codec)
    requires var s := TakeTurns(Opening(sessionID, sessionNumber, start), turns, codec);
             Concat(pieces) == PrintAll(s.frames, codec)
    ensures var s := TakeTurns(Opening(sessionID, sessionNumber, start), turns, codec);
            OnePass(FreshParser, Concat(pieces), codec.parse) == Parser("", "", "", EventsOf(s.frames))
  {
    var s := TakeTurns(Opening(sessionID, sessionNumber, start), turns, codec);
    KnownKindIsClean("session");
    TurnsClean(Opening(sessionID, sessionNumber, start), turns, codec);
    FramesSay(s.frames, codec);
    assert OnePass(Parser("", "", "", []), Concat(pieces), codec.parse) == Parser("", "", "", [] + EventsOf(s.frames));
    assert [] + EventsOf(s.frames) == EventsOf(s.frames);
  }
}
