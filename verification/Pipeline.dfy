/** The whole way of a reply: from the agent's callbacks in the plugin to the text in the browser. */
module Pipeline {
  import opened Prelude
  import opened Wire
  import opened ChatStream
  import opened Dispatch
  import ChatStore
  import StreamQueues

  // ---------------------------------------------------------------------------------------------
  // Plugin to inbox
  // ---------------------------------------------------------------------------------------------

  /** The updates that are sent as notifications. */
  predicate Notifies(u: Update) {
    u.Chunk? || u.Final? || u.Other?
  }

  function UpdateFields(u: Update): Fields
    requires Notifies(u)
  {
    match u
    case Chunk(text) => TextUpdate("agent_message_chunk", text)
    case Final(text) => TextUpdate("agent_message_final", text)
    case Other(update) => update
  }

  function TextUpdate(kind: string, text: string): Fields {
    map["sessionUpdate" := Str(kind),
        "content" := Obj(map["type" := Str("text"), "text" := Str(text)])]
  }

  /** One prompt: its session and the id of its request. */
  datatype Prompt = Prompt(sessionID: string, requestID: string)

  /** The JSON-RPC message the plugin sends for an update: a notification, or the response to the request. */
  function Rpc(u: Update, p: Prompt): Fields {
    match u
    case Outcome(stopReason) =>
      map["jsonrpc" := Str("2.0"), "id" := Str(p.requestID), "sessionId" := Str(p.sessionID),
          "result" := Obj(map["stopReason" := Str(stopReason)])]
    case Failure(code, message) =>
      map["jsonrpc" := Str("2.0"), "id" := Str(p.requestID), "sessionId" := Str(p.sessionID),
          "error" := Obj(map["code" := Num(code), "message" := Str(message)])]
    case _ =>
      map["jsonrpc" := Str("2.0"), "method" := Str("session/update"),
          "params" := Obj(map["sessionId" := Str(p.sessionID), "update" := Obj(UpdateFields(u))])]
  }

  /** The entries for one session among the events of a bot message. */
  function EntriesFor(ms: seq<(string, Fields)>, sessionID: string, codec: Codec): seq<string> {
    if ms == [] then []
    else (if ms[0].0 == sessionID then [codec.marshal(Obj(ms[0].1))] else [])
         + EntriesFor(ms[1..], sessionID, codec)
  }

  /** What the server puts into the session's inbox for one update. */
  function Entry(u: Update, p: Prompt, codec: Codec): seq<string> {
    EntriesFor(BotMessage(codec.marshal(Obj(Rpc(u, p))), codec), p.sessionID, codec)
  }

  function Inbox(us: seq<Update>, p: Prompt, codec: Codec): seq<string> {
    if us == [] then [] else Entry(us[0], p, codec) + Inbox(us[1..], p, codec)
  }

  /** The event the server makes of an update. */
  function EventOf(u: Update, codec: Codec): Option<Fields> {
    match u
    case Outcome(_) => None
    case Failure(_, message) => Some(SimpleEvent("error", message))
    case _ =>
      var params := map["sessionId" := Str(""), "update" := Obj(UpdateFields(u))];
      TranslateBotEvent("session/update", Some(params), codec)
  }

  lemma UpdateDecides(a: Fields, b: Fields, codec: Codec)
    requires Object(Some(a), "update") == Object(Some(b), "update")
    ensures TranslateBotEvent("session/update", Some(a), codec) == TranslateBotEvent("session/update", Some(b), codec)
  {
  }

  /** What becomes of the event of a message: at most one entry. */
  function EntryOf(e: Option<Fields>, codec: Codec): seq<string> {
    if e.Some? then [codec.marshal(Obj(e.value))] else []
  }

  function Routed(sessionID: string, e: Option<Fields>): seq<(string, Fields)> {
    if e.Some? then [(sessionID, e.value)] else []
  }

  /** A notification with a session and an update. */
  lemma NotificationMessage(msg: Fields, params: Fields, sessionID: string, codec: Codec)
    requires Faithful(codec) && sessionID != ""
    requires Text(Some(msg), "method") == Some("session/update") && Text(Some(msg), "type") == None
    requires Object(Some(msg), "params") == Some(params) && Text(Some(params), "sessionId") == Some(sessionID)
    requires "id" !in msg
    ensures BotMessage(codec.marshal(Obj(msg)), codec)
            == Routed(sessionID, TranslateBotEvent("session/update", Some(params), codec))
  {
    assert codec.parse(codec.marshal(Obj(msg))) == Some(Obj(msg));
  }

  lemma Notification(u: Update, p: Prompt, codec: Codec)
    requires Faithful(codec) && p.sessionID != "" && Notifies(u)
    ensures BotMessage(codec.marshal(Obj(Rpc(u, p))), codec) == Routed(p.sessionID, EventOf(u, codec))
  {
    var params := map["sessionId" := Str(p.sessionID), "update" := Obj(UpdateFields(u))];
    UpdateDecides(map["sessionId" := Str(""), "update" := Obj(UpdateFields(u))], params, codec);
    NotificationMessage(Rpc(u, p), params, p.sessionID, codec);
  }

  /** An error response, whose session is named beside it and not in its data. */
  lemma ErrorMessage(msg: Fields, err: Fields, message: string, sessionID: string, codec: Codec)
    requires Faithful(codec) && sessionID != ""
    requires Object(Some(msg), "error") == Some(err) && Text(Some(err), "message") == Some(message)
    requires Object(Some(err), "data") == None && Text(Some(msg), "sessionId") == Some(sessionID)
    requires Text(Some(msg), "method") == None && Text(Some(msg), "type") == None
    requires "id" in msg && "result" !in msg
    ensures BotMessage(codec.marshal(Obj(msg)), codec) == [(sessionID, SimpleEvent("error", message))]
  {
    assert codec.parse(codec.marshal(Obj(msg))) == Some(Obj(msg));
    assert ErrorReply(msg) == (sessionID, SimpleEvent("error", message));
  }

  /** The result of the request becomes no event. */
  lemma OutcomeIsSilent(stopReason: string, p: Prompt, codec: Codec)
    requires Faithful(codec)
    ensures BotMessage(codec.marshal(Obj(Rpc(Outcome(stopReason), p))), codec) == []
  {
    var msg := Rpc(Outcome(stopReason), p);
    assert codec.parse(codec.marshal(Obj(msg))) == Some(Obj(msg));
    assert Text(Some(msg), "method") == None && Text(Some(msg), "type") == None;
  }

  lemma OneMessage(u: Update, p: Prompt, codec: Codec)
    requires Faithful(codec) && p.sessionID != ""
    ensures BotMessage(codec.marshal(Obj(Rpc(u, p))), codec) == Routed(p.sessionID, EventOf(u, codec))
  {
    match u {
      case Failure(code, message) =>
        var err := map["code" := Num(code), "message" := Str(message)];
        ErrorMessage(Rpc(u, p), err, message, p.sessionID, codec);
      case Outcome(stopReason) => OutcomeIsSilent(stopReason, p, codec);
      case _ => Notification(u, p, codec);
    }
  }

  lemma RoutedEntry(sessionID: string, e: Option<Fields>, codec: Codec)
    ensures EntriesFor(Routed(sessionID, e), sessionID, codec) == EntryOf(e, codec)
  {
    assert e.Some? ==> Routed(sessionID, e)[1..] == [];
  }

  /** Every update becomes exactly the entry of its event: chunks, finals and failures one, results none, and
      other notifications one if they translate. */
  lemma OneEntry(u: Update, p: Prompt, codec: Codec)
    requires Faithful(codec) && p.sessionID != ""
    ensures Entry(u, p, codec) == EntryOf(EventOf(u, codec), codec)
    ensures forall raw :: raw in Entry(u, p, codec) ==> FromBot(raw, codec)
  {
    OneMessage(u, p, codec);
    RoutedEntry(p.sessionID, EventOf(u, codec), codec);
    var bot := codec.marshal(Obj(Rpc(u, p)));
    if EventOf(u, codec).Some? {
      var e := EventOf(u, codec).value;
      assert BotMessage(bot, codec)[0].1 == e;
      assert FromBot(codec.marshal(Obj(e)), codec);
    }
  }

  // ---------------------------------------------------------------------------------------------
  // What is on screen
  // ---------------------------------------------------------------------------------------------

  /** The text on screen once everything written so far has been read. */
  function OnScreen(s: Stream): string {
    ChatStore.ShownAfter("", EventsOf(s.frames))
  }

  lemma {:induction false} EventsAppend(fs: seq<Frame>, f: Frame)
    ensures EventsOf(fs + [f]) == EventsOf(fs) + FrameEvents(f)
    decreases |fs|
  {
    if fs == [] {
      assert fs + [f] == [f] && [f][1..] == [];
      assert FrameEvents(f) + [] == FrameEvents(f) == [] + FrameEvents(f);
    } else {
      assert (fs + [f])[1..] == fs[1..] + [f];
      EventsAppend(fs[1..], f);
    }
  }

  lemma {:induction false} ShownAppend(content: string, es: seq<Event>, e: Event)
    ensures var before := ChatStore.ShownAfter(content, es);
            ChatStore.ShownAfter(content, es + [e]) == before + ChatStore.Shown(e, before)
    decreases |es|
  {
    if es == [] {
      assert es + [e] == [e] && [e][1..] == [];
    } else {
      assert (es + [e])[1..] == es[1..] + [e];
      ShownAppend(content + ChatStore.Shown(es[0], content), es[1..], e);
    }
  }

  lemma WriteShows(s: Stream, kind: string, data: Json)
    ensures OnScreen(Write(s, EventFrame(kind, data)))
            == OnScreen(s) + ChatStore.Shown(Event(kind, data), OnScreen(s))
  {
    EventsAppend(s.frames, EventFrame(kind, data));
    ShownAppend("", EventsOf(s.frames), Event(kind, data));
  }

  lemma HeartbeatShowsNothing(s: Stream, later: int)
    ensures OnScreen(Write(s.(lastHeartbeat := later), HEARTBEAT)) == OnScreen(s)
  {
    EventsAppend(s.frames, HEARTBEAT);
    assert EventsOf(s.frames) + [] == EventsOf(s.frames);
  }

  /** The open stream shows `shown`, and has or has not seen a chunk. */
  predicate Shows(s: Stream, shown: string, chunky: bool) {
    s.reason == Open && OnScreen(s) == shown && s.hasChunks == chunky
  }

  /** What an event does to the screen: it adds a text, as a chunk or otherwise; or it ends the stream, done
      with a text or with an error. */
  datatype Effect = Adds(text: string, chunk: bool) | Finishes(text: string) | Breaks(message: string)

  function EffectOfEvent(kind: string, data: Json): Effect {
    if kind == "done" then Finishes(ContentOf(data))
    else if kind == "error" then Breaks(ContentOf(data))
    else Adds(ChatStore.Shown(Event(kind, data), ""), kind == "chunk")
  }

  /** What a done event leaves on screen: without a chunk before it, its text is injected as one; otherwise
      it only fills an empty screen. */
  function Closing(shown: string, chunky: bool, text: string): string {
    if chunky && shown != "" then shown else shown + text
  }

  /** What an error event adds on screen. */
  function ErrorText(message: string): string {
    "\n\n**Error:** " + ChatStore.Or(message, "Unknown error")
  }

  /** The effect happened to a stream that showed `shown`. */
  predicate Happened(s: Stream, shown: string, chunky: bool, fx: Effect) {
    match fx
    case Adds(text, chunk) => Shows(s, shown + text, chunky || chunk)
    case Finishes(text) => s.reason == Done && OnScreen(s) == Closing(shown, chunky, text)
    case Breaks(message) => s.reason == ErrorEvent && OnScreen(s) == shown + ErrorText(message)
  }

  lemma DeliverQuiet(s: Stream, shown: string, chunky: bool, kind: string, data: Json)
    requires Shows(s, shown, chunky) && !TerminalKind(kind)
    ensures Happened(Deliver(s, kind, data), shown, chunky, EffectOfEvent(kind, data))
  {
    var s1 := if kind == "chunk" then s.(hasChunks := true, reply := s.reply + ContentOf(data)) else s;
    WriteShows(s1, kind, data);
  }

  lemma DeliverDone(s: Stream, shown: string, chunky: bool, data: Json)
    requires Shows(s, shown, chunky) && data.Obj?
    ensures Happened(Deliver(s, "done", data), shown, chunky, Finishes(ContentOf(data)))
  {
    var text := ContentOf(data);
    if Injects(s, "done", data) {
      var chunk := Obj(map["content" := Str(text)]);
      var s1 := Write(s.(reply := s.reply + text), EventFrame("chunk", chunk));
      WriteShows(s.(reply := s.reply + text), "chunk", chunk);
      assert OnScreen(s1) == shown + text != "";
      WriteShows(s1, "done", data);
      assert (shown + text) + "" == shown + text;
    } else {
      WriteShows(s, "done", data);
      assert shown + "" == shown && "" + text == text;
    }
  }

  lemma DeliverError(s: Stream, shown: string, chunky: bool, data: Json)
    requires Shows(s, shown, chunky) && data.Obj?
    ensures Happened(Deliver(s, "error", data), shown, chunky, Breaks(ContentOf(data)))
  {
    WriteShows(s, "error", data);
  }

  lemma DeliverHappens(s: Stream, shown: string, chunky: bool, kind: string, data: Json)
    requires Shows(s, shown, chunky) && data.Obj?
    ensures Happened(Deliver(s, kind, data), shown, chunky, EffectOfEvent(kind, data))
  {
    if kind == "done" {
      DeliverDone(s, shown, chunky, data);
    } else if kind == "error" {
      DeliverError(s, shown, chunky, data);
    } else {
      DeliverQuiet(s, shown, chunky, kind, data);
    }
  }

  /** What an end that no message brings about adds on screen. */
  function EndText(reason: CloseReason): string {
    match reason
    case BotDisconnect => ErrorText("No bot connected")
    case Timeout => ErrorText("Stream timeout")
    case ConsumeError => ErrorText("Internal server error")
    case _ => ""
  }

  /** The ends that no message brings about: the client leaves, the bot is gone, the deadline has passed or
      the read fails.  The first changes nothing on screen, the others add their error.  A turn without any
      of these leaves the stream open and the screen as it is. */
  lemma OtherEnds(s: Stream, shown: string, chunky: bool, t: Turn, codec: Codec)
    requires Shows(s, shown, chunky) && (t.poll.Message? ==> t.signal != NoSignal || t.now > s.deadline)
    ensures var s' := TakeTurn(s, t, codec);
            var looks := t.signal == NoSignal && t.now <= s.deadline;
            && (s'.reason == ClientDisconnect
                <==> t.signal == ClientGone || (looks && t.poll == NothingYet(ClientGone)))
            && (s'.reason == BotDisconnect <==> t.signal == BotGone || (looks && t.poll == NothingYet(BotGone)))
            && (s'.reason == Timeout <==> t.signal == NoSignal && t.now > s.deadline)
            && (s'.reason == ConsumeError <==> looks && t.poll.ConsumeFails?)
            && OnScreen(s') == shown + EndText(s'.reason)
  {
    OtherEndReasons(s, t, codec);
    OtherEndShows(s, t, codec);
  }

  lemma OtherEndReasons(s: Stream, t: Turn, codec: Codec)
    requires s.reason == Open && (t.poll.Message? ==> t.signal != NoSignal || t.now > s.deadline)
    ensures var reason := TakeTurn(s, t, codec).reason;
            var looks := t.signal == NoSignal && t.now <= s.deadline;
            && (reason == ClientDisconnect
                <==> t.signal == ClientGone || (looks && t.poll == NothingYet(ClientGone)))
            && (reason == BotDisconnect <==> t.signal == BotGone || (looks && t.poll == NothingYet(BotGone)))
            && (reason == Timeout <==> t.signal == NoSignal && t.now > s.deadline)
            && (reason == ConsumeError <==> looks && t.poll.ConsumeFails?)
  {
  }

  lemma OtherEndShows(s: Stream, t: Turn, codec: Codec)
    requires s.reason == Open && (t.poll.Message? ==> t.signal != NoSignal || t.now > s.deadline)
    ensures OnScreen(TakeTurn(s, t, codec)) == OnScreen(s) + EndText(TakeTurn(s, t, codec).reason)
  {
    if t.signal == ClientGone {
      assert OnScreen(s) + "" == OnScreen(s);
    } else if t.signal == BotGone {
      ErrorShows(s, NO_BOT, BotDisconnect);
    } else if t.now > s.deadline {
      ErrorShows(s, STREAM_TIMEOUT, Timeout);
    } else if t.poll.ConsumeFails? {
      ErrorShows(s, INTERNAL_ERROR, ConsumeError);
    } else {
      EmptyReadEnds(s, OnScreen(s), t.poll.signal, t.later);
    }
  }

  lemma EmptyReadEnds(s: Stream, shown: string, signal: Signal, later: int)
    requires s.reason == Open && OnScreen(s) == shown
    ensures var s' := EmptyRead(s, signal, later);
            && s'.reason == (if signal == ClientGone then ClientDisconnect
                             else if signal == BotGone then BotDisconnect else Open)
            && OnScreen(s') == shown + EndText(s'.reason)
  {
    assert shown + "" == shown;
    if signal == BotGone {
      ErrorShows(s, NO_BOT, BotDisconnect);
    } else {
      HeartbeatShowsNothing(s, later);
    }
  }

  lemma ErrorShows(s: Stream, message: string, reason: CloseReason)
    ensures OnScreen(Close(s, message, reason)) == OnScreen(s) + ErrorText(message)
  {
    WriteShows(s, "error", ErrorFrame(message).data);
  }

  /** The kind and the payload of an event. */
  function Payload(e: Fields): (string, Json) {
    var kind := Text(Some(e), "type").GetOr("");
    (kind, Obj(if kind == "media" then Object(Some(e), "data").GetOr(map[]) else e - {"type"}))
  }

  predicate WellFormed(e: Fields) {
    var kind := Text(Some(e), "type").GetOr("");
    kind != "" && (kind == "media" ==> Object(Some(e), "data").Some?)
  }

  lemma DecodedEvent(e: Fields, codec: Codec)
    requires Faithful(codec) && WellFormed(e)
    ensures Decode(codec.marshal(Obj(e)), codec) == Some(Payload(e))
  {
    assert codec.parse(codec.marshal(Obj(e))) == Some(Obj(e));
  }

  lemma EventsAreWellFormed(u: Update, codec: Codec)
    ensures EventOf(u, codec).Some? ==> WellFormed(EventOf(u, codec).value)
  {
  }

  /** The effect of an update: none if it becomes no event. */
  function EffectsOf(u: Update, codec: Codec): seq<Effect> {
    var e := EventOf(u, codec);
    if e.None? then [] else [EffectOfEvent(Payload(e.value).0, Payload(e.value).1)]
  }

  function AllEffects(us: seq<Update>, codec: Codec): seq<Effect> {
    if us == [] then [] else EffectsOf(us[0], codec) + AllEffects(us[1..], codec)
  }

  /** Chunks add their text, finals finish with theirs, failures break with their message, results do
      nothing. */
  lemma BasicEffects(u: Update, codec: Codec)
    ensures u.Chunk? ==> EffectsOf(u, codec) == [Adds(u.text, true)]
    ensures u.Final? ==> EffectsOf(u, codec) == [Finishes(u.text)]
    ensures u.Failure? ==> EffectsOf(u, codec) == [Breaks(u.message)]
    ensures u.Outcome? ==> EffectsOf(u, codec) == []
  {
    if u.Chunk? {
      assert EventOf(u, codec) == Some(SimpleEvent("chunk", u.text));
    } else if u.Final? {
      assert EventOf(u, codec) == Some(SimpleEvent("done", u.text));
    }
  }

  /** An outbound text adds itself as a chunk. */
  lemma OutboundText(text: string, codec: Codec)
    ensures EffectsOf(Other(TextUpdate("agent_message_chunk", text)), codec) == [Adds(text, true)]
  {
    assert EventOf(Other(TextUpdate("agent_message_chunk", text)), codec) == Some(SimpleEvent("chunk", text));
  }

  /** An outbound medium adds its link, and is no chunk. */
  lemma OutboundMedia(content: Fields, url: string, codec: Codec)
    requires url != "" && Text(Object(Some(content), "media"), "downloadUrl") == Some(url)
    ensures EffectsOf(Other(map["sessionUpdate" := Str("agent_media"), "content" := Obj(content)]), codec)
            == [Adds("\n![media](" + url + ")\n", false)]
  {
    var update := map["sessionUpdate" := Str("agent_media"), "content" := Obj(content)];
    assert Object(Some(update), "content") == Some(content);
    assert EventOf(Other(update), codec) == MediaEvent(Some(content));
    MediaPayload(content, url);
  }

  lemma MediaPayload(content: Fields, url: string)
    requires url != "" && Text(Object(Some(content), "media"), "downloadUrl") == Some(url)
    ensures MediaEvent(Some(content)).Some?
    ensures var (kind, data) := Payload(MediaEvent(Some(content)).value);
            kind == "media" && ChatStore.Property(data, "content") == url
  {
  }

  /** The updates the tool hooks send. */
  predicate IsToolUpdate(update: Fields) {
    Text(Some(update), "sessionUpdate") in [Some("tool_call"), Some("tool_result")]
  }

  lemma ToolEffects(update: Fields, codec: Codec)
    requires IsToolUpdate(update)
    ensures EffectsOf(Other(update), codec) == [Adds("", false)]
  {
    var e := EventOf(Other(update), codec);
    assert e.Some? && Text(Some(e.value), "type") in [Some("tool_call"), Some("tool_result")];
  }

  // ---------------------------------------------------------------------------------------------
  // A whole run of the streaming loop
  // ---------------------------------------------------------------------------------------------

  /** The entries the turns read. */
  function Messages(ts: seq<Turn>): seq<string> {
    if ts == [] then []
    else (if ts[0].poll.Message? then [ts[0].poll.data] else []) + Messages(ts[1..])
  }

  /** Turns without a signal, a failing read or a passed deadline, for as long as the stream is open. */
  predicate Calm(s: Stream, ts: seq<Turn>, codec: Codec)
    decreases |ts|
  {
    ts != [] && s.reason == Open ==>
      && ts[0].signal == NoSignal && ts[0].now <= s.deadline
      && !ts[0].poll.ConsumeFails?
      && (ts[0].poll.NothingYet? ==> ts[0].poll.signal == NoSignal)
      && Calm(TakeTurn(s, ts[0], codec), ts[1..], codec)
  }

  /** The effects before the stream ends. */
  function Quiet(fx: seq<Effect>): seq<Effect> {
    if fx == [] || !fx[0].Adds? then [] else [fx[0]] + Quiet(fx[1..])
  }

  /** The effect that ends the stream, if there is one. */
  function EndOf(fx: seq<Effect>): Option<Effect> {
    if fx == [] then None else if fx[0].Adds? then EndOf(fx[1..]) else Some(fx[0])
  }

  function AddedText(fx: seq<Effect>): string {
    if fx == [] then "" else (if fx[0].Adds? then fx[0].text else "") + AddedText(fx[1..])
  }

  predicate Chunky(fx: seq<Effect>) {
    fx != [] && ((fx[0].Adds? && fx[0].chunk) || Chunky(fx[1..]))
  }

  function EndReason(fx: Effect): CloseReason {
    if fx.Finishes? then Done else if fx.Breaks? then ErrorEvent else Open
  }

  /** What the screen shows when the stream has ended. */
  function LastScreen(shown: string, chunky: bool, fx: seq<Effect>): string {
    var said := shown + AddedText(Quiet(fx));
    match EndOf(fx)
    case Some(Finishes(text)) => Closing(said, chunky || Chunky(Quiet(fx)), text)
    case Some(Breaks(message)) => said + ErrorText(message)
    case _ => said
  }

  /** What a run leaves behind: while the stream is open, exactly what was read is on screen; when a done or
      an error event closed it, the first ending effect was of that kind, and the screen shows what came
      before it and what it leaves. */
  ghost predicate Watched(s: Stream, read: nat, shown: string, chunky: bool, fx: seq<Effect>) {
    && (s.reason == Open ==> read <= |Quiet(fx)| <= |fx| && OnScreen(s) == shown + AddedText(fx[..read]))
    && (s.reason == Done || s.reason == ErrorEvent ==>
          && EndOf(fx).Some? && s.reason == EndReason(EndOf(fx).value)
          && OnScreen(s) == LastScreen(shown, chunky, fx))
  }

  /** Reading `raw` has this effect on any open stream. */
  ghost predicate Acts(fx: Effect, raw: string, codec: Codec) {
    forall s: Stream, shown: string, chunky: bool, later: int
      {:trigger TakeMessage(s, raw, later, codec), Shows(s, shown, chunky)} :: Shows(s, shown, chunky) ==>
        Happened(TakeMessage(s, raw, later, codec), shown, chunky, fx)
  }

  /** The entries have these effects, one by one. */
  ghost predicate Matched(inbox: seq<string>, fx: seq<Effect>, codec: Codec) {
    |inbox| == |fx| && forall i :: 0 <= i < |inbox| ==> Acts(fx[i], inbox[i], codec)
  }

  lemma EventActs(e: Fields, codec: Codec)
    requires Faithful(codec) && WellFormed(e)
    ensures Acts(EffectOfEvent(Payload(e).0, Payload(e).1), codec.marshal(Obj(e)), codec)
  {
    var raw, kind, data := codec.marshal(Obj(e)), Payload(e).0, Payload(e).1;
    DecodedEvent(e, codec);
    forall s: Stream, shown: string, chunky: bool, later: int | Shows(s, shown, chunky)
      ensures Happened(TakeMessage(s, raw, later, codec), shown, chunky, EffectOfEvent(kind, data))
    {
      DeliverHappens(s.(deadline := later + SSE_TIMEOUT), shown, chunky, kind, data);
    }
  }

  lemma EntryMatches(u: Update, p: Prompt, codec: Codec)
    requires Faithful(codec) && p.sessionID != ""
    ensures Matched(Entry(u, p, codec), EffectsOf(u, codec), codec)
    ensures forall raw :: raw in Entry(u, p, codec) ==> FromBot(raw, codec)
  {
    OneEntry(u, p, codec);
    EventsAreWellFormed(u, codec);
    if EventOf(u, codec).Some? {
      EventActs(EventOf(u, codec).value, codec);
    }
  }

  lemma MatchedBoth(a: seq<string>, fa: seq<Effect>, b: seq<string>, fb: seq<Effect>, codec: Codec)
    requires Matched(a, fa, codec) && Matched(b, fb, codec)
    ensures Matched(a + b, fa + fb, codec)
  {
    var ab, fab := a + b, fa + fb;
    forall i | 0 <= i < |ab| ensures Acts(fab[i], ab[i], codec) {
      if i < |a| {
        assert ab[i] == a[i] && fab[i] == fa[i];
      } else {
        assert ab[i] == b[i - |a|] && fab[i] == fb[i - |a|];
      }
    }
  }

  /** The inbox of any updates has their effects. */
  lemma {:induction false} InboxMatches(us: seq<Update>, p: Prompt, codec: Codec)
    requires Faithful(codec) && p.sessionID != ""
    ensures Matched(Inbox(us, p, codec), AllEffects(us, codec), codec)
    ensures forall raw :: raw in Inbox(us, p, codec) ==> FromBot(raw, codec)
    decreases |us|
  {
    if us != [] {
      EntryMatches(us[0], p, codec);
      InboxMatches(us[1..], p, codec);
      MatchedBoth(Entry(us[0], p, codec), EffectsOf(us[0], codec),
                  Inbox(us[1..], p, codec), AllEffects(us[1..], codec), codec);
    }
  }

  /** The messages have the first effects. */
  ghost predicate Carry(messages: seq<string>, fx: seq<Effect>, codec: Codec) {
    |messages| <= |fx| && forall i :: 0 <= i < |messages| ==> Acts(fx[i], messages[i], codec)
  }

  lemma CarryTail(raw: string, rest: seq<string>, fx: seq<Effect>, codec: Codec)
    requires Carry([raw] + rest, fx, codec)
    ensures fx != [] && Acts(fx[0], raw, codec) && Carry(rest, fx[1..], codec)
  {
    var messages := [raw] + rest;
    assert messages[0] == raw && Acts(fx[0], messages[0], codec);
    forall i | 0 <= i < |rest| ensures Acts(fx[1..][i], rest[i], codec) {
      assert messages[i + 1] == rest[i] && Acts(fx[i + 1], messages[i + 1], codec);
    }
  }

  lemma ActsOn(s: Stream, shown: string, chunky: bool, fx: Effect, raw: string, later: int, codec: Codec)
    requires Acts(fx, raw, codec) && Shows(s, shown, chunky)
    ensures Happened(TakeMessage(s, raw, later, codec), shown, chunky, fx)
  {
  }

  /** A turn that does not get to read a message. */
  lemma QuietTurn(s: Stream, shown: string, chunky: bool, t: Turn, codec: Codec)
    requires Shows(s, shown, chunky)
    requires t.signal != NoSignal || t.now > s.deadline || !t.poll.Message?
    ensures var s' := TakeTurn(s, t, codec);
            && (s'.reason == Open ==> Shows(s', shown, chunky) && !t.poll.Message?)
            && s'.reason != Done && s'.reason != ErrorEvent
            && (t.signal == NoSignal && t.now <= s.deadline && t.poll == NothingYet(NoSignal) ==> s'.reason == Open)
  {
    HeartbeatShowsNothing(s, t.later);
  }

  /** A turn that takes a message. */
  lemma MessageTurn(s: Stream, ts: seq<Turn>, codec: Codec)
    requires s.reason == Open
    requires ts != [] && ts[0].signal == NoSignal && ts[0].now <= s.deadline && ts[0].poll.Message?
    ensures var s' := TakeMessage(s, ts[0].poll.data, ts[0].later, codec);
            && TakeTurns(s, ts, codec) == TakeTurns(s', ts[1..], codec)
            && (Calm(s, ts, codec) ==> Calm(s', ts[1..], codec))
    ensures Messages(ts) == [ts[0].poll.data] + Messages(ts[1..])
  {
    assert TakeTurn(s, ts[0], codec) == TakeMessage(s, ts[0].poll.data, ts[0].later, codec);
  }

  lemma {:induction false} QuietIsPrefix(fx: seq<Effect>)
    ensures |Quiet(fx)| <= |fx|
    ensures EndOf(fx).Some? ==> !EndOf(fx).value.Adds?
    decreases |fx|
  {
    if fx != [] {
      QuietIsPrefix(fx[1..]);
    }
  }

  /** One more quiet effect in front. */
  lemma WatchedCons(s: Stream, read: nat, shown: string, chunky: bool, fx: seq<Effect>)
    requires fx != [] && fx[0].Adds?
    requires Watched(s, read, shown + fx[0].text, chunky || fx[0].chunk, fx[1..])
    ensures Watched(s, read + 1, shown, chunky, fx)
  {
    var rest := fx[1..];
    var quiet := Quiet(fx);
    assert quiet == [fx[0]] + Quiet(rest) && quiet[1..] == Quiet(rest);
    TextRegroup(shown, fx[0].text, AddedText(Quiet(rest)));
    QuietIsPrefix(fx);
    if read <= |Quiet(rest)| <= |rest| {
      assert fx[..read + 1][1..] == rest[..read];
      TextRegroup(shown, fx[0].text, AddedText(rest[..read]));
    }
  }

  lemma TextRegroup(a: string, b: string, c: string)
    ensures a + (b + c) == (a + b) + c
  {
  }

  /** The effect that ends the stream. */
  lemma WatchEnd(s: Stream, read: nat, shown: string, chunky: bool, fx: seq<Effect>)
    requires fx != [] && !fx[0].Adds? && Happened(s, shown, chunky, fx[0])
    ensures Watched(s, read, shown, chunky, fx) && s.reason == EndReason(fx[0])
  {
    assert shown + "" == shown;
  }

  lemma {:induction false} WatchRun(s: Stream, shown: string, chunky: bool, fx: seq<Effect>, ts: seq<Turn>,
                                    codec: Codec)
    requires Shows(s, shown, chunky) && Carry(Messages(ts), fx, codec)
    ensures Watched(TakeTurns(s, ts, codec), |Messages(ts)|, shown, chunky, fx)
    ensures Calm(s, ts, codec) && EndOf(fx).Some? && |Messages(ts)| > |Quiet(fx)| ==>
              TakeTurns(s, ts, codec).reason == EndReason(EndOf(fx).value)
    decreases |ts|, 1
  {
    if ts == [] {
      QuietIsPrefix(fx);
      assert fx[..0] == [] && shown + "" == shown;
    } else if ts[0].signal == NoSignal && ts[0].now <= s.deadline && ts[0].poll.Message? {
      WatchMessage(s, shown, chunky, fx, ts, codec);
    } else {
      var s' := TakeTurn(s, ts[0], codec);
      QuietTurn(s, shown, chunky, ts[0], codec);
      if s'.reason == Open {
        assert Messages(ts) == Messages(ts[1..]);
        WatchRun(s', shown, chunky, fx, ts[1..], codec);
      } else {
        ClosedStays(s', ts[1..], codec);
      }
    }
  }

  lemma {:induction false} WatchMessage(s: Stream, shown: string, chunky: bool, fx: seq<Effect>, ts: seq<Turn>,
                                        codec: Codec)
    requires Shows(s, shown, chunky) && Carry(Messages(ts), fx, codec)
    requires ts != [] && ts[0].signal == NoSignal && ts[0].now <= s.deadline && ts[0].poll.Message?
    ensures Watched(TakeTurns(s, ts, codec), |Messages(ts)|, shown, chunky, fx)
    ensures Calm(s, ts, codec) && EndOf(fx).Some? && |Messages(ts)| > |Quiet(fx)| ==>
              TakeTurns(s, ts, codec).reason == EndReason(EndOf(fx).value)
    decreases |ts|, 0
  {
    var raw, rest := ts[0].poll.data, Messages(ts[1..]);
    var s' := TakeMessage(s, raw, ts[0].later, codec);
    MessageTurn(s, ts, codec);
    CarryTail(raw, rest, fx, codec);
    ActsOn(s, shown, chunky, fx[0], raw, ts[0].later, codec);
    if fx[0].Adds? {
      WatchRest(s', shown, chunky, fx, ts[1..], codec);
    } else {
      WatchEnd(s', |rest| + 1, shown, chunky, fx);
      ClosedStays(s', ts[1..], codec);
    }
  }

  /** The turns after the one that took the first effect. */
  lemma {:induction false} WatchRest(s: Stream, shown: string, chunky: bool, fx: seq<Effect>, ts: seq<Turn>,
                                     codec: Codec)
    requires fx != [] && fx[0].Adds? && Shows(s, shown + fx[0].text, chunky || fx[0].chunk)
    requires Carry(Messages(ts), fx[1..], codec)
    ensures Watched(TakeTurns(s, ts, codec), |Messages(ts)| + 1, shown, chunky, fx)
    ensures Calm(s, ts, codec) && EndOf(fx).Some? && |Messages(ts)| + 1 > |Quiet(fx)| ==>
              TakeTurns(s, ts, codec).reason == EndReason(EndOf(fx).value)
    decreases |ts|, 2
  {
    WatchRun(s, shown + fx[0].text, chunky || fx[0].chunk, fx[1..], ts, codec);
    WatchedCons(TakeTurns(s, ts, codec), |Messages(ts)|, shown, chunky, fx);
  }

  // ---------------------------------------------------------------------------------------------
  // End to end
  // ---------------------------------------------------------------------------------------------

  /** The browser's text after reading the response in any pieces. */
  function Displayed(pieces: seq<string>, codec: Codec): string {
    ChatStore.ShownAfter("", OnePass(FreshParser, Concat(pieces), codec.parse).out)
  }

  /** The browser's reading of a response: parsing the pieces and showing each event. */
  method ShowResponse(pieces: seq<string>, now: string, sessionId: string, codec: Codec) returns (shown: string)
    ensures shown == Displayed(pieces, codec)
  {
    var p := ConsumeSSE(pieces, codec.parse);
    shown := ChatStore.ShowAll(p.out, now, sessionId);
  }

  lemma {:induction false} MessagesFrom(ts: seq<Turn>, inbox: seq<string>, codec: Codec)
    requires forall raw :: raw in inbox ==> FromBot(raw, codec)
    requires forall raw :: raw in Messages(ts) ==> raw in inbox
    ensures AllFromBot(ts, codec)
    decreases |ts|
  {
    if ts != [] {
      MessagesFrom(ts[1..], inbox, codec);
      assert ts[0].poll.Message? ==> ts[0].poll.data in Messages(ts);
      assert forall t :: t in ts ==> t == ts[0] || t in ts[1..];
    }
  }

  lemma WatchInbox(us: seq<Update>, p: Prompt, number: int, start: int, turns: seq<Turn>, codec: Codec)
    requires Faithful(codec) && p.sessionID != "" && Messages(turns) <= Inbox(us, p, codec)
    ensures var open, fx := Opening(p.sessionID, number, start), AllEffects(us, codec);
            && Watched(TakeTurns(open, turns, codec), |Messages(turns)|, "", false, fx)
            && (Calm(open, turns, codec) && EndOf(fx).Some? && Messages(turns) == Inbox(us, p, codec) ==>
                  TakeTurns(open, turns, codec).reason == EndReason(EndOf(fx).value))
  {
    var fx := AllEffects(us, codec);
    OpeningShows(p.sessionID, number, start);
    InboxMatches(us, p, codec);
    EndIsLater(fx);
    WatchRun(Opening(p.sessionID, number, start), "", false, fx, turns, codec);
  }

  lemma {:induction false} EndIsLater(fx: seq<Effect>)
    ensures EndOf(fx).Some? ==> |Quiet(fx)| < |fx|
    decreases |fx|
  {
    if fx != [] {
      EndIsLater(fx[1..]);
    }
  }

  /** For any updates of any kind that the plugin sends for the session, in the order of sending; however the
      loop's turns go, as long as the entries they read are those of the updates in order; and however the
      response is cut: while the stream is open, the browser shows exactly what the entries read so far add;
      and when a done or an error event closed it, what was added before the first ending update, and what
      that leaves. */
  lemma DisplayedText(us: seq<Update>, p: Prompt, number: int, start: int, turns: seq<Turn>, codec: Codec,
                      pieces: seq<string>)
    requires Faithful(codec) && p.sessionID != "" && Messages(turns) <= Inbox(us, p, codec)
    requires Concat(pieces) == PrintAll(TakeTurns(Opening(p.sessionID, number, start), turns, codec).frames, codec)
    ensures var s := TakeTurns(Opening(p.sessionID, number, start), turns, codec);
            && Watched(s, |Messages(turns)|, "", false, AllEffects(us, codec))
            && Displayed(pieces, codec) == OnScreen(s)
  {
    WatchInbox(us, p, number, start, turns, codec);
    InboxMatches(us, p, codec);
    MessagesFrom(turns, Inbox(us, p, codec), codec);
    StreamParsesBack(p.sessionID, number, start, turns, codec, pieces);
  }

  /** A calm run that reads all entries of updates one of which ends the stream ends as that says. */
  lemma CalmRunEnds(us: seq<Update>, p: Prompt, number: int, start: int, turns: seq<Turn>, codec: Codec)
    requires Faithful(codec) && p.sessionID != "" && EndOf(AllEffects(us, codec)).Some?
    requires Messages(turns) == Inbox(us, p, codec) && Calm(Opening(p.sessionID, number, start), turns, codec)
    ensures TakeTurns(Opening(p.sessionID, number, start), turns, codec).reason
            == EndReason(EndOf(AllEffects(us, codec)).value)
  {
    WatchInbox(us, p, number, start, turns, codec);
  }

  lemma OpeningShows(sessionID: string, number: int, start: int)
    ensures Shows(Opening(sessionID, number, start), "", false)
  {
    var s := Opening(sessionID, number, start).(frames := []);
    WriteShows(s, "session", SessionFrame(sessionID, number).data);
    assert [] + [SessionFrame(sessionID, number)] == [SessionFrame(sessionID, number)];
  }

  // ---------------------------------------------------------------------------------------------
  // The reply of a prompt
  // ---------------------------------------------------------------------------------------------

  /** What the plugin sends for one prompt when every send succeeds. */
  function Sent(cbs: seq<Callback>, isSilent: string -> bool, ending: Ending): seq<Update> {
    OnEnd(OnCallbacks(FreshReply, cbs, isSilent), ending, isSilent, true, true).sent
  }

  /** What the end of the dispatch adds to that. */
  function Ends(cbs: seq<Callback>, isSilent: string -> bool, ending: Ending): seq<Effect> {
    var r := OnCallbacks(FreshReply, cbs, isSilent);
    var speaks := (r.chunkCount > 0 || FinalText(r) != "") && !isSilent(FinalText(r));
    match ending
    case Completed => if speaks then [Finishes(FinalText(r))] else []
    case Throws(error) => if r.aborted then [Finishes(FinalText(r))] else [Breaks(error)]
  }

  /** No notification of a hook finishes the stream; the plugin's tool updates, texts and media do not. */
  ghost predicate HooksContinue(cbs: seq<Callback>, codec: Codec) {
    forall cb :: cb in cbs && cb.Hook? ==> forall fx :: fx in EffectsOf(Other(cb.update), codec) ==> !fx.Finishes?
  }

  ghost predicate ToolHooksOnly(cbs: seq<Callback>) {
    forall cb :: cb in cbs ==> !cb.AgentAborts? && (cb.Hook? ==> IsToolUpdate(cb.update))
  }

  ghost predicate NoneFinishes(fx: seq<Effect>) {
    forall e :: e in fx ==> !e.Finishes?
  }

  lemma {:induction false} EffectsAppend(us: seq<Update>, u: Update, codec: Codec)
    ensures AllEffects(us + [u], codec) == AllEffects(us, codec) + EffectsOf(u, codec)
    decreases |us|
  {
    var last := EffectsOf(u, codec);
    if us == [] {
      assert us + [u] == [u] && [u][1..] == [];
      assert last + [] == last == [] + last;
    } else {
      assert (us + [u])[1..] == us[1..] + [u];
      EffectsAppend(us[1..], u, codec);
      EffectsRegroup(EffectsOf(us[0], codec), AllEffects(us[1..], codec), last);
    }
  }

  lemma EffectsRegroup(a: seq<Effect>, b: seq<Effect>, c: seq<Effect>)
    ensures a + (b + c) == (a + b) + c
  {
  }

  lemma PartialAppends(r: Reply, text: string, isSilent: string -> bool)
    ensures var r' := OnPartial(r, text, isSilent, true);
            && r'.finalSent == r.finalSent
            && (r'.sent == r.sent || exists piece :: r'.sent == r.sent + [Chunk(piece)])
  {
  }

  /** Callbacks send no final, and nothing that finishes the stream. */
  lemma CallbackContinues(r: Reply, cb: Callback, isSilent: string -> bool, codec: Codec)
    requires NoneFinishes(AllEffects(r.sent, codec)) && !r.finalSent
    requires cb.Hook? ==> forall fx :: fx in EffectsOf(Other(cb.update), codec) ==> !fx.Finishes?
    ensures NoneFinishes(AllEffects(OnCallback(r, cb, isSilent).sent, codec))
    ensures !OnCallback(r, cb, isSilent).finalSent
  {
    match cb {
      case Partial(text) =>
        PartialAppends(r, text, isSilent);
        var r' := OnPartial(r, text, isSilent, true);
        if r'.sent != r.sent {
          var piece :| r'.sent == r.sent + [Chunk(piece)];
          EffectsAppend(r.sent, Chunk(piece), codec);
          BasicEffects(Chunk(piece), codec);
        }
      case Hook(update) => EffectsAppend(r.sent, Other(update), codec);
      case AgentAborts =>
        var failure := Failure(AGENT_ABORTED_TIMEOUT, AGENT_ABORTED);
        EffectsAppend(r.sent, failure, codec);
        BasicEffects(failure, codec);
      case _ =>
    }
  }

  lemma {:induction false} CallbacksContinue(r: Reply, cbs: seq<Callback>, isSilent: string -> bool, codec: Codec)
    requires NoneFinishes(AllEffects(r.sent, codec)) && !r.finalSent && HooksContinue(cbs, codec)
    ensures NoneFinishes(AllEffects(OnCallbacks(r, cbs, isSilent).sent, codec))
    ensures !OnCallbacks(r, cbs, isSilent).finalSent
    decreases |cbs|
  {
    if cbs != [] {
      assert cbs[0] in cbs && forall cb :: cb in cbs[1..] ==> cb in cbs;
      CallbackContinues(r, cbs[0], isSilent, codec);
      CallbacksContinue(OnCallback(r, cbs[0], isSilent), cbs[1..], isSilent, codec);
    }
  }

  /** The effects of a reply are those of its callbacks and of its end. */
  lemma SentEffects(cbs: seq<Callback>, isSilent: string -> bool, ending: Ending, codec: Codec)
    requires HooksContinue(cbs, codec)
    ensures var mid := AllEffects(OnCallbacks(FreshReply, cbs, isSilent).sent, codec);
            && NoneFinishes(mid)
            && AllEffects(Sent(cbs, isSilent, ending), codec) == mid + Ends(cbs, isSilent, ending)
  {
    var r := OnCallbacks(FreshReply, cbs, isSilent);
    CallbacksContinue(FreshReply, cbs, isSilent, codec);
    var mid := AllEffects(r.sent, codec);
    var concluded := Concluded(r, ending, isSilent, true);
    var final := Final(FinalText(r));
    EffectsAppend(r.sent, final, codec);
    BasicEffects(final, codec);
    var closing := if Fails(r, ending) then [] else Ends(cbs, isSilent, ending);
    assert AllEffects(concluded.sent, codec) == mid + closing by {
      assert mid + [] == mid;
    }
    var answer := Answer(concluded, ending);
    EffectsAppend(concluded.sent, answer, codec);
    BasicEffects(answer, codec);
    assert mid + [] == mid && (mid + Ends(cbs, isSilent, ending)) + [] == mid + Ends(cbs, isSilent, ending);
  }

  /** An agent run that is aborted breaks the stream with its message. */
  lemma AgentAbortBreaks(r: Reply, isSilent: string -> bool, codec: Codec)
    ensures AllEffects(OnCallback(r, AgentAborts, isSilent).sent, codec)
            == AllEffects(r.sent, codec) + [Breaks("Agent run aborted due to timeout")]
  {
    EffectsAppend(r.sent, Failure(AGENT_ABORTED_TIMEOUT, AGENT_ABORTED), codec);
    BasicEffects(Failure(AGENT_ABORTED_TIMEOUT, AGENT_ABORTED), codec);
  }

  lemma {:induction false} EndOfBoth(a: seq<Effect>, b: seq<Effect>)
    ensures EndOf(a + b) == if EndOf(a).Some? then EndOf(a) else EndOf(b)
    ensures EndOf(a).None? ==> Quiet(a + b) == a + Quiet(b)
    ensures EndOf(a).Some? ==> EndOf(a).value in a
    decreases |a|
  {
    if a == [] {
      assert a + b == b && [] + Quiet(b) == Quiet(b);
    } else {
      assert (a + b)[1..] == a[1..] + b;
      EndOfBoth(a[1..], b);
      if a[0].Adds? && EndOf(a[1..]).None? {
        assert a == [a[0]] + a[1..];
        EffectsRegroup([a[0]], a[1..], Quiet(b));
      }
    }
  }

  /** When the done event closed the stream, it was that of the final text, and the browser shows it as it
      closes what the callbacks added. */
  lemma DoneShows(cbs: seq<Callback>, isSilent: string -> bool, ending: Ending, p: Prompt,
                  number: int, start: int, turns: seq<Turn>, codec: Codec, pieces: seq<string>)
    requires Faithful(codec) && p.sessionID != "" && HooksContinue(cbs, codec)
    requires Messages(turns) <= Inbox(Sent(cbs, isSilent, ending), p, codec)
    requires TakeTurns(Opening(p.sessionID, number, start), turns, codec).reason == Done
    requires Concat(pieces) == PrintAll(TakeTurns(Opening(p.sessionID, number, start), turns, codec).frames, codec)
    ensures var r := OnCallbacks(FreshReply, cbs, isSilent);
            var mid := AllEffects(r.sent, codec);
            && Ends(cbs, isSilent, ending) == [Finishes(FinalText(r))]
            && Displayed(pieces, codec) == Closing(AddedText(mid), Chunky(mid), FinalText(r))
  {
    var mid := AllEffects(OnCallbacks(FreshReply, cbs, isSilent).sent, codec);
    var ends := Ends(cbs, isSilent, ending);
    DisplayedText(Sent(cbs, isSilent, ending), p, number, start, turns, codec, pieces);
    SentEffects(cbs, isSilent, ending, codec);
    EndOfBoth(mid, ends);
    assert ends != [] && ends[0].Finishes?;
    assert Quiet(ends) == [] && mid + [] == mid && "" + AddedText(mid) == AddedText(mid);
  }

  lemma {:induction false} PlainEffects(r: Reply, cbs: seq<Callback>, isSilent: string -> bool, codec: Codec)
    requires ToolHooksOnly(cbs)
    requires AddedText(AllEffects(r.sent, codec)) == Streamed(r.sent)
    requires Streamed(r.sent) != "" ==> Chunky(AllEffects(r.sent, codec))
    ensures var sent := OnCallbacks(r, cbs, isSilent).sent;
            && AddedText(AllEffects(sent, codec)) == Streamed(sent)
            && (Streamed(sent) != "" ==> Chunky(AllEffects(sent, codec)))
    decreases |cbs|
  {
    if cbs != [] {
      assert cbs[0] in cbs && forall cb :: cb in cbs[1..] ==> cb in cbs;
      PlainEffect(r, cbs[0], isSilent, codec);
      PlainEffects(OnCallback(r, cbs[0], isSilent), cbs[1..], isSilent, codec);
    }
  }

  lemma PlainEffect(r: Reply, cb: Callback, isSilent: string -> bool, codec: Codec)
    requires !cb.AgentAborts? && (cb.Hook? ==> IsToolUpdate(cb.update))
    requires AddedText(AllEffects(r.sent, codec)) == Streamed(r.sent)
    requires Streamed(r.sent) != "" ==> Chunky(AllEffects(r.sent, codec))
    ensures var sent := OnCallback(r, cb, isSilent).sent;
            && AddedText(AllEffects(sent, codec)) == Streamed(sent)
            && (Streamed(sent) != "" ==> Chunky(AllEffects(sent, codec)))
  {
    if cb.Partial? {
      PartialEffect(r, cb.text, isSilent, codec);
    } else if cb.Hook? {
      ToolEffects(cb.update, codec);
      OneMoreEffect(r.sent, Other(cb.update), Adds("", false), codec);
    }
  }

  lemma PartialEffect(r: Reply, text: string, isSilent: string -> bool, codec: Codec)
    requires AddedText(AllEffects(r.sent, codec)) == Streamed(r.sent)
    requires Streamed(r.sent) != "" ==> Chunky(AllEffects(r.sent, codec))
    ensures var sent := OnPartial(r, text, isSilent, true).sent;
            && AddedText(AllEffects(sent, codec)) == Streamed(sent)
            && (Streamed(sent) != "" ==> Chunky(AllEffects(sent, codec)))
  {
    PartialAppends(r, text, isSilent);
    var r' := OnPartial(r, text, isSilent, true);
    if r'.sent != r.sent {
      var piece :| r'.sent == r.sent + [Chunk(piece)];
      BasicEffects(Chunk(piece), codec);
      OneMoreEffect(r.sent, Chunk(piece), Adds(piece, true), codec);
    }
  }

  lemma OneMoreEffect(us: seq<Update>, u: Update, fx: Effect, codec: Codec)
    requires EffectsOf(u, codec) == [fx] && fx.Adds?
    ensures AddedText(AllEffects(us + [u], codec)) == AddedText(AllEffects(us, codec)) + fx.text
    ensures Chunky(AllEffects(us + [u], codec)) <==> Chunky(AllEffects(us, codec)) || fx.chunk
    ensures Streamed(us + [u]) == Streamed(us) + ChunkText(u)
  {
    EffectsAppend(us, u, codec);
    AddedAppend(AllEffects(us, codec), fx);
    StreamedAppend(us, u);
  }

  lemma {:induction false} AddedAppend(fx: seq<Effect>, e: Effect)
    requires e.Adds?
    ensures AddedText(fx + [e]) == AddedText(fx) + e.text
    ensures Chunky(fx + [e]) <==> Chunky(fx) || e.chunk
    decreases |fx|
  {
    if fx == [] {
      assert fx + [e] == [e] && [e][1..] == [] && e.text + "" == e.text == "" + e.text;
    } else {
      assert (fx + [e])[1..] == fx[1..] + [e];
      AddedAppend(fx[1..], e);
      TextRegroup(if fx[0].Adds? then fx[0].text else "", AddedText(fx[1..]), e.text);
    }
  }

  lemma ToolHooksContinue(cbs: seq<Callback>, codec: Codec)
    requires ToolHooksOnly(cbs)
    ensures HooksContinue(cbs, codec)
  {
    forall cb | cb in cbs && cb.Hook?
      ensures forall fx :: fx in EffectsOf(Other(cb.update), codec) ==> !fx.Finishes?
    {
      ToolEffects(cb.update, codec);
    }
  }

  /** With tool hooks only, what the callbacks add is what they stream. */
  lemma AddedIsStreamed(cbs: seq<Callback>, isSilent: string -> bool, codec: Codec)
    requires ToolHooksOnly(cbs)
    ensures HooksContinue(cbs, codec)
    ensures var sent := OnCallbacks(FreshReply, cbs, isSilent).sent;
            && AddedText(AllEffects(sent, codec)) == Streamed(sent)
            && (Streamed(sent) != "" ==> Chunky(AllEffects(sent, codec)))
  {
    ToolHooksContinue(cbs, codec);
    PlainEffects(FreshReply, cbs, isSilent, codec);
  }

  /** When the stream ends with the done event, for all callbacks, with outbound texts and media among them:
      the browser shows the final text exactly when nothing was added, or chunks were and the whole addition
      is the final text.  With tool hooks only, the addition is what was streamed.  Then, given that the
      earlier turns streamed what they recorded, that is exactly when nothing was streamed or the last turn
      did so too; and if final deliveries only repeat what was streamed, exactly when every partial text that
      was sent extends the last one of its turn. */
  lemma DisplayedIsFinalText(cbs: seq<Callback>, isSilent: string -> bool, ending: Ending, p: Prompt,
                             number: int, start: int, turns: seq<Turn>, codec: Codec, pieces: seq<string>)
    requires Faithful(codec) && p.sessionID != "" && HooksContinue(cbs, codec)
    requires Messages(turns) <= Inbox(Sent(cbs, isSilent, ending), p, codec)
    requires TakeTurns(Opening(p.sessionID, number, start), turns, codec).reason == Done
    requires Concat(pieces) == PrintAll(TakeTurns(Opening(p.sessionID, number, start), turns, codec).frames, codec)
    ensures var r, l := OnCallbacks(FreshReply, cbs, isSilent), FollowAll(FreshLedger, cbs, isSilent);
            var mid := AllEffects(r.sent, codec);
            var shown := Displayed(pieces, codec) == FinalText(r);
            && Ends(cbs, isSilent, ending) == [Finishes(FinalText(r))]
            && (shown <==> AddedText(mid) == "" || (Chunky(mid) && AddedText(mid) == FinalText(r)))
            && (ToolHooksOnly(cbs) ==>
                  && AddedText(mid) == Streamed(r.sent)
                  && (shown <==> Streamed(r.sent) == "" || Streamed(r.sent) == FinalText(r))
                  && (EarlierShown(l) ==> (shown <==> Streamed(r.sent) == "" || LastShown(l)))
                  && (FinalsRepeat(FreshReply, cbs, isSilent) ==>
                        (shown <==> AllExtend(FreshReply, cbs, isSilent))))
  {
    var r := OnCallbacks(FreshReply, cbs, isSilent);
    DoneShows(cbs, isSilent, ending, p, number, start, turns, codec, pieces);
    ClosingIsText(AddedText(AllEffects(r.sent, codec)), Chunky(AllEffects(r.sent, codec)), FinalText(r));
    StreamedIsFinalText(cbs, isSilent);
    if ToolHooksOnly(cbs) {
      AddedIsStreamed(cbs, isSilent, codec);
    }
  }

  lemma ClosingIsText(shown: string, chunky: bool, text: string)
    ensures Closing(shown, chunky, text) == text <==> shown == "" || (chunky && shown == text)
  {
    assert |shown + text| == |shown| + |text| && "" + text == text;
  }

  /** A turn that was delivered at once and followed by a shorter one is in the final text, and never on
      screen. */
  lemma LostTurnIsNotDisplayed(first: string, next: string, isSilent: string -> bool, p: Prompt, number: int,
                               start: int, turns: seq<Turn>, codec: Codec, pieces: seq<string>)
    requires Faithful(codec) && p.sessionID != ""
    requires next != "" && |next| < |first| && !Hidden(next, isSilent)
    requires Messages(turns) <= Inbox(Sent([DeliverFinal(first), Partial(next)], isSilent, Completed), p, codec)
    requires TakeTurns(Opening(p.sessionID, number, start), turns, codec).reason == Done
    requires Concat(pieces) == PrintAll(TakeTurns(Opening(p.sessionID, number, start), turns, codec).frames, codec)
    ensures Displayed(pieces, codec) == next
    ensures Ends([DeliverFinal(first), Partial(next)], isSilent, Completed) == [Finishes(first + next)]
  {
    var cbs := [DeliverFinal(first), Partial(next)];
    UnstreamedTurnIsLost(first, next, isSilent);
    AddedIsStreamed(cbs, isSilent, codec);
    DoneShows(cbs, isSilent, Completed, p, number, start, turns, codec, pieces);
  }

  /** Turns that read the messages one after the other, at once. */
  function PromptTurns(messages: seq<string>): seq<Turn> {
    if messages == [] then [] else [Turn(NoSignal, 0, Message(messages[0]), 0)] + PromptTurns(messages[1..])
  }

  lemma PromptTurn(s: Stream, raw: string, codec: Codec)
    requires s.deadline >= 0
    ensures TakeTurn(s, Turn(NoSignal, 0, Message(raw), 0), codec).deadline >= 0
  {
    if s.reason == Open {
      assert TakeTurn(s, Turn(NoSignal, 0, Message(raw), 0), codec) == TakeMessage(s, raw, 0, codec);
    }
  }

  lemma {:induction false} PromptTurnsAreCalm(s: Stream, messages: seq<string>, codec: Codec)
    requires s.deadline >= 0
    ensures Calm(s, PromptTurns(messages), codec) && Messages(PromptTurns(messages)) == messages
    decreases |messages|
  {
    if messages != [] {
      var t, rest := Turn(NoSignal, 0, Message(messages[0]), 0), PromptTurns(messages[1..]);
      var s' := TakeTurn(s, t, codec);
      PromptTurn(s, messages[0], codec);
      PromptTurnsAreCalm(s', messages[1..], codec);
      CalmCons(s, t, rest, codec);
      assert PromptTurns(messages) == [t] + rest && messages == [messages[0]] + messages[1..];
    }
  }

  lemma CalmCons(s: Stream, t: Turn, rest: seq<Turn>, codec: Codec)
    requires t.signal == NoSignal && t.now <= s.deadline && t.poll.Message?
    requires Calm(TakeTurn(s, t, codec), rest, codec)
    ensures Calm(s, [t] + rest, codec)
    ensures Messages([t] + rest) == [t.poll.data] + Messages(rest)
  {
    assert ([t] + rest)[1..] == rest;
  }

  /** Read at once, all updates up to the one that ends the stream are shown, and the stream ends as that
      says. */
  lemma PromptUpdatesAreShown(us: seq<Update>, p: Prompt, number: int, codec: Codec)
    requires Faithful(codec) && p.sessionID != "" && EndOf(AllEffects(us, codec)).Some?
    ensures var s := TakeTurns(Opening(p.sessionID, number, 0), PromptTurns(Inbox(us, p, codec)), codec);
            var fx := AllEffects(us, codec);
            && s.reason == EndReason(EndOf(fx).value)
            && Displayed([PrintAll(s.frames, codec)], codec) == LastScreen("", false, fx)
  {
    var turns := PromptTurns(Inbox(us, p, codec));
    var s := TakeTurns(Opening(p.sessionID, number, 0), turns, codec);
    PromptTurnsAreCalm(Opening(p.sessionID, number, 0), Inbox(us, p, codec), codec);
    CalmRunEnds(us, p, number, 0, turns, codec);
    QuietIsPrefix(AllEffects(us, codec));
    OnePiece(PrintAll(s.frames, codec));
    DisplayedText(us, p, number, 0, turns, codec, [PrintAll(s.frames, codec)]);
  }

  lemma OnePiece(piece: string)
    ensures Concat([piece]) == piece
  {
    assert [piece][1..] == [] && piece + "" == piece;
  }

  // ---------------------------------------------------------------------------------------------
  // The other events, from what the bot sends to what the message shows
  // ---------------------------------------------------------------------------------------------

  /** What reaches the reducer for an update: the event decoded from its inbox entry. */
  function Arrived(update: Fields, codec: Codec): Option<(string, Json)> {
    var e := EventOf(Other(update), codec);
    if e.None? then None else Decode(codec.marshal(Obj(e.value)), codec)
  }

  /** A tool call of the hook is appended as running, with its name and input, and no id. */
  lemma ToolCallArrives(title: string, input: string, tcs: seq<ChatStore.ToolCall>, now: string, codec: Codec)
    requires Faithful(codec) && title != ""
    ensures var update := map["sessionUpdate" := Str("tool_call"), "title" := Str(title),
                              "status" := Str("running"), "content" := Str(input)];
            && Arrived(update, codec).Some?
            && var (kind, data) := Arrived(update, codec).value;
               ChatStore.CallsAfter(tcs, Event(kind, data), now)
               == tcs + [ChatStore.ToolCall(title + "-" + now, title, input, ChatStore.Running, None)]
  {
    var update := map["sessionUpdate" := Str("tool_call"), "title" := Str(title),
                      "status" := Str("running"), "content" := Str(input)];
    var e := map["type" := Str("tool_call"), "name" := Str(title), "input" := Str(input)];
    assert EventOf(Other(update), codec) == Some(e);
    DecodedEvent(e, codec);
  }

  lemma ToolResultEvent(title: string, status: string, content: string, codec: Codec)
    requires title != "" && status != ""
    ensures EventOf(Other(map["sessionUpdate" := Str("tool_result"), "title" := Str(title),
                              "status" := Str(status), "content" := Str(content)]), codec)
            == Some(map["type" := Str("tool_result"), "name" := Str(title),
                        "status" := Str(status), "content" := Str(content)])
  {
  }

  lemma ResultAnswers(data: Json, name: string, content: string, failed: bool, tcs: seq<ChatStore.ToolCall>, i: nat)
    requires ChatStore.Property(data, "id") == "" && ChatStore.Property(data, "name") == name
    requires ChatStore.Property(data, "content") == content && !ChatStore.Flag(data, "is_error")
    requires ChatStore.Property(data, "status") == if failed then "error" else "completed"
    requires i < |tcs| && tcs[i].name == name && tcs[i].status == ChatStore.Running
    requires forall j :: 0 <= j < i ==> tcs[j].name != name || tcs[j].status != ChatStore.Running
    ensures ChatStore.Resolved(tcs, data)
            == tcs[i := tcs[i].(result := Some(content),
                                status := if failed then ChatStore.Failed else ChatStore.Completed)]
  {
    ChatStore.ResolvedFirst(tcs, data, i);
    assert "error" != "completed" by {
      assert "error"[0] != "completed"[0];
    }
  }

  /** A tool result of the hook answers the first running call of its name, with its text, as failed
      exactly when the hook reported an error. */
  lemma ToolResultArrives(title: string, content: string, failed: bool, tcs: seq<ChatStore.ToolCall>, i: nat,
                          now: string, codec: Codec)
    requires Faithful(codec) && title != "" && i < |tcs|
    requires tcs[i].name == title && tcs[i].status == ChatStore.Running
    requires forall j :: 0 <= j < i ==> tcs[j].name != title || tcs[j].status != ChatStore.Running
    ensures var update := map["sessionUpdate" := Str("tool_result"), "title" := Str(title),
                              "status" := Str(if failed then "error" else "completed"), "content" := Str(content)];
            && Arrived(update, codec).Some?
            && var (kind, data) := Arrived(update, codec).value;
               ChatStore.CallsAfter(tcs, Event(kind, data), now)
               == tcs[i := tcs[i].(result := Some(content),
                                   status := if failed then ChatStore.Failed else ChatStore.Completed)]
  {
    var status := if failed then "error" else "completed";
    var e := map["type" := Str("tool_result"), "name" := Str(title),
                 "status" := Str(status), "content" := Str(content)];
    ToolResultEvent(title, status, content, codec);
    DecodedEvent(e, codec);
    ResultAnswers(Obj(e - {"type"}), title, content, failed, tcs, i);
  }

  /** A thought of the agent is added to the thinking, and to nothing else: it is no chunk, and not part of the
      text on screen. */
  lemma ThoughtArrives(text: string, tcs: seq<ChatStore.ToolCall>, shown: string, now: string, codec: Codec)
    requires Faithful(codec)
    ensures var update := TextUpdate("agent_thought_chunk", text);
            && EffectsOf(Other(update), codec) == [Adds("", false)]
            && Arrived(update, codec).Some?
            && var (kind, data) := Arrived(update, codec).value;
               && ChatStore.Thought(Event(kind, data)) == text
               && ChatStore.Shown(Event(kind, data), shown) == ""
               && ChatStore.CallsAfter(tcs, Event(kind, data), now) == tcs
  {
    var update := TextUpdate("agent_thought_chunk", text);
    var e := SimpleEvent("thinking", text);
    assert EventOf(Other(update), codec) == Some(e);
    DecodedEvent(e, codec);
  }

  /** A medium arrives as a link, whatever its caption, and the caption comes with it. */
  lemma MediaArrives(content: Fields, url: string, shown: string, codec: Codec)
    requires Faithful(codec) && url != ""
    requires Text(Object(Some(content), "media"), "downloadUrl") == Some(url)
    ensures var update := map["sessionUpdate" := Str("agent_media"), "content" := Obj(content)];
            && Arrived(update, codec).Some?
            && var (kind, data) := Arrived(update, codec).value;
               && ChatStore.Shown(Event(kind, data), shown) == "\n![media](" + url + ")\n"
               && ChatStore.Property(data, "caption") == Text(Some(content), "text").GetOr("")
  {
    var update := map["sessionUpdate" := Str("agent_media"), "content" := Obj(content)];
    assert Object(Some(update), "content") == Some(content);
    assert EventOf(Other(update), codec) == MediaEvent(Some(content));
    var e := MediaEvent(Some(content)).value;
    assert Text(Some(e), "type") == Some("media") && Object(Some(e), "data").Some?;
    DecodedEvent(e, codec);
  }

  /** An error response reaches the session it names, its data first, ends the stream, and shows its message
      after what was there. */
  lemma ErrorArrives(s: Stream, shown: string, chunky: bool, msg: Fields, later: int, codec: Codec)
    requires Faithful(codec) && Shows(s, shown, chunky)
    requires Text(Some(msg), "type") == None && Text(Some(msg), "method") == None
    requires "id" in msg && "result" !in msg && "error" in msg
    ensures var err := Object(Some(msg), "error");
            var named := Text(Object(err, "data"), "sessionId").GetOr("");
            var session := if named != "" then named else Text(Some(msg), "sessionId").GetOr("");
            var message := Text(err, "message").GetOr("Unknown error from bot");
            var event := SimpleEvent("error", message);
            && BotMessage(codec.marshal(Obj(msg)), codec) == (if session == "" then [] else [(session, event)])
            && var s' := TakeMessage(s, codec.marshal(Obj(event)), later, codec);
               s'.reason == ErrorEvent && OnScreen(s') == shown + ErrorText(message)
  {
    assert codec.parse(codec.marshal(Obj(msg))) == Some(Obj(msg));
    var event := ErrorReply(msg).1;
    DecodedEvent(event, codec);
    DeliverError(s.(deadline := later + SSE_TIMEOUT), shown, chunky, Obj(event - {"type"}));
  }

  // ---------------------------------------------------------------------------------------------
  // Through the queue
  // ---------------------------------------------------------------------------------------------

  function Datas(es: seq<StreamQueues.Entry>): (ds: seq<string>)
    ensures |ds| == |es| && forall i :: 0 <= i < |es| ==> ds[i] == es[i].data
  {
    if es == [] then [] else [es[0].data] + Datas(es[1..])
  }

  lemma DatasPrefix(a: seq<StreamQueues.Entry>, b: seq<StreamQueues.Entry>)
    requires a <= b
    ensures Datas(a) <= Datas(b)
  {
    assert forall i :: 0 <= i < |a| ==> Datas(a)[i] == Datas(b)[i];
  }

  /** The chat handler purges the inbox and makes sure of its group; then, in any interleaving, the entries
      of any updates are published, the loop consumes and acknowledges, and others may do what they like
      short of deleting.  While the backlog stays within the queue's limit, the browser's text is as above. */
  lemma DisplayedThroughQueue(s: StreamQueues.StreamKey, ops: seq<StreamQueues.Op>, maxLen: int,
                              us: seq<Update>, p: Prompt, number: int, start: int, turns: seq<Turn>, codec: Codec,
                              pieces: seq<string>)
    requires Faithful(codec) && p.sessionID != ""
    requires StreamQueues.ValidStream(s) && StreamQueues.AllKeeping(ops)
    requires StreamQueues.BacklogWithin(Ready(s, maxLen), ops, SSE_GROUP, maxLen)
    requires Datas(StreamQueues.Publications(Ready(s, maxLen), ops, maxLen)) <= Inbox(us, p, codec)
    requires Messages(turns) == Datas(StreamQueues.Deliveries(Ready(s, maxLen), ops, SSE_GROUP, maxLen))
    requires Concat(pieces) == PrintAll(TakeTurns(Opening(p.sessionID, number, start), turns, codec).frames, codec)
    ensures var stream := TakeTurns(Opening(p.sessionID, number, start), turns, codec);
            && Watched(stream, |Messages(turns)|, "", false, AllEffects(us, codec))
            && Displayed(pieces, codec) == OnScreen(stream)
  {
    StreamQueues.FreshInboxIsFifo(s, ops, SSE_GROUP, maxLen);
    DatasPrefix(StreamQueues.Deliveries(Ready(s, maxLen), ops, SSE_GROUP, maxLen),
                StreamQueues.Publications(Ready(s, maxLen), ops, maxLen));
    DisplayedText(us, p, number, start, turns, codec, pieces);
  }

  const SSE_GROUP: string := "sse"

  /** The inbox as the chat handler leaves it before it sends the prompt. */
  function Ready(s: StreamQueues.StreamKey, maxLen: int): StreamQueues.StreamKey {
    StreamQueues.Step(StreamQueues.Step(s, StreamQueues.PurgeOp, maxLen), StreamQueues.EnsureGroupOp(SSE_GROUP), maxLen)
  }
}
