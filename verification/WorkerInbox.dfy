/** The worker inbox: requests for a bot are queued at the worker that owns it, and that worker's
    consumers write them to the bot's connection. */
module WorkerInboxes {
  import opened Prelude
  import opened Rings
  import opened Bridges
  import opened StreamQueues

  const WORKER_INBOX_GROUP: string := "worker"
  const WORKER_INBOX_PREFIX: string := "bridge:worker_inbox:"

  datatype InboxMessage = InboxMessage(token: Token, request: Option<string>, disconnect: bool)

  /** A request written to a connection: which message it was, where it went, and what it said. */
  datatype Written = Written(id: nat, conn: Conn, token: Token, request: string)

  // ---------------------------------------------------------------------------------------------
  // One message
  // ---------------------------------------------------------------------------------------------

  function AfterMessage(l: Local, m: InboxMessage): Local {
    if m.token != "" && m.disconnect then EvictLocal(l, m.token) else l
  }

  function Writes(l: Local, id: nat, m: InboxMessage): seq<Written> {
    if m.token == "" || m.disconnect || m.token !in l.bots || m.request.None? then []
    else [Written(id, l.bots[m.token], m.token, m.request.value)]
  }

  /** A message that was read is acknowledged, whether or not it makes sense. */
  function Taken(s: StreamKey, consumer: string): StreamKey {
    var read := Read(s, WORKER_INBOX_GROUP, consumer);
    var next := Next(s, WORKER_INBOX_GROUP);
    if next.None? then read else Acked(read, WORKER_INBOX_GROUP, next.value.id)
  }

  /** What a consumer holds after a read. */
  function InHand(s: StreamKey, decode: string -> Option<InboxMessage>): Option<(nat, InboxMessage)> {
    var next := Next(s, WORKER_INBOX_GROUP);
    if next.None? || decode(next.value.data).None? then None
    else Some((next.value.id, decode(next.value.data).value))
  }

  // ---------------------------------------------------------------------------------------------
  // The code's consumers
  // ---------------------------------------------------------------------------------------------

  class WorkerInbox {
    const bridge: ConnectionBridge
    const queue: RedisStreamQueue
    const name: string
    const encode: InboxMessage -> string
    const decode: string -> Option<InboxMessage>
    var written: seq<Written>

    constructor (bridge: ConnectionBridge, queue: RedisStreamQueue, encode: InboxMessage -> string,
                 decode: string -> Option<InboxMessage>)
      ensures this.bridge == bridge && this.queue == queue && this.encode == encode && this.decode == decode
      ensures name == WORKER_INBOX_PREFIX + bridge.workerID && written == []
    {
      this.bridge, this.queue, this.encode, this.decode := bridge, queue, encode, decode;
      name, written := WORKER_INBOX_PREFIX + bridge.workerID, [];
    }

    function Stream(): StreamKey
      reads this, queue
    {
      StreamAt(queue.streams, name)
    }

    /** Queues a request at any worker, and at no other. */
    method PublishToWorkerInbox(workerID: WorkerId, token: Token, request: string, keep: nat)
      modifies queue
      ensures var inbox := WORKER_INBOX_PREFIX + workerID;
              && StreamAt(queue.streams, inbox)
                 == Append(StreamAt(old(queue.streams), inbox), encode(InboxMessage(token, Some(request), false)),
                           queue.maxLen, keep)
              && forall q :: q != inbox ==> Lookup(queue.streams, q) == Lookup(old(queue.streams), q)
    {
      var _ := queue.Publish(WORKER_INBOX_PREFIX + workerID, encode(InboxMessage(token, Some(request), false)), keep);
    }

    method PublishDisconnectToWorkerInbox(workerID: WorkerId, token: Token, keep: nat)
      modifies queue
      ensures var inbox := WORKER_INBOX_PREFIX + workerID;
              && StreamAt(queue.streams, inbox)
                 == Append(StreamAt(old(queue.streams), inbox), encode(InboxMessage(token, None, true)),
                           queue.maxLen, keep)
              && forall q :: q != inbox ==> Lookup(queue.streams, q) == Lookup(old(queue.streams), q)
    {
      var _ := queue.Publish(WORKER_INBOX_PREFIX + workerID, encode(InboxMessage(token, None, true)), keep);
    }

    /** The first half of a consumer's turn: reading and acknowledging a message. */
    method Take(consumer: string) returns (message: Option<(nat, InboxMessage)>)
      modifies queue
      ensures bridge.shuttingDown ==> message.None? && Stream() == old(Stream())
      ensures !bridge.shuttingDown ==>
                message == InHand(old(Stream()), decode) && Stream() == Taken(old(Stream()), consumer)
    {
      if bridge.shuttingDown {
        return None;
      }
      var result := queue.Consume(name, WORKER_INBOX_GROUP, consumer);
      if result.None? {
        return None;
      }
      var m := decode(result.value.data);
      queue.Ack(name, WORKER_INBOX_GROUP, result.value.id);
      return if m.None? then None else Some((result.value.id, m.value));
    }

    /** The second half: acting on it. */
    method Handle(id: nat, m: InboxMessage)
      requires bridge.Valid()
      modifies this, bridge, bridge.ring
      ensures bridge.Valid() && bridge.Value() == AfterMessage(old(bridge.Value()), m)
      ensures written == old(written) + Writes(old(bridge.Value()), id, m)
    {
      if m.token == "" {
        return;
      }
      if m.disconnect {
        bridge.EvictLocalBot(m.token);
        return;
      }
      if m.token !in bridge.bots {
        return;
      }
      if m.request.Some? {
        written := written + [Written(id, bridge.bots[m.token], m.token, m.request.value)];
      }
    }
  }

  // ---------------------------------------------------------------------------------------------
  // Runs of one worker's inbox
  // ---------------------------------------------------------------------------------------------

  /** `hands` are the messages that consumers have read and not acted on yet, `log` everything ever
      published. */
  datatype Office = Office(
    stream: StreamKey,
    local: Local,
    hands: map<string, (nat, InboxMessage)>,
    written: seq<Written>,
    log: set<Entry>)

  /** Anything else may happen to the worker at any time; other users of the stream publish to it. */
  datatype Move =
    | PublishMove(data: string, keep: nat)
    | EnsureGroupMove
    | TakeMove(consumer: string)
    | HandleMove(consumer: string)
    | WorkerMove(local: Local)

  datatype Setting = Setting(maxLen: int, decode: string -> Option<InboxMessage>)

  function MoveOn(o: Office, m: Move, st: Setting): Office {
    match m
    case PublishMove(data, keep) =>
      o.(stream := Append(o.stream, data, st.maxLen, keep), log := o.log + {Entry(o.stream.lastId + 1, data)})
    case EnsureGroupMove => o.(stream := WithGroup(o.stream, WORKER_INBOX_GROUP))
    case TakeMove(consumer) => TakeInto(o, consumer, st)
    case HandleMove(consumer) => HandleFrom(o, consumer)
    case WorkerMove(local) => o.(local := local)
  }

  /** A consumer handles one message at a time. */
  function TakeInto(o: Office, consumer: string, st: Setting): Office {
    if consumer in o.hands || o.local.shuttingDown then o
    else
      var held := InHand(o.stream, st.decode);
      o.(stream := Taken(o.stream, consumer),
         hands := if held.Some? then o.hands[consumer := held.value] else o.hands)
  }

  function HandleFrom(o: Office, consumer: string): Office {
    if consumer !in o.hands then o
    else
      var (id, m) := o.hands[consumer];
      o.(local := AfterMessage(o.local, m), hands := o.hands - {consumer},
         written := o.written + Writes(o.local, id, m))
  }

  function Moves(o: Office, ms: seq<Move>, st: Setting): Office
    decreases |ms|
  {
    if ms == [] then o else Moves(MoveOn(o, ms[0], st), ms[1..], st)
  }

  /** The message with this id says so. */
  predicate Says(log: set<Entry>, id: nat, m: InboxMessage, st: Setting) {
    exists e :: e in log && e.id == id && st.decode(e.data) == Some(m)
  }

  /** Ids in hands and in the written requests are all different, and were all read. */
  ghost predicate Orderly(o: Office, st: Setting) {
    && ValidStream(o.stream)
    && (forall e :: e in o.stream.entries ==> e in o.log)
    && (forall c :: c in o.hands ==>
          o.hands[c].0 <= Floor(o.stream, WORKER_INBOX_GROUP) && Says(o.log, o.hands[c].0, o.hands[c].1, st))
    && (forall c, d :: c in o.hands && d in o.hands && c != d ==> o.hands[c].0 != o.hands[d].0)
    && (forall i :: 0 <= i < |o.written| ==>
          var w := o.written[i];
          && w.id <= Floor(o.stream, WORKER_INBOX_GROUP)
          && Says(o.log, w.id, InboxMessage(w.token, Some(w.request), false), st)
          && (forall c :: c in o.hands ==> o.hands[c].0 != w.id))
    && (forall i, j :: 0 <= i < j < |o.written| ==> o.written[i].id != o.written[j].id)
  }

  lemma TakenStream(s: StreamKey, consumer: string)
    requires ValidStream(s)
    ensures ValidStream(Taken(s, consumer)) && Taken(s, consumer).entries == s.entries
    ensures Floor(Taken(s, consumer), WORKER_INBOX_GROUP) >= Floor(s, WORKER_INBOX_GROUP)
    ensures Next(s, WORKER_INBOX_GROUP).Some? ==>
              var e := Next(s, WORKER_INBOX_GROUP).value;
              && e in s.entries && e.id > Floor(s, WORKER_INBOX_GROUP)
              && Floor(Taken(s, consumer), WORKER_INBOX_GROUP) == e.id
  {
    NextIsUnread(s, WORKER_INBOX_GROUP);
  }

  lemma TakeKeeps(o: Office, consumer: string, st: Setting)
    requires Orderly(o, st)
    ensures Orderly(TakeInto(o, consumer, st), st)
  {
    TakenStream(o.stream, consumer);
  }

  lemma HandleKeeps(o: Office, consumer: string, st: Setting)
    requires Orderly(o, st)
    ensures Orderly(HandleFrom(o, consumer), st)
  {
  }

  lemma SaysStill(log: set<Entry>, e: Entry, id: nat, m: InboxMessage, st: Setting)
    requires Says(log, id, m, st)
    ensures Says(log + {e}, id, m, st)
  {
    var d :| d in log && d.id == id && st.decode(d.data) == Some(m);
    assert d in log + {e};
  }

  lemma PublishKeepsOrder(o: Office, data: string, keep: nat, st: Setting)
    requires Orderly(o, st)
    ensures Orderly(MoveOn(o, PublishMove(data, keep), st), st)
  {
    var e := Entry(o.stream.lastId + 1, data);
    AppendValid(o.stream, data, st.maxLen, keep);
    forall c | c in o.hands ensures Says(o.log + {e}, o.hands[c].0, o.hands[c].1, st) {
      SaysStill(o.log, e, o.hands[c].0, o.hands[c].1, st);
    }
    forall i | 0 <= i < |o.written|
      ensures var w := o.written[i]; Says(o.log + {e}, w.id, InboxMessage(w.token, Some(w.request), false), st)
    {
      var w := o.written[i];
      SaysStill(o.log, e, w.id, InboxMessage(w.token, Some(w.request), false), st);
    }
    FloorStays(o.stream, data, st.maxLen, keep);
  }

  lemma FloorStays(s: StreamKey, data: string, maxLen: int, keep: nat)
    ensures Floor(Append(s, data, maxLen, keep), WORKER_INBOX_GROUP) >= Floor(s, WORKER_INBOX_GROUP)
  {
  }

  lemma {:induction false} MovesKeep(o: Office, ms: seq<Move>, st: Setting)
    requires Orderly(o, st)
    ensures Orderly(Moves(o, ms, st), st)
    decreases |ms|
  {
    if ms != [] {
      match ms[0] {
        case PublishMove(data, keep) => PublishKeepsOrder(o, data, keep, st);
        case TakeMove(consumer) => TakeKeeps(o, consumer, st);
        case HandleMove(consumer) => HandleKeeps(o, consumer, st);
        case _ =>
      }
      MovesKeep(MoveOn(o, ms[0], st), ms[1..], st);
    }
  }

  /** The start: nothing in hands and nothing written yet, whatever the stream holds. */
  function Opened(stream: StreamKey, local: Local): Office {
    Office(stream, local, map[], [], set e | e in stream.entries)
  }

  /** Whatever the consumers and the worker do, and however their turns interleave, each message leads to
      at most one written request, and that is the request of a message with the same token. */
  lemma WrittenAtMostOnce(stream: StreamKey, local: Local, ms: seq<Move>, st: Setting)
    requires ValidStream(stream)
    ensures var o := Moves(Opened(stream, local), ms, st);
            && (forall i, j :: 0 <= i < j < |o.written| ==> o.written[i].id != o.written[j].id)
            && (forall w :: w in o.written ==>
                  Says(o.log, w.id, InboxMessage(w.token, Some(w.request), false), st))
  {
    MovesKeep(Opened(stream, local), ms, st);
  }

  /** A step writes at most one request, and only to the connection that is registered here under the
      request's token at that moment. */
  lemma WritesToOwnConnection(o: Office, m: Move, st: Setting)
    ensures var o' := MoveOn(o, m, st);
            || o'.written == o.written
            || (m.HandleMove? && exists w ::
                  && o'.written == o.written + [w]
                  && w.token in o.local.bots && w.conn == o.local.bots[w.token] && w.token != "")
  {
    if m.HandleMove? && m.consumer in o.hands {
      var (id, msg) := o.hands[m.consumer];
      var ws := Writes(o.local, id, msg);
      assert o.written + [] == o.written;
      if ws != [] {
        assert ws == [ws[0]];
      }
    }
  }

  // ---------------------------------------------------------------------------------------------
  // Every request gets through
  // ---------------------------------------------------------------------------------------------

  /** The message is a request for a bot that is connected to this worker. */
  predicate Deliverable(l: Local, m: InboxMessage) {
    m.token in l.bots && m.token != "" && m.request.Some? && !m.disconnect
  }

  /** Handling a deliverable message writes its request to the bot's connection and changes nothing else;
      handling another one writes nothing.  After a disconnect the bot is not connected here any more, and
      its connection is closed. */
  lemma HandlingWritesIff(o: Office, consumer: string)
    requires consumer in o.hands
    ensures var (id, m) := o.hands[consumer];
            var o' := HandleFrom(o, consumer);
            && o'.written == o.written + (if Deliverable(o.local, m)
                                          then [Written(id, o.local.bots[m.token], m.token, m.request.value)] else [])
            && (Deliverable(o.local, m) || !m.disconnect ==> o'.local == o.local)
            && (m.token != "" && m.disconnect ==>
                  && m.token !in o'.local.bots
                  && (m.token in o.local.bots ==> o.local.bots[m.token] in o'.local.closed))
            && consumer !in o'.hands
  {
    var (id, m) := o.hands[consumer];
    var o' := HandleFrom(o, consumer);
    if Deliverable(o.local, m) {
      assert o'.written == o.written + [Written(id, o.local.bots[m.token], m.token, m.request.value)];
    } else {
      assert o'.written == o.written + [];
    }
  }

  /** The request is written, exactly once. */
  ghost predicate WrittenOnce(written: seq<Written>, w: Written) {
    exists i :: 0 <= i < |written| && written[i] == w
                && forall j :: 0 <= j < |written| && j != i ==> written[j].id != w.id
  }

  lemma {:induction false} WrittenGrows(o: Office, ms: seq<Move>, st: Setting)
    ensures o.written <= Moves(o, ms, st).written
    decreases |ms|
  {
    if ms != [] {
      WrittenGrows(MoveOn(o, ms[0], st), ms[1..], st);
    }
  }

  /** A message stays in a consumer's hands until that consumer handles it. */
  lemma {:induction false} StaysInHand(o: Office, consumer: string, ms: seq<Move>, st: Setting)
    requires consumer in o.hands && HandleMove(consumer) !in ms
    ensures var o' := Moves(o, ms, st);
            consumer in o'.hands && o'.hands[consumer] == o.hands[consumer]
    decreases |ms|
  {
    if ms != [] {
      assert ms[0] != HandleMove(consumer);
      StaysInHand(MoveOn(o, ms[0], st), consumer, ms[1..], st);
    }
  }

  /** An idle consumer of a worker that is not shutting down takes the next unread message. */
  predicate Takes(o: Office, consumer: string, e: Entry, m: InboxMessage, st: Setting) {
    && consumer !in o.hands && !o.local.shuttingDown
    && Next(o.stream, WORKER_INBOX_GROUP) == Some(e) && st.decode(e.data) == Some(m)
  }

  /** Nothing else brings a message into a consumer's hands, and a worker that shuts down leaves its inbox
      alone. */
  lemma TakesIff(o: Office, consumer: string, st: Setting)
    requires consumer !in o.hands
    ensures consumer in TakeInto(o, consumer, st).hands <==> exists e, m :: Takes(o, consumer, e, m, st)
    ensures o.local.shuttingDown ==> TakeInto(o, consumer, st) == o
  {
    if consumer in TakeInto(o, consumer, st).hands {
      var e := Next(o.stream, WORKER_INBOX_GROUP).value;
      assert Takes(o, consumer, e, st.decode(e.data).value, st);
    }
  }

  /** Whatever else happens in between and afterwards: a message that is taken, and deliverable when its
      consumer comes to handle it, is written exactly once, to the connection its bot has at that moment. */
  lemma TakenIsWrittenOnce(stream: StreamKey, local: Local, before: seq<Move>, consumer: string, e: Entry,
                           m: InboxMessage, between: seq<Move>, after: seq<Move>, st: Setting)
    requires ValidStream(stream) && Takes(Moves(Opened(stream, local), before, st), consumer, e, m, st)
    requires HandleMove(consumer) !in between
    requires Deliverable(Moves(Opened(stream, local), before + ([TakeMove(consumer)] + between), st).local, m)
    ensures var l := Moves(Opened(stream, local), before + ([TakeMove(consumer)] + between), st).local;
            var ms := (before + ([TakeMove(consumer)] + between)) + ([HandleMove(consumer)] + after);
            WrittenOnce(Moves(Opened(stream, local), ms, st).written,
                        Written(e.id, l.bots[m.token], m.token, m.request.value))
  {
    var o0 := Moves(Opened(stream, local), before, st);
    var taking, handling := [TakeMove(consumer)] + between, [HandleMove(consumer)] + after;
    var o1 := Moves(o0, taking, st);
    MovesBoth(Opened(stream, local), before, taking, st);
    MovesBoth(Opened(stream, local), before + taking, handling, st);
    assert taking[1..] == between && handling[1..] == after;
    StaysInHand(MoveOn(o0, TakeMove(consumer), st), consumer, between, st);
    assert o1.hands[consumer] == (e.id, m);
    var o2, o3 := HandleFrom(o1, consumer), Moves(o1, handling, st);
    HandlingWritesIff(o1, consumer);
    WrittenGrows(o2, after, st);
    MovesKeep(Opened(stream, local), (before + taking) + handling, st);
    assert o3.written[|o1.written|] == o2.written[|o1.written|];
  }

  lemma {:induction false} MovesBoth(o: Office, a: seq<Move>, b: seq<Move>, st: Setting)
    ensures Moves(o, a + b, st) == Moves(Moves(o, a, st), b, st)
    decreases |a|
  {
    if a == [] {
      assert a + b == b;
    } else {
      assert (a + b)[1..] == a[1..] + b;
      MovesBoth(MoveOn(o, a[0], st), a[1..], b, st);
    }
  }

  // ---------------------------------------------------------------------------------------------
  // Nothing is left to acknowledge
  // ---------------------------------------------------------------------------------------------

  predicate NothingPending(s: StreamKey) {
    WORKER_INBOX_GROUP in s.groups ==> s.groups[WORKER_INBOX_GROUP].pending == map[]
  }

  /** Every message is acknowledged as soon as it is read, before it is handled: in no run a message stays
      pending. */
  lemma {:induction false} ReadIsAcknowledged(o: Office, ms: seq<Move>, st: Setting)
    requires NothingPending(o.stream)
    ensures NothingPending(Moves(o, ms, st).stream)
    decreases |ms|
  {
    if ms != [] {
      ReadIsAcknowledged(MoveOn(o, ms[0], st), ms[1..], st);
    }
  }
}
