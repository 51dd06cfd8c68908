/** The message queue on Redis Streams: entries in order of their ids, and consumer groups that remember
    how far they have read. */
module StreamQueues {
  import opened Prelude

  datatype Entry = Entry(id: nat, data: string)

  /** `pending` maps the ids delivered and not yet acknowledged to the consumer that has them. */
  datatype Group = Group(lastDelivered: nat, pending: map<nat, string>)

  datatype StreamKey = StreamKey(entries: seq<Entry>, lastId: nat, groups: map<string, Group>)

  /** A key that does not exist behaves like this one. */
  const FreshStream := StreamKey([], 0, map[])

  ghost predicate Above(es: seq<Entry>, id: nat) {
    forall e :: e in es ==> e.id > id
  }

  /** Ids grow. */
  ghost predicate Ordered(es: seq<Entry>) {
    forall i, j :: 0 <= i < j < |es| ==> es[i].id < es[j].id
  }

  ghost predicate ValidStream(s: StreamKey) {
    && Ordered(s.entries)
    && (forall e :: e in s.entries ==> e.id <= s.lastId)
    && (forall g :: g in s.groups ==> s.groups[g].lastDelivered <= s.lastId)
  }

  // ---------------------------------------------------------------------------------------------
  // What the commands do to one stream
  // ---------------------------------------------------------------------------------------------

  function Max(a: int, b: int): int {
    if a < b then b else a
  }

  function Newest(es: seq<Entry>, n: nat): seq<Entry> {
    if |es| <= n then es else es[|es| - n..]
  }

  /** Approximate trimming keeps some number of newest entries, at least `maxLen`; a limit that is not
      positive does not trim. */
  function Trimmed(es: seq<Entry>, maxLen: int, keep: nat): seq<Entry> {
    if maxLen <= 0 then es else Newest(es, Max(maxLen, keep))
  }

  function Append(s: StreamKey, data: string, maxLen: int, keep: nat): StreamKey {
    s.(entries := Trimmed(s.entries + [Entry(s.lastId + 1, data)], maxLen, keep), lastId := s.lastId + 1)
  }

  /** A new group starts at the end of the stream. */
  function WithGroup(s: StreamKey, g: string): StreamKey {
    if g in s.groups then s else s.(groups := s.groups[g := Group(s.lastId, map[])])
  }

  function After(es: seq<Entry>, id: nat): seq<Entry> {
    if es != [] && es[0].id <= id then After(es[1..], id) else es
  }

  /** What a group has not read yet; a group that does not exist would start at the end. */
  function Unread(s: StreamKey, g: string): seq<Entry> {
    if g in s.groups then After(s.entries, s.groups[g].lastDelivered) else []
  }

  function Next(s: StreamKey, g: string): Option<Entry> {
    if Unread(s, g) == [] then None else Some(Unread(s, g)[0])
  }

  /** A read by a consumer of a group; a missing group is created instead. */
  function Read(s: StreamKey, g: string, consumer: string): StreamKey {
    if g !in s.groups then WithGroup(s, g)
    else if Next(s, g).None? then s
    else
      var id := Next(s, g).value.id;
      s.(groups := s.groups[g := Group(id, s.groups[g].pending[id := consumer])])
  }

  function Acked(s: StreamKey, g: string, id: nat): StreamKey {
    if g !in s.groups then s
    else s.(groups := s.groups[g := s.groups[g].(pending := s.groups[g].pending - {id})])
  }

  function Without(es: seq<Entry>, id: nat): seq<Entry> {
    if es == [] then [] else (if es[0].id == id then [] else [es[0]]) + Without(es[1..], id)
  }

  // ---------------------------------------------------------------------------------------------
  // The code's queue
  // ---------------------------------------------------------------------------------------------

  function StreamAt(streams: map<string, StreamKey>, name: string): StreamKey {
    if name in streams then streams[name] else FreshStream
  }

  class RedisStreamQueue {
    const maxLen: int
    var streams: map<string, StreamKey>

    constructor (maxLen: int)
      ensures this.maxLen == maxLen && streams == map[]
    {
      this.maxLen := maxLen;
      streams := map[];
    }

    /** `keep` is how many entries the approximate trimming would keep. */
    method Publish(queueName: string, message: string, keep: nat) returns (id: nat)
      modifies this
      ensures id == StreamAt(old(streams), queueName).lastId + 1
      ensures streams == old(streams)[queueName := Append(StreamAt(old(streams), queueName), message, maxLen, keep)]
    {
      var s := StreamAt(streams, queueName);
      id := s.lastId + 1;
      var entries := s.entries + [Entry(id, message)];
      if maxLen > 0 {
        entries := Newest(entries, Max(maxLen, keep));
      }
      streams := streams[queueName := StreamKey(entries, id, s.groups)];
    }

    /** The next unread entry, if any, which is then in the hands of `consumer`. */
    method Consume(queueName: string, group: string, consumer: string) returns (message: Option<Entry>)
      modifies this
      ensures message == Next(StreamAt(old(streams), queueName), group)
      ensures StreamAt(streams, queueName) == Read(StreamAt(old(streams), queueName), group, consumer)
      ensures forall q :: q != queueName ==> Lookup(streams, q) == Lookup(old(streams), q)
    {
      if queueName !in streams || group !in streams[queueName].groups {
        EnsureGroup(queueName, group);
        return None;
      }
      var s := streams[queueName];
      var unread := After(s.entries, s.groups[group].lastDelivered);
      if unread == [] {
        return None;
      }
      var pending := s.groups[group].pending[unread[0].id := consumer];
      streams := streams[queueName := s.(groups := s.groups[group := Group(unread[0].id, pending)])];
      return Some(unread[0]);
    }

    method Ack(queueName: string, group: string, id: nat)
      modifies this
      ensures StreamAt(streams, queueName) == Acked(StreamAt(old(streams), queueName), group, id)
      ensures forall q :: q != queueName ==> Lookup(streams, q) == Lookup(old(streams), q)
    {
      if queueName in streams && group in streams[queueName].groups {
        var s := streams[queueName];
        var g := s.groups[group];
        streams := streams[queueName := s.(groups := s.groups[group := Group(g.lastDelivered, g.pending - {id})])];
      }
    }

    method DeleteMessage(queueName: string, id: nat)
      modifies this
      ensures var s := StreamAt(old(streams), queueName);
              StreamAt(streams, queueName) == s.(entries := Without(s.entries, id))
      ensures forall q :: q != queueName ==> Lookup(streams, q) == Lookup(old(streams), q)
    {
      if queueName in streams {
        var s := streams[queueName];
        streams := streams[queueName := s.(entries := Without(s.entries, id))];
      }
    }

    method DeleteQueue(queueName: string)
      modifies this
      ensures streams == old(streams) - {queueName}
    {
      streams := streams - {queueName};
    }

    /** Empties the stream; its ids and its groups go on. */
    method Purge(queueName: string)
      modifies this
      ensures StreamAt(streams, queueName) == StreamAt(old(streams), queueName).(entries := [])
      ensures forall q :: q != queueName ==> Lookup(streams, q) == Lookup(old(streams), q)
    {
      if queueName in streams {
        streams := streams[queueName := streams[queueName].(entries := [])];
      }
    }

    method EnsureGroup(queueName: string, group: string)
      modifies this
      ensures streams == old(streams)[queueName := WithGroup(StreamAt(old(streams), queueName), group)]
    {
      var s := StreamAt(streams, queueName);
      if group !in s.groups {
        s := s.(groups := s.groups[group := Group(s.lastId, map[])]);
      }
      streams := streams[queueName := s];
    }
  }

  // ---------------------------------------------------------------------------------------------
  // Runs of one stream
  // ---------------------------------------------------------------------------------------------

  datatype Op =
    | PublishOp(data: string, keep: nat)
    | ConsumeOp(group: string, consumer: string)
    | AckOp(group: string, id: nat)
    | EnsureGroupOp(group: string)
    | PurgeOp
    | DeleteMessageOp(id: nat)
    | DeleteQueueOp

  function Step(s: StreamKey, op: Op, maxLen: int): StreamKey {
    match op
    case PublishOp(data, keep) => Append(s, data, maxLen, keep)
    case ConsumeOp(group, consumer) => Read(s, group, consumer)
    case AckOp(group, id) => Acked(s, group, id)
    case EnsureGroupOp(group) => WithGroup(s, group)
    case PurgeOp => s.(entries := [])
    case DeleteMessageOp(id) => s.(entries := Without(s.entries, id))
    case DeleteQueueOp => FreshStream
  }

  function Run(s: StreamKey, ops: seq<Op>, maxLen: int): StreamKey
    decreases |ops|
  {
    if ops == [] then s else Run(Step(s, ops[0], maxLen), ops[1..], maxLen)
  }

  /** What a step hands to a consumer of group `g`. */
  function Handed(s: StreamKey, op: Op, g: string): seq<Entry> {
    if op.ConsumeOp? && op.group == g && Next(s, g).Some? then [Next(s, g).value] else []
  }

  function Added(s: StreamKey, op: Op): seq<Entry> {
    if op.PublishOp? then [Entry(s.lastId + 1, op.data)] else []
  }

  /** All entries handed to the consumers of a group, whichever they are, in order of time. */
  function Deliveries(s: StreamKey, ops: seq<Op>, g: string, maxLen: int): seq<Entry>
    decreases |ops|
  {
    if ops == [] then [] else Handed(s, ops[0], g) + Deliveries(Step(s, ops[0], maxLen), ops[1..], g, maxLen)
  }

  function Publications(s: StreamKey, ops: seq<Op>, maxLen: int): seq<Entry>
    decreases |ops|
  {
    if ops == [] then [] else Added(s, ops[0]) + Publications(Step(s, ops[0], maxLen), ops[1..], maxLen)
  }

  ghost predicate Undeleted(ops: seq<Op>) {
    forall op :: op in ops ==> !op.DeleteQueueOp?
  }

  // ---------------------------------------------------------------------------------------------
  // Facts about sequences of entries
  // ---------------------------------------------------------------------------------------------

  lemma OrderedCons(e: Entry, es: seq<Entry>)
    requires Ordered(es) && Above(es, e.id)
    ensures Ordered([e] + es)
  {
  }

  lemma OrderedRest(es: seq<Entry>)
    requires Ordered(es) && es != []
    ensures Ordered(es[1..]) && Above(es[1..], es[0].id)
  {
  }

  lemma OrderedAppend(es: seq<Entry>, e: Entry)
    requires Ordered(es) && forall d :: d in es ==> d.id < e.id
    ensures Ordered(es + [e])
  {
  }

  lemma NewestOrdered(es: seq<Entry>, n: nat)
    requires Ordered(es)
    ensures Ordered(Newest(es, n))
    ensures forall e :: e in Newest(es, n) ==> e in es
  {
  }

  lemma {:induction false} AfterIsAbove(es: seq<Entry>, id: nat)
    requires Ordered(es)
    ensures Above(After(es, id), id) && |After(es, id)| <= |es|
    ensures forall e :: e in After(es, id) ==> e in es
    decreases |es|
  {
    if es != [] && es[0].id <= id {
      AfterIsAbove(es[1..], id);
    }
  }

  lemma NoneRead(es: seq<Entry>, id: nat)
    requires Above(es, id)
    ensures After(es, id) == es
  {
    assert es != [] ==> es[0] in es;
  }

  lemma {:induction false} AfterAppend(es: seq<Entry>, e: Entry, id: nat)
    requires e.id > id
    ensures After(es + [e], id) == After(es, id) + [e]
    decreases |es|
  {
    if es != [] && es[0].id <= id {
      assert (es + [e])[1..] == es[1..] + [e];
      AfterAppend(es[1..], e, id);
    } else if es == [] {
      assert es + [e] == [e];
    }
  }

  lemma UnreadNewest(es: seq<Entry>, n: nat, id: nat)
    requires Ordered(es) && es != [] && es[0].id > id
    ensures After(Newest(es, n), id) == Newest(es, n) && After(es, id) == es
  {
    OrderedRest(es);
    NewestOrdered(es, n);
    NoneRead(Newest(es, n), id);
  }

  /** Dropping from the front first drops what has been read. */
  lemma {:induction false} AfterNewest(es: seq<Entry>, n: nat, id: nat)
    requires Ordered(es)
    ensures After(Newest(es, n), id) == Newest(After(es, id), n)
    decreases |es|
  {
    if |es| <= n {
      AfterIsAbove(es, id);
    } else if es[0].id <= id {
      OrderedRest(es);
      assert Newest(es, n) == Newest(es[1..], n);
      AfterNewest(es[1..], n, id);
    } else {
      UnreadNewest(es, n, id);
    }
  }

  lemma {:induction false} WithoutKeeps(es: seq<Entry>, id: nat)
    requires Ordered(es)
    ensures Ordered(Without(es, id))
    ensures forall e :: e in Without(es, id) ==> e in es
    decreases |es|
  {
    if es != [] {
      OrderedRest(es);
      WithoutKeeps(es[1..], id);
      var rest := Without(es[1..], id);
      if es[0].id == id {
        assert Without(es, id) == rest;
      } else {
        OrderedCons(es[0], rest);
      }
    }
  }

  lemma TrimmedOrdered(es: seq<Entry>, maxLen: int, keep: nat)
    requires Ordered(es)
    ensures Ordered(Trimmed(es, maxLen, keep))
  {
  }

  lemma TrimmedSources(es: seq<Entry>, maxLen: int, keep: nat)
    ensures forall e :: e in Trimmed(es, maxLen, keep) ==> e in es
  {
  }

  lemma AppendValid(s: StreamKey, data: string, maxLen: int, keep: nat)
    requires ValidStream(s)
    ensures ValidStream(Append(s, data, maxLen, keep))
    ensures Ordered(s.entries + [Entry(s.lastId + 1, data)])
    ensures forall e :: e in Append(s, data, maxLen, keep).entries ==> e in s.entries || e == Entry(s.lastId + 1, data)
  {
    OrderedAppend(s.entries, Entry(s.lastId + 1, data));
    AppendSources(s, data, maxLen, keep);
    AppendOrdered(s, data, maxLen, keep);
  }

  lemma AppendOrdered(s: StreamKey, data: string, maxLen: int, keep: nat)
    requires Ordered(s.entries + [Entry(s.lastId + 1, data)])
    ensures Ordered(Append(s, data, maxLen, keep).entries)
  {
    TrimmedOrdered(s.entries + [Entry(s.lastId + 1, data)], maxLen, keep);
  }

  lemma AppendSources(s: StreamKey, data: string, maxLen: int, keep: nat)
    ensures forall e :: e in Append(s, data, maxLen, keep).entries ==> e in s.entries || e == Entry(s.lastId + 1, data)
  {
    TrimmedSources(s.entries + [Entry(s.lastId + 1, data)], maxLen, keep);
  }

  lemma StepValid(s: StreamKey, op: Op, maxLen: int)
    requires ValidStream(s)
    ensures ValidStream(Step(s, op, maxLen))
  {
    match op {
      case PublishOp(data, keep) => AppendValid(s, data, maxLen, keep);
      case ConsumeOp(group, consumer) => NextIsUnread(s, group);
      case DeleteMessageOp(id) => WithoutKeeps(s.entries, id);
      case _ =>
    }
  }

  lemma NextIsUnread(s: StreamKey, g: string)
    requires ValidStream(s)
    ensures Next(s, g).Some? ==>
              var e := Next(s, g).value;
              g in s.groups && e in s.entries && s.groups[g].lastDelivered < e.id <= s.lastId
  {
    if g in s.groups {
      AfterIsAbove(s.entries, s.groups[g].lastDelivered);
      assert Next(s, g).Some? ==> Next(s, g).value in Unread(s, g);
    }
  }

  // ---------------------------------------------------------------------------------------------
  // At most once, in order
  // ---------------------------------------------------------------------------------------------

  /** Up to here the group has read, or will never read. */
  function Floor(s: StreamKey, g: string): nat {
    if g in s.groups then s.groups[g].lastDelivered else s.lastId
  }

  lemma FloorRises(s: StreamKey, op: Op, g: string, maxLen: int)
    requires ValidStream(s) && !op.DeleteQueueOp?
    ensures Floor(Step(s, op, maxLen), g) >= Floor(s, g)
    ensures Handed(s, op, g) != [] ==>
              var e := Next(s, g).value;
              e.id > Floor(s, g) && Floor(Step(s, op, maxLen), g) == e.id && e in s.entries
  {
    match op {
      case ConsumeOp(group, consumer) =>
        NextIsUnread(s, group);
      case _ =>
    }
  }

  lemma EntriesFrom(s: StreamKey, op: Op, maxLen: int)
    requires ValidStream(s) && !op.DeleteQueueOp?
    ensures forall e :: e in Step(s, op, maxLen).entries ==> e in s.entries || e in Added(s, op)
  {
    match op {
      case PublishOp(data, keep) => AppendValid(s, data, maxLen, keep);
      case DeleteMessageOp(id) => WithoutKeeps(s.entries, id);
      case _ =>
    }
  }

  /** On a stream that is not deleted, the consumers of a group are handed entries in order of their ids
      and none twice, all beyond what the group had read, and every one was there or has been published
      since. */
  lemma {:induction false} DeliveredOnceInOrder(s: StreamKey, ops: seq<Op>, g: string, maxLen: int)
    requires ValidStream(s) && Undeleted(ops)
    ensures var ds := Deliveries(s, ops, g, maxLen);
            && Ordered(ds) && Above(ds, Floor(s, g))
            && forall e :: e in ds ==> e in s.entries || e in Publications(s, ops, maxLen)
    decreases |ops|
  {
    if ops != [] {
      var op, s' := ops[0], Step(s, ops[0], maxLen);
      assert op in ops && forall o :: o in ops[1..] ==> o in ops;
      StepValid(s, op, maxLen);
      FloorRises(s, op, g, maxLen);
      EntriesFrom(s, op, maxLen);
      DeliveredOnceInOrder(s', ops[1..], g, maxLen);
      var rest := Deliveries(s', ops[1..], g, maxLen);
      HandedFirst(Handed(s, op, g), rest, Floor(s, g), Floor(s', g));
    }
  }

  lemma HandedFirst(handed: seq<Entry>, rest: seq<Entry>, floor: nat, floor': nat)
    requires Ordered(rest) && Above(rest, floor') && floor' >= floor
    requires handed == [] || (|handed| == 1 && floor < handed[0].id == floor')
    ensures Ordered(handed + rest) && Above(handed + rest, floor)
  {
    if handed == [] {
      assert handed + rest == rest;
    } else {
      OrderedCons(handed[0], rest);
      assert handed + rest == [handed[0]] + rest;
    }
  }

  /** No entry is handed out twice: the deliveries of a group, whoever gets them, have different ids. */
  lemma NeverTwice(s: StreamKey, ops: seq<Op>, g: string, maxLen: int, i: nat, j: nat)
    requires ValidStream(s) && Undeleted(ops) && i < j < |Deliveries(s, ops, g, maxLen)|
    ensures Deliveries(s, ops, g, maxLen)[i].id < Deliveries(s, ops, g, maxLen)[j].id
  {
    DeliveredOnceInOrder(s, ops, g, maxLen);
  }

  lemma {:induction false} PublishedLater(s: StreamKey, ops: seq<Op>, maxLen: int)
    requires Undeleted(ops)
    ensures forall e :: e in Publications(s, ops, maxLen) ==> e.id > s.lastId
    decreases |ops|
  {
    if ops != [] {
      assert ops[0] in ops && forall o :: o in ops[1..] ==> o in ops;
      PublishedLater(Step(s, ops[0], maxLen), ops[1..], maxLen);
    }
  }

  /** Nothing published before a purge is delivered after it. */
  lemma PurgedIsGone(s: StreamKey, ops: seq<Op>, g: string, maxLen: int)
    requires ValidStream(s) && Undeleted(ops)
    ensures forall e :: e in Deliveries(Step(s, PurgeOp, maxLen), ops, g, maxLen) ==> e.id > s.lastId
  {
    var purged := Step(s, PurgeOp, maxLen);
    DeliveredOnceInOrder(purged, ops, g, maxLen);
    PublishedLater(purged, ops, maxLen);
  }

  // ---------------------------------------------------------------------------------------------
  // No loss
  // ---------------------------------------------------------------------------------------------

  /** Operations that take no entry away. */
  predicate Keeping(op: Op) {
    !op.PurgeOp? && !op.DeleteMessageOp? && !op.DeleteQueueOp?
  }

  ghost predicate AllKeeping(ops: seq<Op>) {
    forall op :: op in ops ==> Keeping(op)
  }

  /** The guard of the trimming: the unread entries and the new one are within what is kept. */
  predicate HasRoom(s: StreamKey, op: Op, g: string, maxLen: int) {
    op.PublishOp? ==> maxLen <= 0 || |Unread(s, g)| + 1 <= Max(maxLen, op.keep)
  }

  predicate AlwaysRoom(s: StreamKey, ops: seq<Op>, g: string, maxLen: int)
    decreases |ops|
  {
    ops != [] ==> HasRoom(s, ops[0], g, maxLen) && AlwaysRoom(Step(s, ops[0], maxLen), ops[1..], g, maxLen)
  }

  /** One step moves entries from published to unread to handed out, and loses one exactly when there is
      no room. */
  lemma StepKeeps(s: StreamKey, op: Op, g: string, maxLen: int)
    requires ValidStream(s) && g in s.groups && Keeping(op)
    ensures var s' := Step(s, op, maxLen);
            && g in s'.groups
            && (if HasRoom(s, op, g, maxLen)
                then Unread(s, g) + Added(s, op) == Handed(s, op, g) + Unread(s', g)
                else |Unread(s, g)| + |Added(s, op)| > |Handed(s, op, g)| + |Unread(s', g)|)
  {
    if op.PublishOp? {
      PublishKeeps(s, op.data, g, maxLen, op.keep);
      assert [] + Unread(Step(s, op, maxLen), g) == Unread(Step(s, op, maxLen), g);
    } else if op.ConsumeOp? && op.group == g && Next(s, g).Some? {
      ReadKeeps(s, g, op.consumer);
      assert Unread(s, g) + [] == Unread(s, g);
    } else {
      OtherKeeps(s, op, g, maxLen);
      assert Unread(s, g) + [] == Unread(s, g) == [] + Unread(s, g);
    }
  }

  lemma ReadKeeps(s: StreamKey, g: string, consumer: string)
    requires ValidStream(s) && g in s.groups && Next(s, g).Some?
    ensures g in Read(s, g, consumer).groups
    ensures Unread(s, g) == [Next(s, g).value] + Unread(Read(s, g, consumer), g)
  {
    ReadMoves(s.entries, s.groups[g].lastDelivered);
    assert Unread(s, g) == [Unread(s, g)[0]] + Unread(s, g)[1..];
  }

  lemma OtherKeeps(s: StreamKey, op: Op, g: string, maxLen: int)
    requires g in s.groups && Keeping(op) && !op.PublishOp?
    requires op.ConsumeOp? && op.group == g ==> Next(s, g).None?
    ensures g in Step(s, op, maxLen).groups && Unread(Step(s, op, maxLen), g) == Unread(s, g)
  {
  }

  lemma PublishKeeps(s: StreamKey, data: string, g: string, maxLen: int, keep: nat)
    requires ValidStream(s) && g in s.groups
    ensures var e, after := Entry(s.lastId + 1, data), Unread(Append(s, data, maxLen, keep), g);
            if maxLen <= 0 || |Unread(s, g)| + 1 <= Max(maxLen, keep) then after == Unread(s, g) + [e]
            else |after| < |Unread(s, g)| + 1
  {
    var e := Entry(s.lastId + 1, data);
    AppendValid(s, data, maxLen, keep);
    AfterAppend(s.entries, e, s.groups[g].lastDelivered);
    if maxLen > 0 {
      AfterNewest(s.entries + [e], Max(maxLen, keep), s.groups[g].lastDelivered);
    }
  }

  lemma {:induction false} ReadMoves(es: seq<Entry>, id: nat)
    requires Ordered(es) && After(es, id) != []
    ensures After(es, After(es, id)[0].id) == After(es, id)[1..]
    decreases |es|
  {
    if es[0].id <= id {
      var unread := After(es[1..], id);
      AfterIsAbove(es[1..], id);
      assert unread[0] in unread && es[0].id <= id < unread[0].id;
      ReadMoves(es[1..], id);
    } else {
      NoneRead(es[1..], es[0].id);
    }
  }

  /** Moving entries on in two stretches, one after the other. */
  lemma MovedOn(start: seq<Entry>, added: seq<Entry>, handed: seq<Entry>, unread: seq<Entry>,
                ps: seq<Entry>, ds: seq<Entry>, end: seq<Entry>)
    requires start + added == handed + unread && unread + ps == ds + end
    ensures start + (added + ps) == (handed + ds) + end
  {
    assert start + (added + ps) == (start + added) + ps;
    assert (handed + unread) + ps == handed + (unread + ps);
    assert handed + (ds + end) == (handed + ds) + end;
  }

  lemma {:induction false} RunKeeps(s: StreamKey, ops: seq<Op>, g: string, maxLen: int)
    requires ValidStream(s) && g in s.groups && AllKeeping(ops)
    ensures var s' := Run(s, ops, maxLen);
            var start, ps, ds, end :=
              Unread(s, g), Publications(s, ops, maxLen), Deliveries(s, ops, g, maxLen), Unread(s', g);
            if AlwaysRoom(s, ops, g, maxLen) then start + ps == ds + end else |start| + |ps| > |ds| + |end|
    ensures |Unread(s, g)| + |Publications(s, ops, maxLen)|
            >= |Deliveries(s, ops, g, maxLen)| + |Unread(Run(s, ops, maxLen), g)|
    decreases |ops|
  {
    if ops == [] {
      assert Unread(s, g) + [] == [] + Unread(s, g);
    } else {
      var op, s' := ops[0], Step(s, ops[0], maxLen);
      assert op in ops && forall o :: o in ops[1..] ==> o in ops;
      StepValid(s, op, maxLen);
      StepKeeps(s, op, g, maxLen);
      RunKeeps(s', ops[1..], g, maxLen);
      var ps, ds := Publications(s', ops[1..], maxLen), Deliveries(s', ops[1..], g, maxLen);
      var end := Unread(Run(s', ops[1..], maxLen), g);
      if AlwaysRoom(s, ops, g, maxLen) {
        MovedOn(Unread(s, g), Added(s, op), Handed(s, op, g), Unread(s', g), ps, ds, end);
      }
    }
  }

  /** What was unread and what is published is what is delivered and what is left unread, in order,
      exactly when no publication finds more unread entries than the trimming keeps. */
  lemma NothingLost(s: StreamKey, ops: seq<Op>, g: string, maxLen: int)
    requires ValidStream(s) && g in s.groups && AllKeeping(ops)
    ensures Unread(s, g) + Publications(s, ops, maxLen)
            == Deliveries(s, ops, g, maxLen) + Unread(Run(s, ops, maxLen), g)
            <==> AlwaysRoom(s, ops, g, maxLen)
  {
    RunKeeps(s, ops, g, maxLen);
  }

  /** The backlog stays within the limit, if there is one, whatever the trimming really keeps. */
  predicate BacklogWithin(s: StreamKey, ops: seq<Op>, g: string, maxLen: int)
    decreases |ops|
  {
    ops != [] ==>
      && (ops[0].PublishOp? ==> maxLen <= 0 || |Unread(s, g)| < maxLen)
      && BacklogWithin(Step(s, ops[0], maxLen), ops[1..], g, maxLen)
  }

  lemma {:induction false} WithinHasRoom(s: StreamKey, ops: seq<Op>, g: string, maxLen: int)
    requires BacklogWithin(s, ops, g, maxLen)
    ensures AlwaysRoom(s, ops, g, maxLen)
    decreases |ops|
  {
    if ops != [] {
      WithinHasRoom(Step(s, ops[0], maxLen), ops[1..], g, maxLen);
    }
  }

  /** A chat request purges its inbox and makes sure of the group.  From then on, while the backlog stays
      within the limit, what has been delivered is a first part of what has been published. */
  lemma FreshInboxIsFifo(s: StreamKey, ops: seq<Op>, g: string, maxLen: int)
    requires ValidStream(s) && AllKeeping(ops)
    requires BacklogWithin(Step(Step(s, PurgeOp, maxLen), EnsureGroupOp(g), maxLen), ops, g, maxLen)
    ensures var ready := Step(Step(s, PurgeOp, maxLen), EnsureGroupOp(g), maxLen);
            Deliveries(ready, ops, g, maxLen) <= Publications(ready, ops, maxLen)
  {
    var ready := Step(Step(s, PurgeOp, maxLen), EnsureGroupOp(g), maxLen);
    assert ready.entries == [];
    WithinHasRoom(ready, ops, g, maxLen);
    NothingLost(ready, ops, g, maxLen);
    assert [] + Publications(ready, ops, maxLen) == Publications(ready, ops, maxLen);
  }

  /** Deleting the stream deletes its group, and a reader that finds no group starts at the end: an entry
      published in between is never delivered. */
  lemma DeletionLoses(s: StreamKey, data: string, g: string, consumer: string, ops: seq<Op>, maxLen: int, keep: nat)
    requires Undeleted(ops)
    ensures var published := Step(Step(s, DeleteQueueOp, maxLen), PublishOp(data, keep), maxLen);
            var read := Step(published, ConsumeOp(g, consumer), maxLen);
            && Handed(published, ConsumeOp(g, consumer), g) == []
            && Entry(published.lastId, data) !in Deliveries(read, ops, g, maxLen)
  {
    var published := Append(FreshStream, data, maxLen, keep);
    AppendValid(FreshStream, data, maxLen, keep);
    DeliveredOnceInOrder(WithGroup(published, g), ops, g, maxLen);
  }

  // ---------------------------------------------------------------------------------------------
  // Deletion and acknowledgement
  // ---------------------------------------------------------------------------------------------

  lemma {:induction false} WithoutIs(es: seq<Entry>, id: nat)
    ensures forall e :: e in Without(es, id) <==> e in es && e.id != id
    decreases |es|
  {
    if es != [] {
      WithoutIs(es[1..], id);
      assert es == [es[0]] + es[1..];
    }
  }

  /** An entry that is deleted before a group has read it is never delivered to that group, and deleting it
      touches no other entry. */
  lemma DeletedIsGone(s: StreamKey, id: nat, ops: seq<Op>, g: string, maxLen: int)
    requires ValidStream(s) && id <= s.lastId && Undeleted(ops)
    ensures var s' := Step(s, DeleteMessageOp(id), maxLen);
            && (forall e :: e in s'.entries <==> e in s.entries && e.id != id)
            && forall e :: e in Deliveries(s', ops, g, maxLen) ==> e.id != id
  {
    var s' := Step(s, DeleteMessageOp(id), maxLen);
    WithoutIs(s.entries, id);
    StepValid(s, DeleteMessageOp(id), maxLen);
    DeliveredOnceInOrder(s', ops, g, maxLen);
    PublishedLater(s', ops, maxLen);
  }

  function PendingOf(s: StreamKey, g: string): map<nat, string> {
    if g in s.groups then s.groups[g].pending else map[]
  }

  /** Who has the entry with this id: the consumer it was handed to last, until it is acknowledged for the
      group or the stream is deleted. */
  function Holder(s: StreamKey, ops: seq<Op>, g: string, id: nat, maxLen: int, before: Option<string>): Option<string>
    decreases |ops|
  {
    if ops == [] then before
    else Holder(Step(s, ops[0], maxLen), ops[1..], g, id, maxLen, HolderAfter(s, ops[0], g, id, before))
  }

  function HolderAfter(s: StreamKey, op: Op, g: string, id: nat, before: Option<string>): Option<string> {
    if Handed(s, op, g) != [] && Handed(s, op, g)[0].id == id then Some(op.consumer)
    else if op == AckOp(g, id) || op.DeleteQueueOp? then None
    else before
  }

  lemma PendingStep(s: StreamKey, op: Op, g: string, id: nat, maxLen: int)
    ensures Lookup(PendingOf(Step(s, op, maxLen), g), id) == HolderAfter(s, op, g, id, Lookup(PendingOf(s, g), id))
  {
  }

  /** In every run, an entry is pending with a consumer exactly from its delivery to that consumer until its
      acknowledgement. */
  lemma {:induction false} PendingUntilAcknowledged(s: StreamKey, ops: seq<Op>, g: string, id: nat, maxLen: int)
    ensures Lookup(PendingOf(Run(s, ops, maxLen), g), id)
            == Holder(s, ops, g, id, maxLen, Lookup(PendingOf(s, g), id))
    decreases |ops|
  {
    if ops != [] {
      PendingStep(s, ops[0], g, id, maxLen);
      PendingUntilAcknowledged(Step(s, ops[0], maxLen), ops[1..], g, id, maxLen);
    }
  }
}
