/** The plugin's connection monitor, which replaces an account's client, and any number of clients with
    one token against a server that evicts the older connection. */
module Monitors {
  import opened Prelude
  import opened Reconnect
  import Rings
  import Bridges

  type Account = string

  // ---------------------------------------------------------------------------------------------
  // The code's monitor
  // ---------------------------------------------------------------------------------------------

  class ProviderMonitor {
    var activeBridgeClients: map<Account, BridgeClient>

    /** Every client ever made, with its account. */
    ghost var made: map<BridgeClient, Account>

    /** A client that is not stopped is the active one of its account. */
    ghost predicate Valid()
      reads this, made.Keys
    {
      && (forall a :: a in activeBridgeClients ==>
            activeBridgeClients[a] in made && made[activeBridgeClients[a]] == a)
      && (forall c :: c in made && !c.closing ==>
            made[c] in activeBridgeClients && activeBridgeClients[made[c]] == c)
    }

    constructor ()
      ensures Valid() && activeBridgeClients == map[] && made == map[]
    {
      activeBridgeClients, made := map[], map[];
    }

    /** The previous client of the account loses its close callback and is stopped, the new one becomes
        the active one and is started; nothing else changes. */
    method MonitorBridgeProvider(account: Account, retry: Retry, aborted: bool) returns (client: BridgeClient)
      requires Valid()
      modifies this, if account in activeBridgeClients then {activeBridgeClients[account]} else {}
      ensures Valid() && fresh(client) && made == old(made)[client := account]
      ensures account in old(activeBridgeClients) ==>
                old(activeBridgeClients)[account].Value()
                == Stop(old(activeBridgeClients[account].Value()).(onClose := false))
      ensures aborted ==> activeBridgeClients == old(activeBridgeClients) - {account}
                          && client.Value() == Stop(Start(NewClient(retry), CLOSED))
      ensures !aborted ==> activeBridgeClients == old(activeBridgeClients)[account := client]
                           && client.Value() == Start(NewClient(retry), CLOSED)
    {
      client := ReplaceClient(account, retry);
      if aborted {
        OnAbort(account, client);
      }
    }

    method ReplaceClient(account: Account, retry: Retry) returns (client: BridgeClient)
      requires Valid()
      modifies this, if account in activeBridgeClients then {activeBridgeClients[account]} else {}
      ensures Valid() && fresh(client) && made == old(made)[client := account]
      ensures account in old(activeBridgeClients) ==>
                old(activeBridgeClients)[account].Value()
                == Stop(old(activeBridgeClients[account].Value()).(onClose := false))
      ensures activeBridgeClients == old(activeBridgeClients)[account := client]
      ensures client.Value() == Start(NewClient(retry), CLOSED)
    {
      if account in activeBridgeClients {
        StopOrphan(account);
      }
      client := new BridgeClient(retry);
      Install(account, client);
      client.StartClient(CLOSED);
    }

    method Install(account: Account, client: BridgeClient)
      requires Valid() && client !in made
      requires account in activeBridgeClients ==> activeBridgeClients[account].closing
      modifies this
      ensures Valid() && made == old(made)[client := account]
      ensures activeBridgeClients == old(activeBridgeClients)[account := client]
    {
      activeBridgeClients := activeBridgeClients[account := client];
      made := made[client := account];
    }

    method StopOrphan(account: Account)
      requires Valid() && account in activeBridgeClients
      modifies activeBridgeClients[account]
      ensures Valid() && activeBridgeClients[account].closing
      ensures activeBridgeClients[account].Value()
              == Stop(old(activeBridgeClients[account].Value()).(onClose := false))
    {
      var prev := activeBridgeClients[account];
      prev.onClose := false;
      prev.StopClient();
    }

    method OnAbort(account: Account, client: BridgeClient)
      requires Valid() && client in made && made[client] == account
      modifies this`activeBridgeClients, client
      ensures Valid() && client.Value() == Stop(old(client.Value()))
      ensures activeBridgeClients
              == if account in old(activeBridgeClients) && old(activeBridgeClients)[account] == client
                 then old(activeBridgeClients) - {account} else old(activeBridgeClients)
    {
      client.StopClient();
      if account in activeBridgeClients && activeBridgeClients[account] == client {
        activeBridgeClients := activeBridgeClients - {account};
      }
    }
  }

  // ---------------------------------------------------------------------------------------------
  // Clients and server together
  // ---------------------------------------------------------------------------------------------

  datatype Member = Member(account: Account, retry: Retry, client: Client)

  /** One connection: a client, by its number, and a socket of that client. */
  type Conn = (nat, Socket)

  /** All clients share one token.  `holder` is the connection the server holds for it, `evicted` are
      the connections to which it has sent a 4005. */
  datatype World = World(members: seq<Member>, active: map<Account, nat>, holder: Option<Conn>, evicted: set<Conn>)

  const EmptyWorld := World([], map[], None, {})

  datatype Action =
    | Provide(account: Account, retry: Retry, aborted: bool)
    | Abort(i: nat)
    | Happens(i: nat, e: Event)
    | Registers(i: nat, s: Socket)

  function StopMember(m: Member, silent: bool): Member {
    m.(client := Stop(if silent then m.client.(onClose := false) else m.client))
  }

  function AbortMember(w: World, i: nat): World
    requires i < |w.members|
  {
    var a := w.members[i].account;
    w.(members := w.members[i := StopMember(w.members[i], false)],
       active := if a in w.active && w.active[a] == i then w.active - {a} else w.active)
  }

  function ProvideMember(w: World, account: Account, retry: Retry): World
    requires account in w.active ==> w.active[account] < |w.members|
  {
    var rest := if account in w.active
                then w.members[w.active[account] := StopMember(w.members[w.active[account]], true)]
                else w.members;
    w.(members := rest + [Member(account, retry, Start(NewClient(retry), CLOSED))],
       active := w.active[account := |w.members|])
  }

  /** What may happen next: clients are started by the monitor only, a 4005 arrives on a connection
      only after the server has sent it, and the server registers sockets that were opened. */
  predicate Enabled(w: World, a: Action) {
    match a
    case Provide(_, _, _) => true
    case Abort(i) => i < |w.members|
    case Happens(i, e) =>
      && i < |w.members| && !e.StartCall?
      && (e.SocketClosed? && e.code == Bridges.EVICTED ==> (i, e.s) in w.evicted)
    case Registers(i, s) => i < |w.members| && s < w.members[i].client.created
  }

  function Next(w: World, a: Action): World
    requires Sound(w) && Enabled(w, a)
  {
    match a
    case Provide(account, retry, aborted) =>
      var w' := ProvideMember(w, account, retry);
      if aborted then AbortMember(w', |w.members|) else w'
    case Abort(i) => AbortMember(w, i)
    case Happens(i, e) =>
      var m := w.members[i];
      w.(members := w.members[i := m.(client := Step(m.client, e, m.retry))])
    case Registers(i, s) =>
      w.(holder := Some((i, s)),
         evicted := if w.holder.Some? && w.holder.value != (i, s) then w.evicted + {w.holder.value}
                    else w.evicted)
  }

  /** Every client is in order, and an unstopped one is the active one of its account. */
  predicate Sound(w: World) {
    && (forall i :: 0 <= i < |w.members| ==> Invariant(w.members[i].client, w.members[i].retry))
    && (forall a :: a in w.active ==> w.active[a] < |w.members| && w.members[w.active[a]].account == a)
    && (forall i :: 0 <= i < |w.members| && !w.members[i].client.closing ==>
          w.members[i].account in w.active && w.active[w.members[i].account] == i)
  }

  lemma StopKeepsInvariant(c: Client, silent: bool, retry: Retry)
    requires Invariant(c, retry)
    ensures Invariant(Stop(if silent then c.(onClose := false) else c), retry)
  {
    StepKeepsInvariant(if silent then c.(onClose := false) else c, StopCall, retry);
  }

  lemma SilentStopSound(w: World, i: nat)
    requires Sound(w) && i < |w.members|
    ensures Sound(w.(members := w.members[i := StopMember(w.members[i], true)]))
  {
    StopKeepsInvariant(w.members[i].client, true, w.members[i].retry);
  }

  lemma NewMemberSound(w: World, account: Account, retry: Retry)
    requires Sound(w) && (account in w.active ==> w.members[w.active[account]].client.closing)
    ensures Sound(w.(members := w.members + [Member(account, retry, Start(NewClient(retry), CLOSED))],
                     active := w.active[account := |w.members|]))
  {
    NewClientInvariant(retry);
    StepKeepsInvariant(NewClient(retry), StartCall(CLOSED), retry);
  }

  lemma ProvideSound(w: World, account: Account, retry: Retry)
    requires Sound(w)
    ensures Sound(ProvideMember(w, account, retry))
  {
    if account in w.active {
      var i := w.active[account];
      SilentStopSound(w, i);
      NewMemberSound(w.(members := w.members[i := StopMember(w.members[i], true)]), account, retry);
    } else {
      NewMemberSound(w, account, retry);
    }
  }

  lemma AbortSound(w: World, i: nat)
    requires Sound(w) && i < |w.members|
    ensures Sound(AbortMember(w, i))
  {
    StopKeepsInvariant(w.members[i].client, false, w.members[i].retry);
  }

  lemma StopsOnlyByCall(c: Client, e: Event, retry: Retry)
    requires !e.StartCall?
    ensures Step(c, e, retry).closing == (c.closing || e.StopCall?)
  {
    if IsStale(c, e) {
    } else if e.Received? {
      MessageClosing(c, e.s, e.payload, e.rs, e.ok);
    } else if e.SocketClosed? {
      CloseClosing(c, e.code, retry);
    } else if e.UnexpectedResponse? {
      ResponseClosing(c, e.status, retry);
    } else if e.TimerFires? {
      ConnectClosing(c.(reconnectTimer := false), e.rs);
    } else if e.Opened? || e.SocketError? {
    } else {
      CallClosing(c, e, retry);
    }
  }

  lemma CallClosing(c: Client, e: Event, retry: Retry)
    requires e.StopCall? || e.SendCall? || e.PingFires?
    ensures Step(c, e, retry).closing == (c.closing || e.StopCall?)
  {
  }

  lemma ConnectClosing(c: Client, rs: ReadyState)
    ensures Connect(c, rs).closing == c.closing
  {
  }

  lemma ScheduleClosing(c: Client, retry: Retry)
    ensures ScheduleReconnect(c, retry).closing == c.closing
  {
  }

  lemma NotifyClosing(c: Client)
    ensures NotifyClose(c).closing == c.closing
  {
  }

  lemma CloseClosing(c: Client, code: int, retry: Retry)
    ensures OnSocketClose(c, code, retry).closing == c.closing
  {
    var d := Detach(c);
    ScheduleClosing(d, retry);
    NotifyClosing(MarkAuthFailed(d));
    NotifyClosing(d.(evicted := true));
    NotifyClosing(ScheduleReconnect(d, retry));
  }

  lemma ResponseClosing(c: Client, status: int, retry: Retry)
    ensures OnUnexpectedResponse(c, status, retry).closing == c.closing
  {
    ScheduleClosing(Detach(c), retry);
    NotifyClosing(MarkAuthFailed(Detach(c)));
  }

  lemma MessageClosing(c: Client, s: Socket, payload: Payload, rs: ReadyState, ok: bool)
    ensures OnMessage(c, s, payload, rs, ok).closing == c.closing
  {
  }

  lemma EventSound(w: World, i: nat, e: Event)
    requires Sound(w) && i < |w.members| && !e.StartCall?
    ensures var m := w.members[i];
            Sound(w.(members := w.members[i := m.(client := Step(m.client, e, m.retry))]))
  {
    StepKeepsInvariant(w.members[i].client, e, w.members[i].retry);
    StopsOnlyByCall(w.members[i].client, e, w.members[i].retry);
  }

  lemma NextSound(w: World, a: Action)
    requires Sound(w) && Enabled(w, a)
    ensures Sound(Next(w, a))
  {
    match a {
      case Provide(account, retry, aborted) =>
        ProvideSound(w, account, retry);
        AbortSound(ProvideMember(w, account, retry), |w.members|);
      case Abort(i) => AbortSound(w, i);
      case Happens(i, e) => EventSound(w, i, e);
      case Registers(_, _) =>
    }
  }

  ghost predicate Possible(w: World, actions: seq<Action>)
    requires Sound(w)
    decreases |actions|
  {
    actions != [] ==>
      && Enabled(w, actions[0])
      && (NextSound(w, actions[0]); Possible(Next(w, actions[0]), actions[1..]))
  }

  ghost function RunWorld(w: World, actions: seq<Action>): (end: World)
    requires Sound(w) && Possible(w, actions)
    ensures Sound(end)
    decreases |actions|
  {
    if actions == [] then w
    else NextSound(w, actions[0]); RunWorld(Next(w, actions[0]), actions[1..])
  }

  /** However often the monitor is called, aborted, and whatever the sockets do: an account never has
      two unstopped clients. */
  lemma AtMostOneUnstoppedClient(actions: seq<Action>, i: nat, j: nat)
    requires Possible(EmptyWorld, actions)
    requires var ms := RunWorld(EmptyWorld, actions).members;
             && i < |ms| && j < |ms| && ms[i].account == ms[j].account
             && !ms[i].client.closing && !ms[j].client.closing
    ensures i == j
  {
    var w := RunWorld(EmptyWorld, actions);
    assert Sound(w);
  }

  /** A takeover closes the connection that held the token before: its 4005 may arrive from then on, and the
      client it reaches ends, if the connection is still its current one. */
  lemma TakeoverEndsHolder(w: World, i: nat, s: Socket)
    requires Sound(w) && Enabled(w, Registers(i, s)) && w.holder.Some? && w.holder.value != (i, s)
    requires w.holder.value.0 < |w.members|
    ensures var (j, taken) := w.holder.value;
            var w' := Next(w, Registers(i, s));
            var eviction := Happens(j, SocketClosed(taken, 4005));
            && w'.holder == Some((i, s)) && Enabled(w', eviction)
            && (w'.members[j].client.ws == Some(taken) ==>
                  !Live(Step(w'.members[j].client, eviction.e, w'.members[j].retry)))
  {
    var (j, taken) := w.holder.value;
    if w.members[j].client.ws == Some(taken) {
      LostConnection(w.members[j].client, SocketClosed(taken, 4005), w.members[j].retry);
    }
  }

  /** A client that was replaced never calls its monitor back, whatever happens to it. */
  lemma ReplacedIsSilent(w: World, account: Account, retry: Retry, events: seq<Event>, e: Event)
    requires Sound(w) && account in w.active
    ensures var i := w.active[account];
            var c := Run(ProvideMember(w, account, retry).members[i].client, events, w.members[i].retry);
            CalledClose !in NewEffects(c, e, w.members[i].retry)
  {
    var i := w.active[account];
    var c := ProvideMember(w, account, retry).members[i].client;
    assert !c.onClose;
    CallbackStays(c, events, w.members[i].retry);
    SilentStep(Run(c, events, w.members[i].retry), e, w.members[i].retry);
  }

  lemma SilentStep(c: Client, e: Event, retry: Retry)
    requires !c.onClose
    ensures CalledClose !in NewEffects(c, e, retry)
  {
    if e.SocketClosed? || e.UnexpectedResponse? {
      SilentLoss(c, e, retry);
    } else if e.Received? {
      ReceivedEffects(c, e, retry);
    } else {
      OthersAre(c, e, retry);
    }
  }

  lemma SilentLoss(c: Client, e: Event, retry: Retry)
    requires !c.onClose && (e.SocketClosed? || e.UnexpectedResponse?)
    ensures CalledClose !in NewEffects(c, e, retry)
  {
    var log' := Step(c, e, retry).log;
    assert forall i :: |c.log| <= i < |log'| ==> log'[i].Scheduled?;
  }

  /** An aborted client is stopped and not the active one of its account any more; another client that has
      become the active one in the meantime stays so, as do those of the other accounts. */
  lemma AbortFrees(w: World, i: nat)
    requires Sound(w) && i < |w.members|
    ensures var w' := AbortMember(w, i);
            && w'.members[i].client.closing && !Live(w'.members[i].client)
            && forall a :: Lookup(w'.active, a)
                           == if Lookup(w.active, a) == Some(i) then None else Lookup(w.active, a)
  {
  }

  /** The two ends agree on the code: the server evicts the older connection of a token with 4005, and a
      client whose current connection is closed with that code neither reconnects nor plans to, until it is
      started again. */
  lemma EvictionEndsClient(l: Bridges.Local, t: Rings.Token, c: Client, s: Socket, events: seq<Event>, retry: Retry)
    requires t in l.bots && l.bots[t] !in l.closed
    requires Invariant(c, retry) && c.ws == Some(s) && forall e :: e in events ==> !e.StartCall?
    ensures var code := Bridges.EvictLocal(l, t).closed[l.bots[t]];
            var c' := Step(c, SocketClosed(s, code), retry);
            && code == 4005 && !Live(c') && !Retries(c, SocketClosed(s, code), retry)
            && Run(c', events, retry).created == c.created && !Live(Run(c', events, retry))
  {
    var e := SocketClosed(s, Bridges.EvictLocal(l, t).closed[l.bots[t]]);
    LostConnection(c, e, retry);
    StepKeepsInvariant(c, e, retry);
    SocketsStay(c, e, retry);
    FlaggedClientStaysQuiet(Step(c, e, retry), events, retry);
    FlaggedClientStaysDown(Step(c, e, retry), events, retry);
  }

  /** How a connected client takes the closes of the server: an evicted one ends, one whose token was removed
      and one whose worker restarts try again, unless they have seen a 401 or used up their attempts. */
  lemma ServerCloses(l: Bridges.Local, t: Rings.Token, c: Client, s: Socket, retry: Retry)
    requires t in l.bots && l.bots[t] !in l.closed
    requires Invariant(c, retry) && c.ws == Some(s)
    ensures var conn := l.bots[t];
            var evicted := Step(c, SocketClosed(s, Bridges.EvictLocal(l, t).closed[conn]), retry);
            var removed := Step(c, SocketClosed(s, Bridges.RemoveLocal(l, t).closed[conn]), retry);
            var restarted := Step(c, SocketClosed(s, Bridges.ShutdownLocal(l).closed[conn]), retry);
            && Terminal(evicted)
            && (Waiting(removed) <==> !c.authFailed && !Exhausted(c, retry))
            && (Waiting(restarted) <==> !c.authFailed && !Exhausted(c, retry))
            && Bridges.RemoveLocal(l, t).closed[conn] == 4003 && Bridges.ShutdownLocal(l).closed[conn] == 4000
  {
    var conn := l.bots[t];
    LostConnection(c, SocketClosed(s, Bridges.EvictLocal(l, t).closed[conn]), retry);
    LostConnection(c, SocketClosed(s, Bridges.RemoveLocal(l, t).closed[conn]), retry);
    LostConnection(c, SocketClosed(s, Bridges.ShutdownLocal(l).closed[conn]), retry);
  }

  lemma SocketsStay(c: Client, e: Event, retry: Retry)
    requires e.SocketClosed?
    ensures Step(c, e, retry).created == c.created
  {
  }

  lemma {:induction false} FlaggedClientStaysDown(c: Client, events: seq<Event>, retry: Retry)
    requires Invariant(c, retry) && Flagged(c) && !Live(c) && forall e :: e in events ==> !e.StartCall?
    ensures !Live(Run(c, events, retry))
    decreases |events|
  {
    if events != [] {
      assert events[0] in events && forall e :: e in events[1..] ==> e in events;
      StepKeepsInvariant(c, events[0], retry);
      StepStaysDown(c, events[0], retry);
      FlaggedClientStaysDown(Step(c, events[0], retry), events[1..], retry);
    }
  }

  lemma StepStaysDown(c: Client, e: Event, retry: Retry)
    requires Invariant(c, retry) && Flagged(c) && !Live(c) && !e.StartCall?
    ensures Flagged(Step(c, e, retry)) && !Live(Step(c, e, retry))
  {
  }

  // ---------------------------------------------------------------------------------------------
  // No eviction ping-pong
  // ---------------------------------------------------------------------------------------------

  predicate Accepts(w: World, a: Action)
    requires Enabled(w, a)
  {
    a.Happens? && AcceptsEviction(w.members[a.i].client, a.e)
  }

  /** The connections on which clients accept an eviction, in the order in which they do. */
  ghost function AcceptedConns(w: World, actions: seq<Action>): seq<Conn>
    requires Sound(w) && Possible(w, actions)
    decreases |actions|
  {
    if actions == [] then []
    else
      NextSound(w, actions[0]);
      (if Accepts(w, actions[0]) then [(actions[0].i, actions[0].e.s)] else [])
      + AcceptedConns(Next(w, actions[0]), actions[1..])
  }

  function Provides(actions: seq<Action>): nat {
    if actions == [] then 0 else Bit(actions[0].Provide?) + Provides(actions[1..])
  }

  function LiveClients(ms: seq<Member>): nat {
    if ms == [] then 0 else Bit(Live(ms[0].client)) + LiveClients(ms[1..])
  }

  lemma {:induction false} LiveUpdate(ms: seq<Member>, i: nat, m: Member)
    requires i < |ms|
    ensures LiveClients(ms[i := m]) + Bit(Live(ms[i].client)) == LiveClients(ms) + Bit(Live(m.client))
    decreases |ms|
  {
    if i > 0 {
      assert ms[i := m][1..] == ms[1..][i - 1 := m];
      LiveUpdate(ms[1..], i - 1, m);
    } else {
      assert ms[i := m][1..] == ms[1..];
    }
  }

  lemma {:induction false} LiveAppend(ms: seq<Member>, m: Member)
    ensures LiveClients(ms + [m]) == LiveClients(ms) + Bit(Live(m.client))
    decreases |ms|
  {
    if ms != [] {
      assert (ms + [m])[1..] == ms[1..] + [m];
      LiveAppend(ms[1..], m);
    }
  }

  lemma AbortLives(w: World, i: nat)
    requires i < |w.members|
    ensures LiveClients(AbortMember(w, i).members) <= LiveClients(w.members)
  {
    LiveUpdate(w.members, i, StopMember(w.members[i], false));
  }

  lemma ProvideLives(w: World, account: Account, retry: Retry)
    requires account in w.active ==> w.active[account] < |w.members|
    ensures LiveClients(ProvideMember(w, account, retry).members) <= LiveClients(w.members) + 1
  {
    var m := Member(account, retry, Start(NewClient(retry), CLOSED));
    if account in w.active {
      var i := w.active[account];
      var stopped := StopMember(w.members[i], true);
      LiveUpdate(w.members, i, stopped);
      LiveAppend(w.members[i := stopped], m);
    } else {
      LiveAppend(w.members, m);
    }
  }

  lemma NextLives(w: World, a: Action)
    requires Sound(w) && Enabled(w, a)
    ensures Bit(Accepts(w, a)) + LiveClients(Next(w, a).members) <= LiveClients(w.members) + Bit(a.Provide?)
  {
    match a {
      case Provide(account, retry, aborted) =>
        ProvideLives(w, account, retry);
        AbortLives(ProvideMember(w, account, retry), |w.members|);
      case Abort(i) => AbortLives(w, i);
      case Happens(i, e) =>
        var m := w.members[i];
        StepLives(m.client, e, m.retry);
        LiveUpdate(w.members, i, m.(client := Step(m.client, e, m.retry)));
      case Registers(_, _) =>
    }
  }

  lemma {:induction false} EvictionsEndLives(w: World, actions: seq<Action>)
    requires Sound(w) && Possible(w, actions)
    ensures |AcceptedConns(w, actions)| + LiveClients(RunWorld(w, actions).members)
            <= LiveClients(w.members) + Provides(actions)
    decreases |actions|
  {
    if actions != [] {
      NextSound(w, actions[0]);
      NextLives(w, actions[0]);
      EvictionsEndLives(Next(w, actions[0]), actions[1..]);
    }
  }

  /** No eviction ping-pong: over any run, all clients together accept at most as many evictions as
      the monitor started clients, whatever the server does in between. */
  lemma NoEvictionPingPong(actions: seq<Action>)
    requires Possible(EmptyWorld, actions)
    ensures |AcceptedConns(EmptyWorld, actions)| <= Provides(actions)
  {
    EvictionsEndLives(EmptyWorld, actions);
  }

  /** A connection on which an eviction can still be accepted: current, or not yet there. */
  predicate Upcoming(w: World, c: Conn) {
    c.0 < |w.members| ==> Ahead(w.members[c.0].client, c.1)
  }

  predicate Ahead(c: Client, s: Socket) {
    s >= c.created || c.ws == Some(s)
  }

  /** Sockets come from the counter: the client keeps its socket, loses it, or takes the next one. */
  predicate SocketsFollow(c: Client, c': Client) {
    c'.created >= c.created && (c'.ws == c.ws || c'.ws.None? || c'.ws == Some(c.created))
  }

  lemma ConnectSockets(c: Client, rs: ReadyState)
    ensures SocketsFollow(c, Connect(c, rs))
  {
  }

  lemma ScheduleSockets(c: Client, retry: Retry)
    ensures ScheduleReconnect(c, retry).created == c.created && ScheduleReconnect(c, retry).ws == c.ws
  {
  }

  lemma NotifySockets(c: Client)
    ensures NotifyClose(c).created == c.created && NotifyClose(c).ws == c.ws
  {
  }

  lemma CloseSockets(c: Client, code: int, retry: Retry)
    ensures SocketsFollow(c, OnSocketClose(c, code, retry))
  {
    var d := Detach(c);
    ScheduleSockets(d, retry);
    NotifySockets(MarkAuthFailed(d));
    NotifySockets(d.(evicted := true));
    NotifySockets(ScheduleReconnect(d, retry));
  }

  lemma ResponseSockets(c: Client, status: int, retry: Retry)
    ensures SocketsFollow(c, OnUnexpectedResponse(c, status, retry))
  {
    ScheduleSockets(Detach(c), retry);
    NotifySockets(MarkAuthFailed(Detach(c)));
  }

  lemma MessageSockets(c: Client, s: Socket, payload: Payload, rs: ReadyState, ok: bool)
    ensures SocketsFollow(c, OnMessage(c, s, payload, rs, ok))
  {
  }

  lemma CallSockets(c: Client, e: Event, retry: Retry)
    requires !IsSocketEvent(e)
    ensures SocketsFollow(c, Step(c, e, retry))
  {
    if e.StartCall? {
      ConnectSockets(c.(closing := false, authFailed := false, evicted := false), e.rs);
    } else if e.TimerFires? {
      ConnectSockets(c.(reconnectTimer := false), e.rs);
    }
  }

  lemma StepSockets(c: Client, e: Event, retry: Retry)
    ensures SocketsFollow(c, Step(c, e, retry))
  {
    if IsStale(c, e) {
    } else if e.Received? {
      MessageSockets(c, e.s, e.payload, e.rs, e.ok);
    } else if e.SocketClosed? {
      CloseSockets(c, e.code, retry);
    } else if e.UnexpectedResponse? {
      ResponseSockets(c, e.status, retry);
    } else if !IsSocketEvent(e) {
      CallSockets(c, e, retry);
    }
  }

  lemma StepKeepsPast(c: Client, e: Event, retry: Retry, s: Socket)
    requires Ahead(Step(c, e, retry), s)
    ensures Ahead(c, s)
  {
    StepSockets(c, e, retry);
  }

  lemma ProvideKeepsPast(w: World, account: Account, retry: Retry, c: Conn)
    requires Sound(w) && Upcoming(ProvideMember(w, account, retry), c)
    ensures Upcoming(w, c)
  {
    if account in w.active && c.0 == w.active[account] {
      var m := w.members[c.0];
      StepKeepsPast(m.client.(onClose := false), StopCall, m.retry, c.1);
    }
  }

  lemma AbortKeepsPast(w: World, i: nat, c: Conn)
    requires i < |w.members| && Upcoming(AbortMember(w, i), c)
    ensures Upcoming(w, c)
  {
    if c.0 == i {
      StepKeepsPast(w.members[i].client, StopCall, w.members[i].retry, c.1);
    }
  }

  lemma NextKeepsPast(w: World, a: Action, c: Conn)
    requires Sound(w) && Enabled(w, a) && Upcoming(Next(w, a), c)
    ensures Upcoming(w, c)
  {
    match a {
      case Provide(account, retry, aborted) =>
        if aborted {
          AbortKeepsPast(ProvideMember(w, account, retry), |w.members|, c);
        }
        ProvideKeepsPast(w, account, retry, c);
      case Abort(i) => AbortKeepsPast(w, i, c);
      case Happens(i, e) =>
        if c.0 == i {
          StepKeepsPast(w.members[i].client, e, w.members[i].retry, c.1);
        }
      case Registers(_, _) =>
    }
  }

  lemma {:induction false} AcceptedAreUpcoming(w: World, actions: seq<Action>, c: Conn)
    requires Sound(w) && Possible(w, actions) && c in AcceptedConns(w, actions)
    ensures Upcoming(w, c)
    decreases |actions|
  {
    if actions != [] {
      var a := actions[0];
      NextSound(w, a);
      if Accepts(w, a) && c == (a.i, a.e.s) {
      } else {
        AcceptedAreUpcoming(Next(w, a), actions[1..], c);
        NextKeepsPast(w, a, c);
      }
    }
  }

  ghost predicate Distinct(cs: seq<Conn>) {
    forall i, j :: 0 <= i < j < |cs| ==> cs[i] != cs[j]
  }

  lemma DistinctCons(c: Conn, cs: seq<Conn>)
    requires Distinct(cs) && c !in cs
    ensures Distinct([c] + cs)
  {
  }

  /** The server only ever evicts more, and a client gives up only what was evicted. */
  lemma {:induction false} AcceptedWereEvicted(w: World, actions: seq<Action>)
    requires Sound(w) && Possible(w, actions)
    ensures w.evicted <= RunWorld(w, actions).evicted
    ensures forall c :: c in AcceptedConns(w, actions) ==> c in RunWorld(w, actions).evicted
    decreases |actions|
  {
    if actions != [] {
      NextSound(w, actions[0]);
      AcceptedWereEvicted(Next(w, actions[0]), actions[1..]);
    }
  }

  /** A connection that is given up now is not upcoming any more. */
  lemma AcceptedIsPast(w: World, a: Action)
    requires Sound(w) && Enabled(w, a) && Accepts(w, a)
    ensures !Upcoming(Next(w, a), (a.i, a.e.s))
  {
    CloseSockets(w.members[a.i].client, a.e.code, w.members[a.i].retry);
    assert OnSocketClose(w.members[a.i].client, a.e.code, w.members[a.i].retry).ws == None;
  }

  /** No connection is given up to an eviction twice, by any client. */
  lemma {:induction false} EachTakeoverAcceptedOnce(w: World, actions: seq<Action>)
    requires Sound(w) && Possible(w, actions)
    ensures Distinct(AcceptedConns(w, actions))
    decreases |actions|
  {
    if actions != [] {
      var a, w' := actions[0], Next(w, actions[0]);
      NextSound(w, a);
      EachTakeoverAcceptedOnce(w', actions[1..]);
      var rest := AcceptedConns(w', actions[1..]);
      assert [] + rest == rest;
      if Accepts(w, a) {
        var c: Conn := (a.i, a.e.s);
        AcceptedIsPast(w, a);
        if c in rest {
          AcceptedAreUpcoming(w', actions[1..], c);
        }
        DistinctCons(c, rest);
      }
    }
  }
}
