/** The plugin's WebSocket client: one current socket, one reconnect timer, a ping timer, three
    terminal flags, exponential backoff, and events of sockets it has already given up.

    `Client` is the client as a value, `Step` what one event does to it; `BridgeClient` is the code's
    client, whose methods are the event handlers. */
module Reconnect {
  import opened Prelude

  /** Sockets are numbered in the order of their creation. */
  type Socket = nat

  datatype ReadyState = CONNECTING | OPEN | CLOSING | CLOSED

  datatype Retry = Retry(baseMs: nat, maxMs: nat, maxAttempts: int)

  /** What a received text turns out to be. */
  datatype Payload = PingText | PongText | InvalidJson | Json(msg: string)

  /** What the client does to the outside: callbacks, sockets, timers, bytes. */
  datatype Effect =
    | Created(s: Socket)
    | ClosedSocket(s: Socket)
    | Scheduled(delay: nat)
    | CalledReady
    | CalledMessage(msg: string)
    | CalledClose
    | SentPong(s: Socket)
    | SentPing(s: Socket)
    | Sent(s: Socket, msg: string)

  datatype Client = Client(
    ws: Option<Socket>,
    ready: bool,
    closing: bool,
    authFailed: bool,
    evicted: bool,
    backoffMs: nat,
    attempts: nat,
    reconnectTimer: bool,
    pingTimer: bool,
    onClose: bool,
    created: nat,
    log: seq<Effect>)

  /** Calls, timers and socket events.  `rs` is the ready state the code reads from its current socket,
      `ok` whether the write to the socket succeeds. */
  datatype Event =
    | StartCall(rs: ReadyState)
    | StopCall
    | SendCall(msg: string, rs: ReadyState, ok: bool)
    | TimerFires(rs: ReadyState)
    | PingFires(rs: ReadyState, ok: bool)
    | Opened(s: Socket)
    | Received(s: Socket, payload: Payload, rs: ReadyState, ok: bool)
    | SocketClosed(s: Socket, code: int)
    | UnexpectedResponse(s: Socket, status: int)
    | SocketError(s: Socket, mentions401: bool)

  const UNAUTHORIZED: int := 4001
  const EVICTED: int := 4005

  function Min(a: nat, b: nat): nat {
    if a <= b then a else b
  }

  function NewClient(retry: Retry): Client {
    Client(None, false, false, false, false, retry.baseMs, 0, false, false, true, 0, [])
  }

  function Log(c: Client, e: Effect): Client {
    c.(log := c.log + [e])
  }

  // ---------------------------------------------------------------------------------------------
  // What each handler does
  // ---------------------------------------------------------------------------------------------

  function Connect(c: Client, rs: ReadyState): Client {
    if c.closing || (c.ws.Some? && (rs == CONNECTING || rs == OPEN)) then c
    else Log(c.(ws := Some(c.created), created := c.created + 1), Created(c.created))
  }

  function Start(c: Client, rs: ReadyState): Client {
    Connect(c.(closing := false, authFailed := false, evicted := false), rs)
  }

  function Stop(c: Client): Client {
    var quiet := c.(closing := true, ready := false, pingTimer := false, reconnectTimer := false, ws := None);
    if c.ws.Some? then Log(quiet, ClosedSocket(c.ws.value)) else quiet
  }

  function ScheduleReconnect(c: Client, retry: Retry): Client {
    if c.closing || c.authFailed || c.evicted || c.reconnectTimer
       || (retry.maxAttempts > 0 && c.attempts >= retry.maxAttempts)
    then c
    else Log(c.(attempts := c.attempts + 1,
                backoffMs := Min(2 * c.backoffMs, retry.maxMs),
                reconnectTimer := true),
             Scheduled(Min(c.backoffMs, retry.maxMs)))
  }

  function MarkAuthFailed(c: Client): Client {
    if c.authFailed then c else c.(authFailed := true, reconnectTimer := false)
  }

  function Detach(c: Client): Client {
    c.(ws := None, ready := false, pingTimer := false)
  }

  function NotifyClose(c: Client): Client {
    if c.onClose then Log(c, CalledClose) else c
  }

  function OnOpen(c: Client, retry: Retry): Client {
    Log(c.(ready := true, pingTimer := true, backoffMs := retry.baseMs, attempts := 0), CalledReady)
  }

  function OnMessage(c: Client, s: Socket, payload: Payload, rs: ReadyState, ok: bool): Client {
    match payload
    case PingText => if rs == OPEN && ok then Log(c, SentPong(s)) else c
    case Json(msg) => Log(c, CalledMessage(msg))
    case _ => c
  }

  function AfterClose(c: Client, code: int, retry: Retry): Client {
    NotifyClose(
      if code == UNAUTHORIZED then MarkAuthFailed(c)
      else if code == EVICTED then c.(evicted := true)
      else ScheduleReconnect(c, retry))
  }

  function OnSocketClose(c: Client, code: int, retry: Retry): Client {
    AfterClose(Detach(c), code, retry)
  }

  function OnUnexpectedResponse(c: Client, status: int, retry: Retry): Client {
    if status == 401 then NotifyClose(MarkAuthFailed(Detach(c)))
    else ScheduleReconnect(Detach(c), retry)
  }

  function OnTimer(c: Client, rs: ReadyState): Client {
    Connect(c.(reconnectTimer := false), rs)
  }

  predicate IsSocketEvent(e: Event) {
    e.Opened? || e.Received? || e.SocketClosed? || e.UnexpectedResponse? || e.SocketError?
  }

  /** An event of a socket that is not the current one. */
  predicate IsStale(c: Client, e: Event) {
    IsSocketEvent(e) && c.ws != Some(e.s)
  }

  /** One event.  A timer that is not set does not fire. */
  function Step(c: Client, e: Event, retry: Retry): Client {
    if IsStale(c, e) then c
    else
      match e
      case StartCall(rs) => Start(c, rs)
      case StopCall => Stop(c)
      case SendCall(msg, rs, ok) =>
        if c.ws.Some? && rs == OPEN && c.ready && ok then Log(c, Sent(c.ws.value, msg)) else c
      case TimerFires(rs) => if c.reconnectTimer then OnTimer(c, rs) else c
      case PingFires(rs, ok) =>
        if c.pingTimer && c.ws.Some? && rs == OPEN && ok then Log(c, SentPing(c.ws.value)) else c
      case Opened(_) => OnOpen(c, retry)
      case Received(s, payload, rs, ok) => OnMessage(c, s, payload, rs, ok)
      case SocketClosed(_, code) => OnSocketClose(c, code, retry)
      case UnexpectedResponse(_, status) => OnUnexpectedResponse(c, status, retry)
      case SocketError(_, mentions401) => if mentions401 then MarkAuthFailed(c) else c
  }

  function Run(c: Client, events: seq<Event>, retry: Retry): Client
    decreases |events|
  {
    if events == [] then c else Run(Step(c, events[0], retry), events[1..], retry)
  }

  // ---------------------------------------------------------------------------------------------
  // The code's client
  // ---------------------------------------------------------------------------------------------

  class BridgeClient {
    const retry: Retry
    var ws: Option<Socket>
    var ready: bool
    var closing: bool
    var authFailed: bool
    var evicted: bool
    var backoffMs: nat
    var attempts: nat
    var reconnectTimer: bool
    var pingTimer: bool
    var onClose: bool
    var created: nat
    var log: seq<Effect>

    function Value(): Client
      reads this
    {
      Client(ws, ready, closing, authFailed, evicted, backoffMs, attempts, reconnectTimer, pingTimer,
             onClose, created, log)
    }

    constructor (retry: Retry)
      ensures Value() == NewClient(retry) && this.retry == retry
    {
      this.retry := retry;
      ws, ready, closing, authFailed, evicted := None, false, false, false, false;
      backoffMs, attempts := retry.baseMs, 0;
      reconnectTimer, pingTimer, onClose, created, log := false, false, true, 0, [];
    }

    method StartClient(rs: ReadyState)
      modifies this
      ensures Value() == Start(old(Value()), rs)
    {
      closing := false;
      authFailed := false;
      evicted := false;
      OpenSocket(rs);
    }

    method StopClient()
      modifies this
      ensures Value() == Stop(old(Value()))
    {
      closing := true;
      ready := false;
      StopPing();
      if reconnectTimer {
        reconnectTimer := false;
      }
      if ws.Some? {
        log := log + [ClosedSocket(ws.value)];
        ws := None;
      }
    }

    method Send(msg: string, rs: ReadyState, ok: bool) returns (sent: bool)
      modifies this
      ensures Value() == Step(old(Value()), SendCall(msg, rs, ok), retry)
      ensures sent <==> Value().log == old(Value().log) + [Sent(old(ws.GetOr(0)), msg)]
    {
      if ws.None? || rs != OPEN || !ready {
        return false;
      }
      if !ok {
        return false;
      }
      log := log + [Sent(ws.value, msg)];
      return true;
    }

    method OpenSocket(rs: ReadyState)
      modifies this
      ensures Value() == Connect(old(Value()), rs)
    {
      if closing {
        return;
      }
      if ws.Some? && (rs == CONNECTING || rs == OPEN) {
        return;
      }
      ws := Some(created);
      log := log + [Created(created)];
      created := created + 1;
    }

    method HandleOpen(s: Socket)
      modifies this
      ensures Value() == Step(old(Value()), Opened(s), retry)
    {
      if ws != Some(s) {
        return;
      }
      ready := true;
      StartPing();
      backoffMs := retry.baseMs;
      attempts := 0;
      log := log + [CalledReady];
    }

    method HandleMessage(s: Socket, payload: Payload, rs: ReadyState, ok: bool)
      modifies this
      ensures Value() == Step(old(Value()), Received(s, payload, rs, ok), retry)
    {
      if ws != Some(s) {
        return;
      }
      if payload == PingText {
        if rs == OPEN && ok {
          log := log + [SentPong(s)];
        }
        return;
      }
      if payload == PongText {
        return;
      }
      if payload == InvalidJson {
        return;
      }
      log := log + [CalledMessage(payload.msg)];
    }

    method HandleClose(s: Socket, code: int)
      modifies this
      ensures Value() == Step(old(Value()), SocketClosed(s, code), retry)
    {
      if ws != Some(s) {
        return;
      }
      ready := false;
      ws := None;
      StopPing();
      assert Value() == Detach(old(Value()));
      EndConnection(code);
    }

    /** The rest of the close handler, for a detached client. */
    method EndConnection(code: int)
      modifies this
      ensures Value() == AfterClose(old(Value()), code, retry)
    {
      if code == 4001 {
        MarkAuth();
      } else if code == 4005 {
        evicted := true;
      } else {
        Schedule();
      }
      if onClose {
        log := log + [CalledClose];
      }
    }

    method HandleUnexpectedResponse(s: Socket, status: int)
      modifies this
      ensures Value() == Step(old(Value()), UnexpectedResponse(s, status), retry)
    {
      if ws != Some(s) {
        return;
      }
      if status == 401 {
        Abandon(s);
        MarkAuth();
        if onClose {
          log := log + [CalledClose];
        }
        return;
      }
      Abandon(s);
      Schedule();
    }

    method HandleError(s: Socket, mentions401: bool)
      modifies this
      ensures Value() == Step(old(Value()), SocketError(s, mentions401), retry)
    {
      if ws != Some(s) {
        return;
      }
      if mentions401 {
        MarkAuth();
      }
    }

    method HandleTimer(rs: ReadyState)
      requires reconnectTimer
      modifies this
      ensures Value() == Step(old(Value()), TimerFires(rs), retry)
    {
      reconnectTimer := false;
      OpenSocket(rs);
    }

    method HandlePing(rs: ReadyState, ok: bool)
      requires pingTimer
      modifies this
      ensures Value() == Step(old(Value()), PingFires(rs, ok), retry)
    {
      if ws.Some? && rs == OPEN && ok {
        log := log + [SentPing(ws.value)];
      }
    }

    method Abandon(s: Socket)
      modifies this
      ensures Value() == if old(ws) != Some(s) then old(Value()) else Detach(old(Value()))
    {
      if ws != Some(s) {
        return;
      }
      ready := false;
      ws := None;
      StopPing();
    }

    method StartPing()
      modifies this`pingTimer
      ensures pingTimer
    {
      StopPing();
      pingTimer := true;
    }

    method StopPing()
      modifies this`pingTimer
      ensures !pingTimer
    {
      if pingTimer {
        pingTimer := false;
      }
    }

    method MarkAuth()
      modifies this`authFailed, this`reconnectTimer
      ensures Value() == MarkAuthFailed(old(Value()))
    {
      if authFailed {
        return;
      }
      authFailed := true;
      if reconnectTimer {
        reconnectTimer := false;
      }
    }

    method Schedule()
      modifies this
      ensures Value() == ScheduleReconnect(old(Value()), retry)
    {
      if closing || authFailed || evicted {
        return;
      }
      if reconnectTimer {
        return;
      }
      if retry.maxAttempts > 0 && attempts >= retry.maxAttempts {
        return;
      }
      var delay := Min(backoffMs, retry.maxMs);
      attempts := attempts + 1;
      backoffMs := Min(2 * backoffMs, retry.maxMs);
      reconnectTimer := true;
      log := log + [Scheduled(delay)];
    }
  }

  // ---------------------------------------------------------------------------------------------
  // Never stuck, never doubled
  // ---------------------------------------------------------------------------------------------

  predicate Flagged(c: Client) {
    c.closing || c.authFailed || c.evicted
  }

  predicate Exhausted(c: Client, retry: Retry) {
    retry.maxAttempts > 0 && c.attempts >= retry.maxAttempts
  }

  /** The four situations of a client that was started at least once. */
  predicate HasSocket(c: Client) { c.ws.Some? }
  predicate Waiting(c: Client) { c.reconnectTimer }
  predicate Terminal(c: Client) { c.ws.None? && !c.reconnectTimer && Flagged(c) }
  predicate GivenUp(c: Client, retry: Retry) {
    c.ws.None? && !c.reconnectTimer && !Flagged(c) && Exhausted(c, retry)
  }

  function Bit(b: bool): nat {
    if b then 1 else 0
  }

  predicate Invariant(c: Client, retry: Retry) {
    && (c.created > 0 ==>
          Bit(HasSocket(c)) + Bit(Waiting(c)) + Bit(Terminal(c)) + Bit(GivenUp(c, retry)) == 1)
    && (c.created == 0 ==> c.ws.None? && !c.reconnectTimer && !c.authFailed && !c.evicted)
    && (c.ready <==> c.pingTimer)
    && (c.ready ==> c.ws.Some?)
    && (c.ws.Some? ==> c.ws.value < c.created)
    && (c.closing || c.evicted ==> c.ws.None? && !c.reconnectTimer)
    && (c.authFailed ==> !c.reconnectTimer)
  }

  lemma StepKeepsInvariant(c: Client, e: Event, retry: Retry)
    requires Invariant(c, retry)
    requires e.StartCall? ==> !c.reconnectTimer
    ensures Invariant(Step(c, e, retry), retry)
  {
    if e.SocketClosed? || e.UnexpectedResponse? {
      LossKeepsInvariant(c, e, retry);
    } else if IsSocketEvent(e) {
      SocketEventKeepsInvariant(c, e, retry);
    } else {
      CallKeepsInvariant(c, e, retry);
    }
  }

  lemma LossKeepsInvariant(c: Client, e: Event, retry: Retry)
    requires Invariant(c, retry) && (e.SocketClosed? || e.UnexpectedResponse?)
    ensures Invariant(Step(c, e, retry), retry)
  {
  }

  lemma SocketEventKeepsInvariant(c: Client, e: Event, retry: Retry)
    requires Invariant(c, retry) && IsSocketEvent(e) && !e.SocketClosed? && !e.UnexpectedResponse?
    ensures Invariant(Step(c, e, retry), retry)
  {
  }

  lemma CallKeepsInvariant(c: Client, e: Event, retry: Retry)
    requires Invariant(c, retry) && !IsSocketEvent(e)
    requires e.StartCall? ==> !c.reconnectTimer
    ensures Invariant(Step(c, e, retry), retry)
  {
  }

  /** start() is only called while no reconnect timer is pending. */
  predicate StartsWhenIdle(c: Client, events: seq<Event>, retry: Retry)
    decreases |events|
  {
    events != [] ==>
      && (events[0].StartCall? ==> !c.reconnectTimer)
      && StartsWhenIdle(Step(c, events[0], retry), events[1..], retry)
  }

  /** After every event a started client is in exactly one of: current socket, one pending reconnect
      timer, terminal, retry limit reached; and it is ready exactly when the ping timer runs. */
  lemma {:induction false} NeverStuckNeverDoubled(c: Client, events: seq<Event>, retry: Retry)
    requires Invariant(c, retry) && StartsWhenIdle(c, events, retry)
    ensures Invariant(Run(c, events, retry), retry)
    decreases |events|
  {
    if events != [] {
      StepKeepsInvariant(c, events[0], retry);
      NeverStuckNeverDoubled(Step(c, events[0], retry), events[1..], retry);
    }
  }

  /** The condition on start() is exact: the connect routine looks at `closing` and at the current
      socket, not at the timer. */
  lemma StartCondition(c: Client, rs: ReadyState, retry: Retry)
    requires Invariant(c, retry)
    ensures Invariant(Step(c, StartCall(rs), retry), retry) <==> !c.reconnectTimer
  {
  }

  lemma RunCons(c: Client, e: Event, rest: seq<Event>, retry: Retry)
    ensures Run(c, [e] + rest, retry) == Run(Step(c, e, retry), rest, retry)
  {
    assert ([e] + rest)[1..] == rest;
  }

  /** A new client gets there: started, closed abnormally, and started again, it has a socket and a pending
      timer at once. */
  lemma RestartDoubles(retry: Retry)
    ensures var c := Run(NewClient(retry), [StartCall(CLOSED), SocketClosed(0, 1006), StartCall(CLOSED)], retry);
            HasSocket(c) && Waiting(c) && !Invariant(c, retry)
  {
    var c0, start, close := NewClient(retry), StartCall(CLOSED), SocketClosed(0, 1006);
    var c1 := Step(c0, start, retry);
    var c2 := Step(c1, close, retry);
    assert c1.ws == Some(0) && c2.reconnectTimer;
    RunCons(c0, start, [close, start], retry);
    RunCons(c1, close, [start], retry);
    RunCons(c2, start, [], retry);
    assert [start, close, start] == [start] + [close, start] && [close, start] == [close] + [start];
    assert [start] == [start] + [];
  }

  lemma NewClientInvariant(retry: Retry)
    ensures Invariant(NewClient(retry), retry)
  {
  }

  /** Once stopped, rejected or evicted, a client creates no socket until the next start(). */
  lemma {:induction false} FlaggedClientStaysQuiet(c: Client, events: seq<Event>, retry: Retry)
    requires Invariant(c, retry) && Flagged(c)
    requires forall e :: e in events ==> !e.StartCall?
    ensures Run(c, events, retry).created == c.created && Flagged(Run(c, events, retry))
    decreases |events|
  {
    if events != [] {
      assert events[0] in events && forall e :: e in events[1..] ==> e in events;
      StepKeepsInvariant(c, events[0], retry);
      FlaggedClientStaysQuiet(Step(c, events[0], retry), events[1..], retry);
    }
  }

  // ---------------------------------------------------------------------------------------------
  // What each event does to the outside
  // ---------------------------------------------------------------------------------------------

  lemma LogGrows(c: Client, e: Event, retry: Retry)
    ensures c.log <= Step(c, e, retry).log
  {
    if e.SocketClosed? || e.UnexpectedResponse? {
      LossLogGrows(c, e, retry);
    } else if e.Received? {
      MessageReaction(c, e.s, e.payload, e.rs, e.ok);
    } else {
      OtherLog(c, e, retry);
    }
  }

  lemma LossLogGrows(c: Client, e: Event, retry: Retry)
    requires e.SocketClosed? || e.UnexpectedResponse?
    ensures c.log <= Step(c, e, retry).log
  {
    var d := Detach(c);
    ScheduleLogGrows(d, retry);
    NotifyLogGrows(MarkAuthFailed(d));
    NotifyLogGrows(d.(evicted := true));
    NotifyLogGrows(ScheduleReconnect(d, retry));
  }

  lemma ScheduleLogGrows(c: Client, retry: Retry)
    ensures c.log <= ScheduleReconnect(c, retry).log
  {
  }

  lemma NotifyLogGrows(c: Client)
    ensures c.log <= NotifyClose(c).log
  {
  }

  function NewEffects(c: Client, e: Event, retry: Retry): (es: seq<Effect>)
    ensures Step(c, e, retry).log == c.log + es
  {
    LogGrows(c, e, retry);
    Step(c, e, retry).log[|c.log|..]
  }

  lemma EffectsAre(c: Client, e: Event, retry: Retry, es: seq<Effect>)
    requires Step(c, e, retry).log == c.log + es
    ensures NewEffects(c, e, retry) == es
  {
    assert (c.log + es)[|c.log|..] == es;
  }

  /** The server has turned the client away for good: an expired token, an eviction, or an HTTP 401. */
  predicate TurnedAway(e: Event) {
    || (e.SocketClosed? && (e.code == 4001 || e.code == 4005))
    || (e.UnexpectedResponse? && e.status == 401)
  }

  ghost predicate Retries(c: Client, e: Event, retry: Retry) {
    exists d :: Scheduled(d) in NewEffects(c, e, retry)
  }

  /** When the current connection is lost: the client ends exactly if it is turned away, or has seen a 401
      before; otherwise it schedules a reconnect, unless the retry limit is reached.  The monitor is told
      of every close and of the HTTP 401. */
  lemma LostConnection(c: Client, e: Event, retry: Retry)
    requires Invariant(c, retry) && (e.SocketClosed? || e.UnexpectedResponse?) && c.ws == Some(e.s)
    ensures var c', final := Step(c, e, retry), TurnedAway(e) || c.authFailed;
            && c'.ws.None? && !c'.ready
            && (Terminal(c') <==> final)
            && (Waiting(c') <==> !final && !Exhausted(c, retry))
            && (Retries(c, e, retry) <==> Waiting(c'))
            && (CalledClose in NewEffects(c, e, retry) <==> c.onClose && (e.SocketClosed? || e.status == 401))
  {
    LossEffects(c, e, retry);
    LossState(c, e, retry);
    var delay := Scheduled(Min(c.backoffMs, retry.maxMs));
    assert Reconnects(c, e, retry) ==> delay in NewEffects(c, e, retry);
  }

  predicate Reconnects(c: Client, e: Event, retry: Retry) {
    !TurnedAway(e) && !c.authFailed && !Exhausted(c, retry)
  }

  lemma LossState(c: Client, e: Event, retry: Retry)
    requires Invariant(c, retry) && (e.SocketClosed? || e.UnexpectedResponse?) && c.ws == Some(e.s)
    ensures var c' := Step(c, e, retry);
            && c'.ws.None? && !c'.ready
            && (Terminal(c') <==> TurnedAway(e) || c.authFailed)
            && (Waiting(c') <==> Reconnects(c, e, retry))
  {
  }

  lemma LossEffects(c: Client, e: Event, retry: Retry)
    requires Invariant(c, retry) && (e.SocketClosed? || e.UnexpectedResponse?) && c.ws == Some(e.s)
    ensures NewEffects(c, e, retry)
            == (if Reconnects(c, e, retry) then [Scheduled(Min(c.backoffMs, retry.maxMs))] else [])
               + (if c.onClose && (e.SocketClosed? || e.status == 401) then [CalledClose] else [])
  {
    var es := (if Reconnects(c, e, retry) then [Scheduled(Min(c.backoffMs, retry.maxMs))] else [])
              + (if c.onClose && (e.SocketClosed? || e.status == 401) then [CalledClose] else []);
    LossLog(c, e, retry);
    EffectsAre(c, e, retry, es);
  }

  lemma LossLog(c: Client, e: Event, retry: Retry)
    requires Invariant(c, retry) && (e.SocketClosed? || e.UnexpectedResponse?) && c.ws == Some(e.s)
    ensures Step(c, e, retry).log
            == c.log + ((if Reconnects(c, e, retry) then [Scheduled(Min(c.backoffMs, retry.maxMs))] else [])
                        + (if c.onClose && (e.SocketClosed? || e.status == 401) then [CalledClose] else []))
  {
  }

  /** An error that mentions 401 leaves the client connected, and ends it with the close that follows,
      whatever its code; another error changes nothing. */
  lemma ErrorThenClose(c: Client, s: Socket, mentions401: bool, code: int, retry: Retry)
    requires Invariant(c, retry) && c.ws == Some(s)
    ensures var warned := Step(c, SocketError(s, mentions401), retry);
            && warned.ws == c.ws && warned.ready == c.ready && (!mentions401 ==> warned == c)
            && (mentions401 ==> Terminal(Step(warned, SocketClosed(s, code), retry)))
  {
    var warned := Step(c, SocketError(s, mentions401), retry);
    StepKeepsInvariant(c, SocketError(s, mentions401), retry);
    LostConnection(warned, SocketClosed(s, code), retry);
  }

  /** What an answered message is worth: a pong for a ping, a callback for a JSON text. */
  function Reaction(s: Socket, payload: Payload, rs: ReadyState, ok: bool): seq<Effect> {
    match payload
    case PingText => if rs == OPEN && ok then [SentPong(s)] else []
    case Json(msg) => [CalledMessage(msg)]
    case _ => []
  }

  lemma MessageReaction(c: Client, s: Socket, payload: Payload, rs: ReadyState, ok: bool)
    ensures OnMessage(c, s, payload, rs, ok).log == c.log + Reaction(s, payload, rs, ok)
  {
    assert c.log + [] == c.log;
  }

  lemma ReceivedEffects(c: Client, e: Event, retry: Retry)
    requires e.Received?
    ensures NewEffects(c, e, retry) == if c.ws == Some(e.s) then Reaction(e.s, e.payload, e.rs, e.ok) else []
  {
    MessageReaction(c, e.s, e.payload, e.rs, e.ok);
    assert c.log + [] == c.log;
    EffectsAre(c, e, retry, if c.ws == Some(e.s) then Reaction(e.s, e.payload, e.rs, e.ok) else []);
  }

  /** A ping on the current socket is answered with a pong on it, if it is open and takes one; a pong, a text
      that is no JSON, and anything on another socket has no effect at all. */
  lemma PingsAreAnswered(c: Client, s: Socket, payload: Payload, rs: ReadyState, ok: bool, retry: Retry)
    requires !payload.Json?
    ensures NewEffects(c, Received(s, payload, rs, ok), retry)
            == if payload == PingText && c.ws == Some(s) && rs == OPEN && ok then [SentPong(s)] else []
    ensures !(payload == PingText && c.ws == Some(s) && rs == OPEN && ok) ==>
              Step(c, Received(s, payload, rs, ok), retry) == c
  {
    ReceivedEffects(c, Received(s, payload, rs, ok), retry);
  }

  /** What all events but messages and losses do to the outside. */
  function OtherEffects(c: Client, e: Event): seq<Effect> {
    if IsStale(c, e) then []
    else if Wants(c, e) then if c.ws.None? || !LivingState(e.rs) then [Created(c.created)] else []
    else if e.StopCall? && c.ws.Some? then [ClosedSocket(c.ws.value)]
    else if e.SendCall? && c.ws.Some? && c.ready && e.rs == OPEN && e.ok then [Sent(c.ws.value, e.msg)]
    else if e.PingFires? && c.ws.Some? && c.pingTimer && e.rs == OPEN && e.ok then [SentPing(c.ws.value)]
    else if e.Opened? then [CalledReady]
    else []
  }

  lemma OtherLog(c: Client, e: Event, retry: Retry)
    requires !e.Received? && !e.SocketClosed? && !e.UnexpectedResponse?
    ensures Step(c, e, retry).log == c.log + OtherEffects(c, e)
  {
    assert c.log + [] == c.log;
    if IsSocketEvent(e) {
      SocketLog(c, e, retry);
    } else if e.StartCall? || e.TimerFires? {
      ConnectLog(c, e, retry);
    }
  }

  lemma SocketLog(c: Client, e: Event, retry: Retry)
    requires e.Opened? || e.SocketError?
    ensures Step(c, e, retry).log == c.log + OtherEffects(c, e)
  {
    assert c.log + [] == c.log;
  }

  lemma ConnectLog(c: Client, e: Event, retry: Retry)
    requires e.StartCall? || e.TimerFires?
    ensures Step(c, e, retry).log == c.log + OtherEffects(c, e)
  {
    assert c.log + [] == c.log;
  }

  lemma OthersAre(c: Client, e: Event, retry: Retry)
    requires !e.Received? && !e.SocketClosed? && !e.UnexpectedResponse?
    ensures NewEffects(c, e, retry) == OtherEffects(c, e)
  {
    OtherLog(c, e, retry);
    EffectsAre(c, e, retry, OtherEffects(c, e));
  }

  lemma NothingIfStale(c: Client, e: Event, retry: Retry)
    requires IsStale(c, e)
    ensures NewEffects(c, e, retry) == []
  {
    assert c.log + [] == c.log;
    EffectsAre(c, e, retry, []);
  }

  /** No other event schedules a reconnect. */
  lemma OnlyLossesRetry(c: Client, e: Event, retry: Retry)
    requires IsStale(c, e) || (!e.SocketClosed? && !e.UnexpectedResponse?)
    ensures !Retries(c, e, retry)
  {
    if IsStale(c, e) {
      NothingIfStale(c, e, retry);
    } else if e.Received? {
      ReceivedEffects(c, e, retry);
    } else {
      OthersAre(c, e, retry);
    }
  }

  /** Whatever calls and events came before: nothing is scheduled while a reconnect is pending, by a client
      that was stopped, turned away or evicted, or beyond the retry limit. */
  lemma OneTimer(c: Client, e: Event, retry: Retry)
    requires c.reconnectTimer || Flagged(c) || Exhausted(c, retry)
    ensures !Retries(c, e, retry)
  {
    if !IsStale(c, e) && (e.SocketClosed? || e.UnexpectedResponse?) {
      NoRetry(c, e, retry);
    } else {
      OnlyLossesRetry(c, e, retry);
    }
  }

  lemma NoRetry(c: Client, e: Event, retry: Retry)
    requires c.reconnectTimer || Flagged(c) || Exhausted(c, retry)
    requires (e.SocketClosed? || e.UnexpectedResponse?) && c.ws == Some(e.s)
    ensures !Retries(c, e, retry)
  {
    var log' := Step(c, e, retry).log;
    assert forall i :: |c.log| <= i < |log'| ==> log'[i] == CalledClose;
  }

  /** What the callback for messages was called with, in order. */
  function MessagesTo(log: seq<Effect>): seq<string> {
    if log == [] then []
    else (if log[0].CalledMessage? then [log[0].msg] else []) + MessagesTo(log[1..])
  }

  /** The JSON texts that arrive on sockets that are current at that time. */
  function Arriving(c: Client, events: seq<Event>, retry: Retry): seq<string>
    decreases |events|
  {
    if events == [] then []
    else
      var e := events[0];
      (if e.Received? && e.payload.Json? && c.ws == Some(e.s) then [e.payload.msg] else [])
      + Arriving(Step(c, e, retry), events[1..], retry)
  }

  lemma {:induction false} MessagesToBoth(a: seq<Effect>, b: seq<Effect>)
    ensures MessagesTo(a + b) == MessagesTo(a) + MessagesTo(b)
    decreases |a|
  {
    if a == [] {
      assert a + b == b && [] + MessagesTo(b) == MessagesTo(b);
    } else {
      assert (a + b)[1..] == a[1..] + b;
      MessagesToBoth(a[1..], b);
      Regroup(if a[0].CalledMessage? then [a[0].msg] else [], MessagesTo(a[1..]), MessagesTo(b));
    }
  }

  lemma Regroup(a: seq<string>, b: seq<string>, c: seq<string>)
    ensures a + (b + c) == (a + b) + c
  {
  }

  lemma StepMessages(c: Client, e: Event, retry: Retry)
    ensures MessagesTo(NewEffects(c, e, retry))
            == if e.Received? && e.payload.Json? && c.ws == Some(e.s) then [e.payload.msg] else []
  {
    if e.Received? {
      ReceivedEffects(c, e, retry);
    } else {
      NoMessages(c, e, retry);
    }
  }

  /** Which kinds of effects an event can have. */
  lemma EffectKinds(c: Client, e: Event, retry: Retry)
    requires !e.Received?
    ensures forall x :: x in NewEffects(c, e, retry) ==> !x.CalledMessage?
    ensures e.SocketClosed? || e.UnexpectedResponse? ==>
              forall x :: x in NewEffects(c, e, retry) ==> x.Scheduled? || x.CalledClose?
  {
    if e.SocketClosed? || e.UnexpectedResponse? {
      LossKinds(c, e, retry);
    } else {
      OthersAre(c, e, retry);
    }
  }

  lemma LossKinds(c: Client, e: Event, retry: Retry)
    requires e.SocketClosed? || e.UnexpectedResponse?
    ensures forall x :: x in NewEffects(c, e, retry) ==> x.Scheduled? || x.CalledClose?
  {
    var log' := Step(c, e, retry).log;
    assert forall i :: |c.log| <= i < |log'| ==> log'[i].Scheduled? || log'[i].CalledClose?;
  }

  lemma NoMessages(c: Client, e: Event, retry: Retry)
    requires !e.Received?
    ensures MessagesTo(NewEffects(c, e, retry)) == []
  {
    EffectKinds(c, e, retry);
    OthersAreNoMessages(NewEffects(c, e, retry));
  }

  lemma {:induction false} OthersAreNoMessages(es: seq<Effect>)
    requires forall x :: x in es ==> !x.CalledMessage?
    ensures MessagesTo(es) == []
    decreases |es|
  {
    if es != [] {
      assert es[0] in es && forall x :: x in es[1..] ==> x in es;
      OthersAreNoMessages(es[1..]);
    }
  }

  /** Over any run, the agent gets every JSON text that arrives on a current socket, once and in order, and
      nothing else. */
  lemma {:induction false} MessagesReachAgent(c: Client, events: seq<Event>, retry: Retry)
    ensures MessagesTo(Run(c, events, retry).log) == MessagesTo(c.log) + Arriving(c, events, retry)
    decreases |events|
  {
    if events == [] {
      assert MessagesTo(c.log) + [] == MessagesTo(c.log);
    } else {
      var e := events[0];
      MessagesReachAgent(Step(c, e, retry), events[1..], retry);
      MessagesToBoth(c.log, NewEffects(c, e, retry));
      StepMessages(c, e, retry);
      Regroup(MessagesTo(c.log), MessagesTo(NewEffects(c, e, retry)), Arriving(Step(c, e, retry), events[1..], retry));
    }
  }

  /** The events at which the client wants a connection. */
  predicate Wants(c: Client, e: Event) {
    e.StartCall? || (e.TimerFires? && c.reconnectTimer && !c.closing)
  }

  predicate LivingState(rs: ReadyState) {
    rs == CONNECTING || rs == OPEN
  }

  /** A socket is created exactly if the client wants one and its current one, if any, is on its way down;
      it is then the current one. */
  lemma CreatesIff(c: Client, e: Event, retry: Retry)
    ensures (exists s :: Created(s) in NewEffects(c, e, retry))
            <==> Wants(c, e) && (c.ws.None? || !LivingState(e.rs))
    ensures Wants(c, e) && (c.ws.None? || !LivingState(e.rs)) ==>
              NewEffects(c, e, retry) == [Created(c.created)] && Step(c, e, retry).ws == Some(c.created)
  {
    if Wants(c, e) {
      ConnectEffects(c, e, retry);
    } else {
      NothingCreated(c, e, retry);
    }
  }

  lemma ConnectEffects(c: Client, e: Event, retry: Retry)
    requires Wants(c, e)
    ensures NewEffects(c, e, retry) == if c.ws.None? || !LivingState(e.rs) then [Created(c.created)] else []
    ensures c.ws.None? || !LivingState(e.rs) ==> Step(c, e, retry).ws == Some(c.created)
  {
    OthersAre(c, e, retry);
    assert [Created(c.created)][0] == Created(c.created);
  }

  lemma NothingCreated(c: Client, e: Event, retry: Retry)
    requires !Wants(c, e)
    ensures forall x :: x in NewEffects(c, e, retry) ==> !x.Created?
  {
    if e.Received? {
      ReceivedEffects(c, e, retry);
    } else if e.SocketClosed? || e.UnexpectedResponse? {
      LossKinds(c, e, retry);
    } else {
      OthersAre(c, e, retry);
    }
  }

  /** The client replaces a socket that is on its way down and that it has not heard of yet. */
  predicate Replaces(c: Client, e: Event) {
    Wants(c, e) && c.ws.Some? && !LivingState(e.rs)
  }

  predicate NeverReplaces(c: Client, events: seq<Event>, retry: Retry)
    decreases |events|
  {
    events != [] ==> !Replaces(c, events[0]) && NeverReplaces(Step(c, events[0], retry), events[1..], retry)
  }

  /** A client that never replaces a socket is ready exactly while its current socket has opened. */
  lemma ReadyIffOpened(events: seq<Event>, retry: Retry)
    requires NeverReplaces(NewClient(retry), events, retry)
    ensures var c := Run(NewClient(retry), events, retry);
            c.ready <==> c.ws.Some? && LastOpened(NewClient(retry), events, None, retry) == c.ws
  {
    ReadyRun(NewClient(retry), events, None, retry);
  }

  /** Replacing a socket breaks that exactly if the old one was ready: the flag is left over. */
  lemma ReadyIsLeftOver(c: Client, e: Event, last: Option<Socket>, retry: Retry)
    requires ReadyIfOpened(c, last)
    ensures ReadyIfOpened(Step(c, e, retry), if e.Opened? && c.ws == Some(e.s) then c.ws else last)
            <==> !(Replaces(c, e) && c.ready)
  {
    if !Replaces(c, e) {
      StepKeepsReady(c, e, last, retry);
    }
  }

  /** Three events from a new client lead there. */
  lemma RestartLooksReady(retry: Retry)
    ensures var c := Run(NewClient(retry), [StartCall(CLOSED), Opened(0), StartCall(CLOSING)], retry);
            c.ready && c.ws == Some(1)
  {
    var c0, start, open, again := NewClient(retry), StartCall(CLOSED), Opened(0), StartCall(CLOSING);
    var c1 := Step(c0, start, retry);
    var c2 := Step(c1, open, retry);
    RunCons(c0, start, [open, again], retry);
    RunCons(c1, open, [again], retry);
    RunCons(c2, again, [], retry);
    assert [start, open, again] == [start] + [open, again] && [open, again] == [open] + [again];
    assert [again] == [again] + [];
  }

  /** What a client writes: messages and pings go out exactly if it is ready and its current socket is open
      and takes them, and go to that socket. */
  lemma WritesIffReady(events: seq<Event>, msg: string, rs: ReadyState, ok: bool, retry: Retry)
    ensures var c := Run(NewClient(retry), events, retry);
            var goes := c.ready && rs == OPEN && ok;
            && (goes ==> c.ws.Some?)
            && NewEffects(c, SendCall(msg, rs, ok), retry) == (if goes then [Sent(c.ws.value, msg)] else [])
            && NewEffects(c, PingFires(rs, ok), retry) == (if goes then [SentPing(c.ws.value)] else [])
  {
    var c := Run(NewClient(retry), events, retry);
    ReadyTogether(NewClient(retry), events, retry);
    var goes := c.ready && rs == OPEN && ok;
    OthersAre(c, SendCall(msg, rs, ok), retry);
    OthersAre(c, PingFires(rs, ok), retry);
  }

  /** The socket that has opened last while it was the current one. */
  function LastOpened(c: Client, events: seq<Event>, last: Option<Socket>, retry: Retry): Option<Socket>
    decreases |events|
  {
    if events == [] then last
    else
      var e := events[0];
      LastOpened(Step(c, e, retry), events[1..], if e.Opened? && c.ws == Some(e.s) then c.ws else last, retry)
  }

  predicate ReadyIfOpened(c: Client, last: Option<Socket>) {
    && (c.ready <==> c.pingTimer) && (c.ready <==> c.ws.Some? && last == c.ws)
    && (c.ws.Some? ==> c.ws.value < c.created)
    && (last.Some? ==> last.value < c.created)
  }

  /** Being ready, the ping timer and a current socket go together. */
  lemma {:induction false} ReadyTogether(c: Client, events: seq<Event>, retry: Retry)
    requires (c.ready <==> c.pingTimer) && (c.ready ==> c.ws.Some?)
    ensures var c' := Run(c, events, retry);
            (c'.ready <==> c'.pingTimer) && (c'.ready ==> c'.ws.Some?)
    decreases |events|
  {
    if events != [] {
      StepTogether(c, events[0], retry);
      ReadyTogether(Step(c, events[0], retry), events[1..], retry);
    }
  }

  lemma StepTogether(c: Client, e: Event, retry: Retry)
    requires (c.ready <==> c.pingTimer) && (c.ready ==> c.ws.Some?)
    ensures var c' := Step(c, e, retry);
            (c'.ready <==> c'.pingTimer) && (c'.ready ==> c'.ws.Some?)
  {
    if (e.SocketClosed? || e.UnexpectedResponse?) && c.ws == Some(e.s) {
      LossDetaches(c, e, retry);
    }
  }

  lemma LossDetaches(c: Client, e: Event, retry: Retry)
    requires (e.SocketClosed? || e.UnexpectedResponse?) && c.ws == Some(e.s)
    ensures var c' := Step(c, e, retry);
            c'.ws.None? && !c'.ready && !c'.pingTimer && c'.created == c.created
  {
    var d := Detach(c);
    ScheduleKeepsDetached(d, retry);
    assert NotifyClose(MarkAuthFailed(d)).ws.None?;
  }

  lemma ScheduleKeepsDetached(d: Client, retry: Retry)
    ensures var c' := ScheduleReconnect(d, retry);
            c'.ws == d.ws && c'.ready == d.ready && c'.pingTimer == d.pingTimer && c'.created == d.created
  {
  }

  lemma StepKeepsReady(c: Client, e: Event, last: Option<Socket>, retry: Retry)
    requires ReadyIfOpened(c, last) && !Replaces(c, e)
    ensures ReadyIfOpened(Step(c, e, retry), if e.Opened? && c.ws == Some(e.s) then c.ws else last)
  {
    if (e.SocketClosed? || e.UnexpectedResponse?) && c.ws == Some(e.s) {
      LossDetaches(c, e, retry);
    } else if e.StartCall? || e.TimerFires? {
      ConnectKeepsReady(c, e, last, retry);
    }
  }

  lemma ConnectKeepsReady(c: Client, e: Event, last: Option<Socket>, retry: Retry)
    requires ReadyIfOpened(c, last) && !Replaces(c, e) && (e.StartCall? || e.TimerFires?)
    ensures ReadyIfOpened(Step(c, e, retry), last)
  {
  }

  lemma {:induction false} ReadyRun(c: Client, events: seq<Event>, last: Option<Socket>, retry: Retry)
    requires ReadyIfOpened(c, last) && NeverReplaces(c, events, retry)
    ensures ReadyIfOpened(Run(c, events, retry), LastOpened(c, events, last, retry))
    decreases |events|
  {
    if events != [] {
      var e := events[0];
      StepKeepsReady(c, e, last, retry);
      ReadyRun(Step(c, e, retry), events[1..], if e.Opened? && c.ws == Some(e.s) then c.ws else last, retry);
    }
  }

  /** The monitor of a new client is told of every close of its current socket. */
  lemma CloseIsTold(events: seq<Event>, e: Event, retry: Retry)
    requires e.SocketClosed? && Run(NewClient(retry), events, retry).ws == Some(e.s)
    ensures CalledClose in NewEffects(Run(NewClient(retry), events, retry), e, retry)
  {
    var c := Run(NewClient(retry), events, retry);
    CallbackStays(NewClient(retry), events, retry);
    assert Step(c, e, retry).log[|Step(c, e, retry).log| - 1] == CalledClose;
    assert NewEffects(c, e, retry) != [] by {
      LossIsLogged(c, e, retry);
    }
  }

  lemma LossIsLogged(c: Client, e: Event, retry: Retry)
    requires e.SocketClosed? && c.ws == Some(e.s) && c.onClose
    ensures |Step(c, e, retry).log| > |c.log|
  {
  }

  lemma {:induction false} CallbackStays(c: Client, events: seq<Event>, retry: Retry)
    ensures Run(c, events, retry).onClose == c.onClose
    decreases |events|
  {
    if events != [] {
      StepKeepsCallback(c, events[0], retry);
      CallbackStays(Step(c, events[0], retry), events[1..], retry);
    }
  }

  lemma StepKeepsCallback(c: Client, e: Event, retry: Retry)
    ensures Step(c, e, retry).onClose == c.onClose
  {
    if e.SocketClosed? || e.UnexpectedResponse? {
      LossKeepsCallback(c, e, retry);
    } else if e.Received? {
      MessageKeepsCallback(c, e, retry);
    } else if e.StartCall? {
      ConnectKeepsCallback(c.(closing := false, authFailed := false, evicted := false), e.rs);
    } else if e.TimerFires? {
      ConnectKeepsCallback(c.(reconnectTimer := false), e.rs);
    } else {
      OtherKeepsCallback(c, e, retry);
    }
  }

  lemma LossKeepsCallback(c: Client, e: Event, retry: Retry)
    requires e.SocketClosed? || e.UnexpectedResponse?
    ensures Step(c, e, retry).onClose == c.onClose
  {
    ScheduleKeepsCallback(Detach(c), retry);
    NotifyKeepsCallback(MarkAuthFailed(Detach(c)));
    NotifyKeepsCallback(Detach(c).(evicted := true));
    NotifyKeepsCallback(ScheduleReconnect(Detach(c), retry));
  }

  lemma ScheduleKeepsCallback(c: Client, retry: Retry)
    ensures ScheduleReconnect(c, retry).onClose == c.onClose
  {
  }

  lemma NotifyKeepsCallback(c: Client)
    ensures NotifyClose(c).onClose == c.onClose
  {
  }

  lemma MessageKeepsCallback(c: Client, e: Event, retry: Retry)
    requires e.Received?
    ensures Step(c, e, retry).onClose == c.onClose
  {
  }

  lemma ConnectKeepsCallback(c: Client, rs: ReadyState)
    ensures Connect(c, rs).onClose == c.onClose
  {
  }

  lemma OtherKeepsCallback(c: Client, e: Event, retry: Retry)
    requires e.StopCall? || e.SendCall? || e.PingFires? || e.Opened? || e.SocketError?
    ensures Step(c, e, retry).onClose == c.onClose
  {
  }

  // ---------------------------------------------------------------------------------------------
  // One connection at a time
  // ---------------------------------------------------------------------------------------------

  /** What the network does: a socket goes down on its own, before the client hears of it; or an event
      reaches the client. */
  datatype Happening = GoesDown(s: Socket) | Reaches(e: Event)

  /** A client, and which of its sockets are connecting or open. */
  datatype Line = Line(client: Client, up: set<Socket>)

  /** A created socket is up; one that has closed, was refused, or is closed by the client is not. */
  function OnLine(l: Line, h: Happening, retry: Retry): Line {
    match h
    case GoesDown(s) => l.(up := l.up - {s})
    case Reaches(e) =>
      var lost := if e.SocketClosed? || e.UnexpectedResponse? then {e.s} else {};
      var es := NewEffects(l.client, e, retry);
      Line(Step(l.client, e, retry),
           (l.up - lost - (set x | x in es && x.ClosedSocket? :: x.s)) + (set x | x in es && x.Created? :: x.s))
  }

  /** The ready state the client reads is that of its current socket. */
  predicate Honest(l: Line, h: Happening) {
    h.Reaches? && (h.e.StartCall? || h.e.TimerFires?) && l.client.ws.Some? ==>
      (LivingState(h.e.rs) <==> l.client.ws.value in l.up)
  }

  predicate AllHonest(l: Line, hs: seq<Happening>, retry: Retry)
    decreases |hs|
  {
    hs != [] ==> Honest(l, hs[0]) && AllHonest(OnLine(l, hs[0], retry), hs[1..], retry)
  }

  function Lined(l: Line, hs: seq<Happening>, retry: Retry): Line
    decreases |hs|
  {
    if hs == [] then l else Lined(OnLine(l, hs[0], retry), hs[1..], retry)
  }

  /** Nothing is up but the current socket. */
  ghost predicate OneUp(l: Line) {
    forall s :: s in l.up ==> l.client.ws == Some(s)
  }

  lemma StepKeepsOneUp(l: Line, h: Happening, retry: Retry)
    requires OneUp(l) && Honest(l, h)
    ensures OneUp(OnLine(l, h, retry))
  {
    if h.Reaches? {
      var c, e := l.client, h.e;
      if Wants(c, e) {
        ConnectEffects(c, e, retry);
      } else {
        NothingCreated(c, e, retry);
        SocketKept(c, e, retry);
      }
    }
  }

  /** A current socket is given up only when it is lost or closed. */
  lemma SocketKept(c: Client, e: Event, retry: Retry)
    requires !Wants(c, e)
    ensures || Step(c, e, retry).ws == c.ws
            || ((e.SocketClosed? || e.UnexpectedResponse?) && c.ws == Some(e.s))
            || (c.ws.Some? && ClosedSocket(c.ws.value) in NewEffects(c, e, retry))
  {
    if e.StopCall? && c.ws.Some? {
      OthersAre(c, e, retry);
    }
  }

  /** However often it is started, stopped and reconnected, with or without a pending timer, a client never
      has two connections at once. */
  lemma {:induction false} OneConnection(l: Line, hs: seq<Happening>, retry: Retry)
    requires OneUp(l) && AllHonest(l, hs, retry)
    ensures OneUp(Lined(l, hs, retry)) && |Lined(l, hs, retry).up| <= 1
    decreases |hs|
  {
    if hs != [] {
      StepKeepsOneUp(l, hs[0], retry);
      OneConnection(OnLine(l, hs[0], retry), hs[1..], retry);
    } else if l.up != {} {
      var s :| s in l.up;
      assert l.up == {s};
    }
  }

  // ---------------------------------------------------------------------------------------------
  // Late events of old sockets
  // ---------------------------------------------------------------------------------------------

  /** The run without the events of sockets that were not current when the event came. */
  function Erase(c: Client, events: seq<Event>, retry: Retry): seq<Event>
    decreases |events|
  {
    if events == [] then []
    else
      (if IsStale(c, events[0]) then [] else [events[0]])
      + Erase(Step(c, events[0], retry), events[1..], retry)
  }

  predicate NoStaleEvent(c: Client, events: seq<Event>, retry: Retry)
    decreases |events|
  {
    events != [] ==> !IsStale(c, events[0]) && NoStaleEvent(Step(c, events[0], retry), events[1..], retry)
  }

  /** Stale events can be erased from any run: same client, same timers, same callbacks. */
  lemma {:induction false} StaleEventsErased(c: Client, events: seq<Event>, retry: Retry)
    ensures Run(c, Erase(c, events, retry), retry) == Run(c, events, retry)
    ensures NoStaleEvent(c, Erase(c, events, retry), retry)
    decreases |events|
  {
    if events != [] {
      var rest := Erase(Step(c, events[0], retry), events[1..], retry);
      StaleEventsErased(Step(c, events[0], retry), events[1..], retry);
      if IsStale(c, events[0]) {
        assert Erase(c, events, retry) == rest;
      } else {
        assert Erase(c, events, retry)[1..] == rest;
      }
    }
  }

  // ---------------------------------------------------------------------------------------------
  // Backoff
  // ---------------------------------------------------------------------------------------------

  function Pow2(k: nat): nat {
    if k == 0 then 1 else 2 * Pow2(k - 1)
  }

  /** The k-th delay after the last successful open. */
  function Delay(retry: Retry, k: nat): nat {
    Min(retry.baseMs * Pow2(k), retry.maxMs)
  }

  function Delays(retry: Retry, n: nat): (ds: seq<nat>)
    ensures |ds| == n && forall k :: 0 <= k < n ==> ds[k] == Delay(retry, k)
  {
    if n == 0 then [] else Delays(retry, n - 1) + [Delay(retry, n - 1)]
  }

  /** The delays scheduled since the connection was last open, oldest first. */
  function DelaysSinceOpen(log: seq<Effect>): seq<nat> {
    if log == [] then []
    else
      match log[|log| - 1]
      case CalledReady => []
      case Scheduled(d) => DelaysSinceOpen(log[..|log| - 1]) + [d]
      case _ => DelaysSinceOpen(log[..|log| - 1])
  }

  predicate BackoffInOrder(c: Client, retry: Retry) {
    && c.backoffMs == (if c.attempts == 0 then retry.baseMs else Delay(retry, c.attempts))
    && DelaysSinceOpen(c.log) == Delays(retry, c.attempts)
    && (retry.maxAttempts > 0 ==> c.attempts <= retry.maxAttempts)
  }

  lemma DelaysAppend(log: seq<Effect>, e: Effect)
    ensures DelaysSinceOpen(log + [e])
            == if e.CalledReady? then []
               else if e.Scheduled? then DelaysSinceOpen(log) + [e.delay]
               else DelaysSinceOpen(log)
  {
    assert (log + [e])[..|log|] == log;
  }

  lemma DelayDoubles(retry: Retry, k: nat)
    ensures Min(2 * (if k == 0 then retry.baseMs else Delay(retry, k)), retry.maxMs) == Delay(retry, k + 1)
    ensures Min(if k == 0 then retry.baseMs else Delay(retry, k), retry.maxMs) == Delay(retry, k)
  {
    assert retry.baseMs * (2 * Pow2(k)) == 2 * (retry.baseMs * Pow2(k));
  }

  lemma ScheduleKeepsBackoff(c: Client, retry: Retry)
    requires BackoffInOrder(c, retry)
    ensures BackoffInOrder(ScheduleReconnect(c, retry), retry)
  {
    var c' := ScheduleReconnect(c, retry);
    if c'.attempts == c.attempts + 1 {
      var delay := Min(c.backoffMs, retry.maxMs);
      DelayDoubles(retry, c.attempts);
      DelaysAppend(c.log, Scheduled(delay));
    }
  }

  lemma LogKeepsBackoff(c: Client, x: Effect, retry: Retry)
    requires BackoffInOrder(c, retry) && !x.Scheduled? && !x.CalledReady?
    ensures BackoffInOrder(Log(c, x), retry)
  {
    DelaysAppend(c.log, x);
  }

  lemma ConnectKeepsBackoff(c: Client, rs: ReadyState, retry: Retry)
    requires BackoffInOrder(c, retry)
    ensures BackoffInOrder(Connect(c, rs), retry)
  {
    LogKeepsBackoff(c.(ws := Some(c.created), created := c.created + 1), Created(c.created), retry);
  }

  lemma StopKeepsBackoff(c: Client, retry: Retry)
    requires BackoffInOrder(c, retry)
    ensures BackoffInOrder(Stop(c), retry)
  {
    if c.ws.Some? {
      LogKeepsBackoff(c.(closing := true, ready := false, pingTimer := false, reconnectTimer := false,
                         ws := None), ClosedSocket(c.ws.value), retry);
    }
  }

  lemma MessageKeepsBackoff(c: Client, s: Socket, payload: Payload, rs: ReadyState, ok: bool, retry: Retry)
    requires BackoffInOrder(c, retry)
    ensures BackoffInOrder(OnMessage(c, s, payload, rs, ok), retry)
  {
    LogKeepsBackoff(c, SentPong(s), retry);
    if payload.Json? {
      LogKeepsBackoff(c, CalledMessage(payload.msg), retry);
    }
  }

  lemma StartKeepsBackoff(c: Client, rs: ReadyState, retry: Retry)
    requires BackoffInOrder(c, retry)
    ensures BackoffInOrder(Start(c, rs), retry)
  {
    ConnectKeepsBackoff(c.(closing := false, authFailed := false, evicted := false), rs, retry);
  }

  lemma TimerKeepsBackoff(c: Client, rs: ReadyState, retry: Retry)
    requires BackoffInOrder(c, retry)
    ensures BackoffInOrder(OnTimer(c, rs), retry)
  {
    ConnectKeepsBackoff(c.(reconnectTimer := false), rs, retry);
  }

  /** The delays begin anew. */
  lemma OpenKeepsBackoff(c: Client, retry: Retry)
    requires BackoffInOrder(c, retry)
    ensures BackoffInOrder(OnOpen(c, retry), retry)
  {
    DelaysAppend(c.log, CalledReady);
  }

  lemma CloseKeepsBackoff(c: Client, code: int, retry: Retry)
    requires BackoffInOrder(c, retry)
    ensures BackoffInOrder(OnSocketClose(c, code, retry), retry)
  {
    var d := Detach(c);
    if code == UNAUTHORIZED {
      LogKeepsBackoff(MarkAuthFailed(d), CalledClose, retry);
    } else if code == EVICTED {
      LogKeepsBackoff(d.(evicted := true), CalledClose, retry);
    } else {
      ScheduleKeepsBackoff(d, retry);
      LogKeepsBackoff(ScheduleReconnect(d, retry), CalledClose, retry);
    }
  }

  lemma ResponseKeepsBackoff(c: Client, status: int, retry: Retry)
    requires BackoffInOrder(c, retry)
    ensures BackoffInOrder(OnUnexpectedResponse(c, status, retry), retry)
  {
    var d := Detach(c);
    if status == 401 {
      LogKeepsBackoff(MarkAuthFailed(d), CalledClose, retry);
    } else {
      ScheduleKeepsBackoff(d, retry);
    }
  }

  lemma StepKeepsBackoff(c: Client, e: Event, retry: Retry)
    requires BackoffInOrder(c, retry)
    ensures BackoffInOrder(Step(c, e, retry), retry)
  {
    if IsStale(c, e) {
      return;
    }
    match e {
      case StartCall(rs) => StartKeepsBackoff(c, rs, retry);
      case StopCall => StopKeepsBackoff(c, retry);
      case SendCall(msg, _, _) => LogKeepsBackoff(c, Sent(c.ws.GetOr(0), msg), retry);
      case TimerFires(rs) => TimerKeepsBackoff(c, rs, retry);
      case PingFires(_, _) => LogKeepsBackoff(c, SentPing(c.ws.GetOr(0)), retry);
      case Opened(_) => OpenKeepsBackoff(c, retry);
      case Received(s, payload, rs, ok) => MessageKeepsBackoff(c, s, payload, rs, ok, retry);
      case SocketClosed(_, code) => CloseKeepsBackoff(c, code, retry);
      case UnexpectedResponse(_, status) => ResponseKeepsBackoff(c, status, retry);
      case SocketError(_, _) =>
    }
  }

  lemma {:induction false} RunKeepsBackoff(c: Client, events: seq<Event>, retry: Retry)
    requires BackoffInOrder(c, retry)
    ensures BackoffInOrder(Run(c, events, retry), retry)
    decreases |events|
  {
    if events != [] {
      StepKeepsBackoff(c, events[0], retry);
      RunKeepsBackoff(Step(c, events[0], retry), events[1..], retry);
    }
  }

  /** The closed form of the backoff, over any run of a new client: the delays since the connection was
      last open are min(base * 2^k, max) for k = 0, 1, ..., there are `attempts` of them, and a
      positive limit is never exceeded. */
  lemma BackoffClosedForm(events: seq<Event>, retry: Retry)
    ensures var c := Run(NewClient(retry), events, retry);
            && DelaysSinceOpen(c.log) == Delays(retry, c.attempts)
            && (retry.maxAttempts > 0 ==> c.attempts <= retry.maxAttempts)
  {
    RunKeepsBackoff(NewClient(retry), events, retry);
  }

  // ---------------------------------------------------------------------------------------------
  // Evictions
  // ---------------------------------------------------------------------------------------------

  /** A 4005 close the client accepts: it comes from its current socket. */
  predicate AcceptsEviction(c: Client, e: Event) {
    e.SocketClosed? && e.code == 4005 && !IsStale(c, e)
  }

  function AcceptedEvictions(c: Client, events: seq<Event>, retry: Retry): nat
    decreases |events|
  {
    if events == [] then 0
    else Bit(AcceptsEviction(c, events[0])) + AcceptedEvictions(Step(c, events[0], retry), events[1..], retry)
  }

  function StartCalls(events: seq<Event>): nat {
    if events == [] then 0 else Bit(events[0].StartCall?) + StartCalls(events[1..])
  }

  /** Connected, or about to reconnect. */
  predicate Live(c: Client) {
    c.ws.Some? || c.reconnectTimer
  }

  lemma StepLives(c: Client, e: Event, retry: Retry)
    requires Invariant(c, retry)
    ensures Bit(AcceptsEviction(c, e)) + Bit(Live(Step(c, e, retry))) <= Bit(Live(c)) + Bit(e.StartCall?)
  {
  }

  /** Each accepted eviction ends a life of the client, and only start() begins one. */
  lemma {:induction false} EvictionsBoundedByStarts(c: Client, events: seq<Event>, retry: Retry)
    requires Invariant(c, retry) && StartsWhenIdle(c, events, retry)
    ensures AcceptedEvictions(c, events, retry) + Bit(Live(Run(c, events, retry)))
            <= Bit(Live(c)) + StartCalls(events)
    decreases |events|
  {
    if events != [] {
      StepKeepsInvariant(c, events[0], retry);
      StepLives(c, events[0], retry);
      EvictionsBoundedByStarts(Step(c, events[0], retry), events[1..], retry);
    }
  }
}
