/** Which bots count as online: the single and the bulk check, the summary, the count, the status monitor
    that ends chats of vanished bots, and the cleanup that forgets them. */
module Liveness {
  import opened Prelude
  import opened Rings
  import opened Bridges
  import opened Clusters

  /** The heartbeat is fresh. */
  predicate IsBotConnected(alive: map<Token, int>, t: Token, now: int) {
    t in alive && now - alive[t] < BOT_TTL
  }

  /** The range query of the summary and the count, whose lower bound is exclusive. */
  function ConnectionsSummary(alive: map<Token, int>, now: int): set<Token> {
    set t | t in alive && alive[t] > now - BOT_TTL
  }

  function CountOnlineBots(alive: map<Token, int>, now: int): nat {
    |ConnectionsSummary(alive, now)|
  }

  /** `unread` are the tokens whose score the pipeline failed to read. */
  method BulkCheckBotOnline(alive: map<Token, int>, tokens: seq<Token>, unread: set<Token>, now: int)
    returns (online: map<Token, bool>)
    ensures forall t :: t in online <==> t in tokens && t !in unread && IsBotConnected(alive, t, now)
    ensures forall t :: t in online ==> online[t]
  {
    var cutoff := now - 30;
    online := map[];
    var i := 0;
    while i < |tokens|
      invariant 0 <= i <= |tokens|
      invariant forall t :: t in online <==> t in tokens[..i] && t !in unread && IsBotConnected(alive, t, now)
      invariant forall t :: t in online ==> online[t]
    {
      var t := tokens[i];
      if t !in unread && t in alive && alive[t] > cutoff {
        online := online[t := true];
      }
      assert tokens[..i + 1] == tokens[..i] + [t];
      i := i + 1;
    }
  }

  // ---------------------------------------------------------------------------------------------
  // The status monitor
  // ---------------------------------------------------------------------------------------------

  /** A chat stream that waits for a bot; its channel holds one notification. */
  datatype SSEConnection = SSEConnection(token: Token, sessionID: string, notified: bool)

  class BotStatusMonitor {
    var sseConnections: map<string, SSEConnection>

    constructor ()
      ensures sseConnections == map[]
    {
      sseConnections := map[];
    }

    method RegisterSSEConnection(token: Token, sessionID: string, inboxKey: string)
      modifies this
      ensures sseConnections == old(sseConnections)[inboxKey := SSEConnection(token, sessionID, false)]
    {
      sseConnections := sseConnections[inboxKey := SSEConnection(token, sessionID, false)];
    }

    method UnregisterSSEConnection(inboxKey: string)
      modifies this
      ensures sseConnections == old(sseConnections) - {inboxKey}
    {
      sseConnections := sseConnections - {inboxKey};
    }

    /** All streams of the token are told, and no other. */
    method NotifyBotDisconnected(t: Token)
      modifies this
      ensures sseConnections.Keys == old(sseConnections).Keys
      ensures forall k :: k in sseConnections ==>
                var c := old(sseConnections)[k];
                sseConnections[k] == c.(notified := c.notified || c.token == t)
    {
      var todo := sseConnections.Keys;
      while todo != {}
        invariant todo <= sseConnections.Keys == old(sseConnections).Keys
        invariant forall k :: k in sseConnections ==>
                    var c := old(sseConnections)[k];
                    sseConnections[k] == c.(notified := c.notified || (k !in todo && c.token == t))
      {
        var k :| k in todo;
        if sseConnections[k].token == t && !sseConnections[k].notified {
          sseConnections := sseConnections[k := sseConnections[k].(notified := true)];
        }
        todo := todo - {k};
      }
    }

    /** One tick.  A stream is told exactly when its bot's score was read and the bot is not connected;
        nothing else changes. */
    method CheckAllBots(alive: map<Token, int>, unread: set<Token>, now: int)
      modifies this
      ensures sseConnections.Keys == old(sseConnections).Keys
      ensures forall k :: k in sseConnections ==>
                var c := old(sseConnections)[k];
                sseConnections[k]
                == c.(notified := c.notified || (c.token !in unread && !IsBotConnected(alive, c.token, now)))
    {
      var tokens := set k | k in sseConnections :: sseConnections[k].token;
      var todo := tokens;
      while todo != {}
        invariant todo <= tokens && sseConnections.Keys == old(sseConnections).Keys
        invariant forall k :: k in sseConnections ==>
                    var c := old(sseConnections)[k];
                    sseConnections[k]
                    == c.(notified := c.notified || (c.token !in todo && c.token !in unread
                                                     && !IsBotConnected(alive, c.token, now)))
      {
        var t :| t in todo;
        if t !in unread {
          if t !in alive {
            NotifyBotDisconnected(t);
          } else if now - alive[t] >= 30 {
            NotifyBotDisconnected(t);
          }
        }
        todo := todo - {t};
      }
    }
  }

  // ---------------------------------------------------------------------------------------------
  // Agreement
  // ---------------------------------------------------------------------------------------------

  /** At any one instant all checks draw the same line, and the cleanup removes exactly the tokens beyond
      it. */
  lemma AllAgree(sh: Shared, t: Token, now: int)
    ensures t in ConnectionsSummary(sh.alive, now) <==> IsBotConnected(sh.alive, t, now)
    ensures t in Expired(sh, now) <==> t in sh.alive && !IsBotConnected(sh.alive, t, now)
    ensures t in CleanupExpired(sh, now).alive <==> IsBotConnected(sh.alive, t, now)
    ensures CountOnlineBots(sh.alive, now) == |CleanupExpired(sh, now).alive|
    ensures CountOnlineBots(sh.alive, now) + |Expired(sh, now)| == |sh.alive|
  {
    var online, expired := ConnectionsSummary(sh.alive, now), Expired(sh, now);
    var kept := CleanupExpired(sh, now).alive;
    assert kept.Keys == online && |kept| == |kept.Keys|;
    assert online + expired == sh.alive.Keys && online !! expired;
    assert |online + expired| == |online| + |expired|;
  }

  // ---------------------------------------------------------------------------------------------
  // Registration
  // ---------------------------------------------------------------------------------------------

  /** A bot whose registration succeeded, and whose heartbeat was written, counts as connected for 30 s from
      the time of the registration, and a cleanup takes its keys exactly if it works with a later time. */
  lemma RegistrationIsSeen(sh: Shared, l: Local, w: WorkerId, t: Token, c: Conn, now: int, faults: RegisterFaults,
                           later: int)
    requires Register(sh, l, w, t, c, now, faults).ok && !faults.zadd
    ensures var after := Register(sh, l, w, t, c, now, faults).shared;
            && Lookup(after.owner, t) == Some(w)
            && (IsBotConnected(after.alive, t, later) <==> later - now < 30)
            && (KeysKept(after, CleanupExpired(after, later), t) <==> later - now < 30)
  {
    var after := Register(sh, l, w, t, c, now, faults).shared;
    assert t in after.owner && t in after.gen && after.alive[t] == now;
    assert t in Expired(after, later) <==> now <= later - BOT_TTL;
  }

  // ---------------------------------------------------------------------------------------------
  // Runs
  // ---------------------------------------------------------------------------------------------

  /** An operation of the cluster at its time, or somebody who looks. */
  datatype Moment = Acts(a: Action, now: int) | Looks(now: int)

  function OnMoment(s: Cluster, m: Moment): Cluster {
    if m.Acts? then Step(s, m.a) else s
  }

  function OnMoments(s: Cluster, ms: seq<Moment>): Cluster
    decreases |ms|
  {
    if ms == [] then s else OnMoments(OnMoment(s, ms[0]), ms[1..])
  }

  /** Registrations and heartbeats write the time at which they happen; a cleanup works with a time it took
      before. */
  predicate OnTime(m: Moment) {
    m.Acts? ==>
      && (m.a.DoRegister? || m.a.DoHeartbeat? ==> m.a.now == m.now)
      && (m.a.DoCleanup? ==> m.a.now <= m.now)
  }

  /** Time does not run backwards. */
  ghost predicate Timed(ms: seq<Moment>, now: int)
    decreases |ms|
  {
    ms != [] ==> now <= ms[0].now && OnTime(ms[0]) && Timed(ms[1..], ms[0].now)
  }

  function End(ms: seq<Moment>, now: int): int
    decreases |ms|
  {
    if ms == [] then now else End(ms[1..], ms[0].now)
  }

  /** The token's heartbeat is written: by a registration that gets that far, or by a worker that serves
      the bot. */
  predicate Refreshes(s: Cluster, m: Moment, t: Token) {
    && m.Acts? && !m.a.DoCleanup? && m.a.w in s.workers
    && var l := s.workers[m.a.w];
       || (m.a.DoRegister? && m.a.t == t && !l.shuttingDown && !m.a.faults.incr && !m.a.faults.zadd)
       || (m.a.DoHeartbeat? && t in l.bots)
  }

  /** The token's keys are removed on purpose: by an unregistration, a removal or a shutdown that its guard
      lets through. */
  predicate Removes(s: Cluster, m: Moment, t: Token) {
    && m.Acts? && !m.a.DoCleanup? && m.a.w in s.workers
    && var l := s.workers[m.a.w];
       var newer := NewerGen(s.shared, t, LocalGen(l, t));
       || (m.a.DoUnregister? && m.a.t == t && !TakenOver(l, t, Some(m.a.c)) && (m.a.readFails || !newer))
       || (m.a.DoRemove? && m.a.t == t && (t !in l.bots || m.a.readFails || !newer))
       || (m.a.DoShutdown? && t in l.bots && (t in m.a.unreadable || !newer))
  }

  /** The time of the last refresh of a token since it was last removed. */
  function LastRefresh(s: Cluster, ms: seq<Moment>, t: Token, last: Option<int>): Option<int>
    decreases |ms|
  {
    if ms == [] then last else LastRefresh(OnMoment(s, ms[0]), ms[1..], t, Refreshed(s, ms[0], t, last))
  }

  function Refreshed(s: Cluster, m: Moment, t: Token, last: Option<int>): Option<int> {
    if Refreshes(s, m, t) then Some(m.now) else if Removes(s, m, t) then None else last
  }

  /** The heartbeat entry of a token refreshed last at `last`: it is there, or it is long out of date. */
  predicate Entry(sh: Shared, t: Token, last: Option<int>, now: int) {
    if t in sh.alive then last == Some(sh.alive[t]) else last.None? || now >= last.value + 30
  }

  lemma EntryStep(s: Cluster, m: Moment, t: Token, last: Option<int>, now: int)
    requires Entry(s.shared, t, last, now) && now <= m.now && OnTime(m)
    ensures Entry(OnMoment(s, m).shared, t, Refreshed(s, m, t, last), m.now)
  {
    if m.Acts? && !m.a.DoCleanup? && m.a.w in s.workers {
      AliveStep(s, m, t);
    }
  }

  /** What an operation of a worker does to the heartbeat of a token. */
  lemma AliveStep(s: Cluster, m: Moment, t: Token)
    requires m.Acts? && !m.a.DoCleanup? && m.a.w in s.workers && OnTime(m)
    ensures Lookup(Step(s, m.a).shared.alive, t)
            == if Refreshes(s, m, t) then Some(m.now) else if Removes(s, m, t) then None
               else Lookup(s.shared.alive, t)
  {
  }

  lemma {:induction false} EntryRun(s: Cluster, ms: seq<Moment>, t: Token, last: Option<int>, now: int)
    requires Timed(ms, now) && Entry(s.shared, t, last, now)
    ensures Entry(OnMoments(s, ms).shared, t, LastRefresh(s, ms, t, last), End(ms, now))
    decreases |ms|
  {
    if ms != [] {
      EntryStep(s, ms[0], t, last, now);
      EntryRun(OnMoment(s, ms[0]), ms[1..], t, Refreshed(s, ms[0], t, last), ms[0].now);
    }
  }

  /** After any run of the cluster with any faults, a token counts as connected exactly when its heartbeat
      was written less than 30 s ago and it was not removed since, whatever cleanups there were. */
  lemma ConnectedIffRefreshed(ws: set<WorkerId>, ms: seq<Moment>, t: Token, start: int)
    requires Timed(ms, start)
    ensures var last := LastRefresh(Start(ws), ms, t, None);
            IsBotConnected(OnMoments(Start(ws), ms).shared.alive, t, End(ms, start))
            <==> last.Some? && End(ms, start) - last.value < 30
  {
    EntryRun(Start(ws), ms, t, None, start);
  }

  /** Whenever something happens, the last refresh of the token is less than 30 s old and it is not removed
      on purpose. */
  ghost predicate KeptFresh(s: Cluster, ms: seq<Moment>, t: Token, last: int)
    decreases |ms|
  {
    ms != [] ==>
      && ms[0].now - last < 30 && !Removes(s, ms[0], t)
      && KeptFresh(OnMoment(s, ms[0]), ms[1..], t, if Refreshes(s, ms[0], t) then ms[0].now else last)
  }

  /** Everybody who looks finds the token connected. */
  predicate SeenConnected(s: Cluster, ms: seq<Moment>, t: Token)
    decreases |ms|
  {
    ms != [] ==>
      && (ms[0].Looks? ==> IsBotConnected(s.shared.alive, t, ms[0].now))
      && SeenConnected(OnMoment(s, ms[0]), ms[1..], t)
  }

  /** The token keeps its owner, if it has one, or gets another; its generation does not go back. */
  predicate KeysStay(sh: Shared, sh': Shared, t: Token) {
    && t in sh'.alive
    && (t in sh.owner ==> t in sh'.owner)
    && (t in sh.gen ==> t in sh'.gen && sh'.gen[t] >= sh.gen[t])
  }

  lemma FreshStep(s: Cluster, m: Moment, t: Token, last: int)
    requires t in s.shared.alive && s.shared.alive[t] == last && OnTime(m)
    requires m.now - last < 30 && !Removes(s, m, t)
    ensures var s' := OnMoment(s, m);
            && KeysStay(s.shared, s'.shared, t)
            && s'.shared.alive[t] == if Refreshes(s, m, t) then m.now else last
  {
    if m.Acts? && !m.a.DoCleanup? && m.a.w in s.workers {
      AliveStep(s, m, t);
    }
  }

  /** A bot refreshed at gaps under 30 s and not removed is never seen disconnected, and keeps its heartbeat,
      an owner and its generation throughout, whatever happens to the other bots. */
  lemma {:induction false} RefreshedIsKept(s: Cluster, ms: seq<Moment>, t: Token, last: int, now: int)
    requires t in s.shared.alive && s.shared.alive[t] == last
    requires Timed(ms, now) && KeptFresh(s, ms, t, last)
    ensures SeenConnected(s, ms, t) && KeysStay(s.shared, OnMoments(s, ms).shared, t)
    decreases |ms|
  {
    if ms != [] {
      var s' := OnMoment(s, ms[0]);
      FreshStep(s, ms[0], t, last);
      RefreshedIsKept(s', ms[1..], t, s'.shared.alive[t], ms[0].now);
    }
  }

  // ---------------------------------------------------------------------------------------------
  // Whole seconds
  // ---------------------------------------------------------------------------------------------

  /** Scores and checks are whole clock seconds, so that the age a check sees depends on the phase of the
      clock.  A bot whose last refresh is really `gap` seconds ago is connected at every phase exactly if
      the gap is at most 29 seconds. */
  lemma SafeGap(t: Token, gap: real)
    requires gap >= 0.0
    ensures (forall x: real :: x >= 0.0 ==> IsBotConnected(map[t := x.Floor], t, (x + gap).Floor))
            <==> gap <= 29.0
  {
    if gap <= 29.0 {
      forall x: real | x >= 0.0 ensures IsBotConnected(map[t := x.Floor], t, (x + gap).Floor) {
      }
    } else {
      var x := if gap < 30.0 then 30.0 - gap else 0.0;
      assert x.Floor == 0 && (x + gap).Floor >= 30;
      assert !IsBotConnected(map[t := x.Floor], t, (x + gap).Floor);
    }
  }
}
