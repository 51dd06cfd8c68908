/** One bridge worker and the keys all workers share.

    The functions say what each operation does to the two values `Shared` (generation counters, owner
    keys, heartbeat scores) and `Local` (one worker's connections, generations and ring).  The class
    `ConnectionBridge` is the code's worker, whose methods update these step by step. */
module Bridges {
  import opened Prelude
  import opened Rings

  type WorkerId = string

  /** The identity of one WebSocket connection. */
  type Conn = nat

  const BOT_TTL: int := 30

  // Close codes sent to a bot.
  const SERVER_RESTART: int := 4000
  const TOKEN_DELETED: int := 4003
  const EVICTED: int := 4005

  datatype Shared = Shared(
    gen: map<Token, int>,
    owner: map<Token, WorkerId>,
    alive: map<Token, int>)

  datatype Local = Local(
    bots: map<Token, Conn>,
    gens: map<Token, int>,
    ring: Ring,
    closed: map<Conn, int>,
    shuttingDown: bool)

  const EmptyShared := Shared(map[], map[], map[])
  const FreshLocal := Local(map[], map[], EmptyRing, map[], false)

  /** The connections, the generations and the ring of a worker speak of the same tokens. */
  ghost predicate Agreement(l: Local) {
    ValidRing(l.ring) && l.bots.Keys == l.gens.Keys == Tracked(l.ring)
  }

  // ---------------------------------------------------------------------------------------------
  // Local steps
  // ---------------------------------------------------------------------------------------------

  /** Only the first close of a connection takes effect. */
  function CloseOnce(closed: map<Conn, int>, c: Conn, code: int): map<Conn, int> {
    if c in closed then closed else closed[c := code]
  }

  function CloseAll(closed: map<Conn, int>, cs: set<Conn>, code: int): map<Conn, int> {
    (map c | c in cs :: code) + closed
  }

  function Drop(l: Local, t: Token): Local {
    l.(bots := l.bots - {t}, gens := l.gens - {t}, ring := Untrack(l.ring, t))
  }

  function EvictLocal(l: Local, t: Token): Local {
    var dropped := Drop(l, t);
    if t in l.bots then dropped.(closed := CloseOnce(l.closed, l.bots[t], EVICTED)) else dropped
  }

  function LocalGen(l: Local, t: Token): int {
    if t in l.gens then l.gens[t] else 0
  }

  // ---------------------------------------------------------------------------------------------
  // Registration
  // ---------------------------------------------------------------------------------------------

  /** Which of the three Redis commands of a registration fail. */
  datatype RegisterFaults = RegisterFaults(incr: bool, zadd: bool, setOwner: bool)

  const NoRegisterFaults := RegisterFaults(false, false, false)

  datatype RegisterResult = RegisterResult(shared: Shared, local: Local, ok: bool)

  function NextGen(sh: Shared, t: Token): int {
    (if t in sh.gen then sh.gen[t] else 0) + 1
  }

  /** Same-worker eviction comes first. */
  function Cleared(l: Local, t: Token): Local {
    if t in l.bots then EvictLocal(l, t) else l
  }

  function Store(l: Local, t: Token, c: Conn, gen: int): Local {
    l.(bots := l.bots[t := c], gens := l.gens[t := gen], ring := Track(l.ring, t))
  }

  function Claim(sh: Shared, t: Token, now: int, faults: RegisterFaults): Shared {
    sh.(gen := sh.gen[t := NextGen(sh, t)],
        alive := if faults.zadd then sh.alive else sh.alive[t := now])
  }

  function Register(sh: Shared, l: Local, w: WorkerId, t: Token, c: Conn, now: int,
                    faults: RegisterFaults): RegisterResult {
    if l.shuttingDown then RegisterResult(sh, l, false)
    else
      var cleared := Cleared(l, t);
      if faults.incr then RegisterResult(sh, cleared, false)
      else
        var claimed := Claim(sh, t, now, faults);
        if faults.setOwner then RegisterResult(claimed, cleared, false)
        else RegisterResult(claimed.(owner := sh.owner[t := w]), Store(cleared, t, c, NextGen(sh, t)), true)
  }

  // ---------------------------------------------------------------------------------------------
  // Unregistration and removal
  // ---------------------------------------------------------------------------------------------

  /** The cross-worker guard: a newer generation exists. */
  predicate NewerGen(sh: Shared, t: Token, localGen: int) {
    t in sh.gen && sh.gen[t] > localGen
  }

  function ForgetTokens(sh: Shared, ts: set<Token>): Shared {
    Shared(sh.gen - ts, sh.owner - ts, sh.alive - ts)
  }

  /** The same-worker guard: another connection has taken the token here. */
  predicate TakenOver(l: Local, t: Token, conn: Option<Conn>) {
    conn.Some? && t in l.bots && l.bots[t] != conn.value
  }

  function UnregisterShared(sh: Shared, l: Local, t: Token, conn: Option<Conn>, readFails: bool): Shared {
    if TakenOver(l, t, conn) || (!readFails && NewerGen(sh, t, LocalGen(l, t))) then sh
    else ForgetTokens(sh, {t})
  }

  function UnregisterLocal(l: Local, t: Token, conn: Option<Conn>): Local {
    if TakenOver(l, t, conn) then l else Drop(l, t)
  }

  /** Administrative removal of a token: what happens to the shared keys. */
  function RemoveShared(sh: Shared, l: Local, t: Token, readFails: bool): Shared {
    if t in l.bots then UnregisterShared(sh, l, t, None, readFails) else ForgetTokens(sh, {t})
  }

  function RemoveLocal(l: Local, t: Token): Local {
    if t in l.bots then Drop(l, t).(closed := CloseOnce(l.closed, l.bots[t], TOKEN_DELETED)) else l
  }

  /** The worker that is asked to disconnect the bot, when it is not this one. */
  function DisconnectTarget(sh: Shared, l: Local, t: Token): Option<WorkerId> {
    if t in l.bots then None else Lookup(sh.owner, t)
  }

  // ---------------------------------------------------------------------------------------------
  // Heartbeat, expiry, shutdown
  // ---------------------------------------------------------------------------------------------

  function Heartbeat(sh: Shared, l: Local, now: int): Shared {
    sh.(alive := sh.alive + map t | t in l.bots :: now)
  }

  lemma HeartbeatScores(sh: Shared, l: Local, now: int, scores: map<Token, int>)
    requires scores.Keys == l.bots.Keys && forall t :: t in scores ==> scores[t] == now
    ensures Heartbeat(sh, l, now) == sh.(alive := sh.alive + scores)
    ensures scores == map[] ==> Heartbeat(sh, l, now) == sh
  {
    assert scores == map t | t in l.bots :: now;
  }

  function Expired(sh: Shared, now: int): set<Token> {
    set t | t in sh.alive && sh.alive[t] <= now - BOT_TTL
  }

  function CleanupExpired(sh: Shared, now: int): Shared {
    ForgetTokens(sh, Expired(sh, now))
  }

  /** The tokens whose shared keys a shutdown removes. */
  function ShutdownForgets(sh: Shared, l: Local, readFails: set<Token>): set<Token> {
    set t | t in l.bots && (t in readFails || !NewerGen(sh, t, LocalGen(l, t)))
  }

  function ShutdownLocal(l: Local): Local {
    l.(closed := CloseAll(l.closed, l.bots.Values, SERVER_RESTART), shuttingDown := true)
  }

  /** One token of the shutdown loop: the guard reads what it would have read at the start. */
  lemma ShutdownForgetsNext(sh: Shared, l: Local, readFails: set<Token>, todo: set<Token>, t: Token)
    requires t in todo && todo <= l.bots.Keys
    ensures var forgets := ShutdownForgets(sh, l, readFails);
            var now, then' := ForgetTokens(sh, forgets - todo), ForgetTokens(sh, forgets - (todo - {t}));
            if t !in readFails && NewerGen(now, t, LocalGen(l, t)) then then' == now
            else then' == ForgetTokens(now, {t})
  {
    var forgets := ShutdownForgets(sh, l, readFails);
    var now := ForgetTokens(sh, forgets - todo);
    assert t !in forgets - todo;
    assert NewerGen(now, t, LocalGen(l, t)) == NewerGen(sh, t, LocalGen(l, t));
    if t in forgets {
      ForgetMore(sh, forgets - todo, t);
      assert forgets - (todo - {t}) == (forgets - todo) + {t};
    } else {
      assert forgets - (todo - {t}) == forgets - todo;
    }
  }

  lemma ForgetMore(sh: Shared, ts: set<Token>, t: Token)
    ensures ForgetTokens(ForgetTokens(sh, ts), {t}) == ForgetTokens(sh, ts + {t})
  {
    var a, b := ForgetTokens(ForgetTokens(sh, ts), {t}), ForgetTokens(sh, ts + {t});
    assert a.gen == b.gen && a.owner == b.owner && a.alive == b.alive;
  }

  lemma ShutdownCloses(l: Local, todo: set<Token>, t: Token)
    requires t in todo && todo <= l.bots.Keys
    ensures CloseOnce(CloseAll(l.closed, ConnsOf(l, l.bots.Keys - todo), SERVER_RESTART), l.bots[t], SERVER_RESTART)
            == CloseAll(l.closed, ConnsOf(l, l.bots.Keys - (todo - {t})), SERVER_RESTART)
  {
    var done := l.bots.Keys - todo;
    CloseOneMore(l.closed, ConnsOf(l, done), l.bots[t], SERVER_RESTART);
    ConnsOfOneMore(l, done, t);
    assert l.bots.Keys - (todo - {t}) == done + {t};
  }

  // ---------------------------------------------------------------------------------------------
  // Reconciliation
  // ---------------------------------------------------------------------------------------------

  /** The tokens whose owner read, or generation read, does not succeed in a pass. */
  datatype ReadFaults = ReadFaults(owner: set<Token>, gen: set<Token>)

  const NoReadFaults := ReadFaults({}, {})

  predicate OwnedElsewhere(sh: Shared, w: WorkerId, t: Token) {
    t in sh.owner && sh.owner[t] != "" && sh.owner[t] != w
  }

  predicate Outdated(sh: Shared, l: Local, t: Token) {
    t in l.gens && NewerGen(sh, t, l.gens[t])
  }

  /** What makes a reconcile pass evict a token it looks at. */
  predicate Evicts(sh: Shared, l: Local, w: WorkerId, t: Token, faults: ReadFaults) {
    || (t !in faults.owner && OwnedElsewhere(sh, w, t))
    || (t !in faults.gen && Outdated(sh, l, t))
  }

  function StaleTokens(sh: Shared, l: Local, w: WorkerId, faults: ReadFaults): set<Token> {
    set t | t in Tracked(l.ring) && Evicts(sh, l, w, t, faults)
  }

  function ConnsOf(l: Local, ts: set<Token>): set<Conn> {
    set t | t in ts && t in l.bots :: l.bots[t]
  }

  /** The worker after the tokens `gone` were evicted, with ring `r`. */
  function WithoutTokens(l: Local, gone: set<Token>, r: Ring): Local {
    l.(bots := l.bots - gone,
       gens := l.gens - gone,
       ring := r,
       closed := CloseAll(l.closed, ConnsOf(l, gone), EVICTED))
  }

  /** A pass evicts the stale members of one batch, all together: the order in which the loop meets
      them does not show. */
  function Reconcile(sh: Shared, l: Local, w: WorkerId, k: int, faults: ReadFaults): Local {
    var stale := StaleTokens(sh, l, w, faults);
    WithoutTokens(l, Elems(Batch(l.ring, k)) * stale, Pass(l.ring, k, stale))
  }

  /** One turn of the loop, and the loop over a list of tokens. */
  function ReconcileOne(sh: Shared, l: Local, w: WorkerId, faults: ReadFaults, t: Token): Local {
    if Evicts(sh, l, w, t, faults) then EvictLocal(l, t) else l
  }

  function ReconcileAll(sh: Shared, l: Local, w: WorkerId, faults: ReadFaults, ts: seq<Token>): Local
    decreases |ts|
  {
    if ts == [] then l
    else ReconcileAll(sh, ReconcileOne(sh, l, w, faults, ts[0]), w, faults, ts[1..])
  }

  lemma ConnsOfOneMore(l: Local, ts: set<Token>, t: Token)
    ensures ConnsOf(l, ts + {t}) == ConnsOf(l, ts) + (if t in l.bots then {l.bots[t]} else {})
  {
  }

  lemma CloseOneMore(closed: map<Conn, int>, cs: set<Conn>, c: Conn, code: int)
    ensures CloseOnce(CloseAll(closed, cs, code), c, code) == CloseAll(closed, cs + {c}, code)
    ensures CloseAll(CloseOnce(closed, c, code), cs, code) == CloseAll(closed, cs + {c}, code)
  {
  }

  lemma EvictFirstCloses(l: Local, gone: set<Token>, t: Token)
    requires t !in gone
    ensures CloseAll(EvictLocal(l, t).closed, ConnsOf(EvictLocal(l, t), gone), EVICTED)
            == CloseAll(l.closed, ConnsOf(l, gone + {t}), EVICTED)
  {
    var conns := ConnsOf(l, gone);
    assert ConnsOf(EvictLocal(l, t), gone) == conns;
    ConnsOfOneMore(l, gone, t);
    if t in l.bots {
      CloseOneMore(l.closed, conns, l.bots[t], EVICTED);
    } else {
      assert conns + {} == conns;
    }
  }

  lemma DropBoth<V>(m: map<Token, V>, gone: set<Token>, t: Token)
    ensures (m - {t}) - gone == m - (gone + {t})
  {
  }

  /** Evicting one token first and the others together afterwards. */
  lemma EvictFirst(l: Local, gone: set<Token>, r: Ring, t: Token)
    requires t !in gone
    ensures WithoutTokens(EvictLocal(l, t), gone, r) == WithoutTokens(l, gone + {t}, r)
  {
    DropBoth(l.bots, gone, t);
    DropBoth(l.gens, gone, t);
    EvictFirstCloses(l, gone, t);
  }

  function EvictsOf(sh: Shared, l: Local, w: WorkerId, faults: ReadFaults, ts: seq<Token>): set<Token> {
    set t | t in ts && Evicts(sh, l, w, t, faults)
  }

  /** The turns together: since no token comes twice, the state at the start decides every eviction. */
  lemma {:induction false} TurnsInOneGo(sh: Shared, l: Local, w: WorkerId, faults: ReadFaults, ts: seq<Token>)
    requires NoDuplicates(ts)
    ensures var gone := EvictsOf(sh, l, w, faults, ts);
            ReconcileAll(sh, l, w, faults, ts) == WithoutTokens(l, gone, DropStale(l.ring, ts, gone))
    decreases |ts|
  {
    if ts == [] {
      assert ConnsOf(l, EvictsOf(sh, l, w, faults, ts)) == {};
    } else {
      TurnsInOneGo(sh, ReconcileOne(sh, l, w, faults, ts[0]), w, faults, ts[1..]);
      FirstTurn(sh, l, w, faults, ts);
    }
  }

  lemma FirstTurn(sh: Shared, l: Local, w: WorkerId, faults: ReadFaults, ts: seq<Token>)
    requires NoDuplicates(ts) && ts != []
    ensures var l', gone := ReconcileOne(sh, l, w, faults, ts[0]), EvictsOf(sh, l, w, faults, ts);
            var gone' := EvictsOf(sh, l', w, faults, ts[1..]);
            WithoutTokens(l', gone', DropStale(l'.ring, ts[1..], gone'))
            == WithoutTokens(l, gone, DropStale(l.ring, ts, gone))
  {
    var l', gone := ReconcileOne(sh, l, w, faults, ts[0]), EvictsOf(sh, l, w, faults, ts);
    var gone' := EvictsOf(sh, l', w, faults, ts[1..]);
    EvictsOfRest(sh, l, w, faults, ts);
    DropStaleAgree(l'.ring, ts[1..], gone', gone);
    if ts[0] in gone {
      EvictFirst(l, gone', DropStale(l'.ring, ts[1..], gone'), ts[0]);
    } else {
      assert gone == gone';
    }
  }

  lemma EvictsOfRest(sh: Shared, l: Local, w: WorkerId, faults: ReadFaults, ts: seq<Token>)
    requires NoDuplicates(ts) && ts != []
    ensures var gone' := EvictsOf(sh, ReconcileOne(sh, l, w, faults, ts[0]), w, faults, ts[1..]);
            && ts[0] !in gone'
            && EvictsOf(sh, l, w, faults, ts)
               == gone' + (if Evicts(sh, l, w, ts[0], faults) then {ts[0]} else {})
            && forall t :: t in ts[1..] ==> (t in gone' <==> t in EvictsOf(sh, l, w, faults, ts))
  {
    var l' := ReconcileOne(sh, l, w, faults, ts[0]);
    forall t | t in ts[1..] ensures t != ts[0] && (Evicts(sh, l', w, t, faults) <==> Evicts(sh, l, w, t, faults)) {
    }
    assert ts == [ts[0]] + ts[1..];
  }

  /** The loop of a pass against the closed form. */
  lemma PassInOneGo(sh: Shared, l: Local, w: WorkerId, k: int, faults: ReadFaults)
    requires ValidRing(l.ring)
    ensures ReconcileAll(sh, l.(ring := AfterBatch(l.ring, k)), w, faults, Batch(l.ring, k))
            == Reconcile(sh, l, w, k, faults)
  {
    var l1, batch := l.(ring := AfterBatch(l.ring, k)), Batch(l.ring, k);
    var stale, gone := StaleTokens(sh, l, w, faults), EvictsOf(sh, l1, w, faults, batch);
    BatchHasNoDuplicates(l.ring, k);
    TurnsInOneGo(sh, l1, w, faults, batch);
    assert gone == Elems(batch) * stale;
    DropStaleAgree(l1.ring, batch, gone, stale);
    assert ConnsOf(l1, gone) == ConnsOf(l, gone);
  }

  // ---------------------------------------------------------------------------------------------
  // The code's worker
  // ---------------------------------------------------------------------------------------------

  /** The Redis keys of the bridge. */
  class SharedStore {
    var gen: map<Token, int>
    var owner: map<Token, WorkerId>
    var alive: map<Token, int>

    function Value(): Shared
      reads this
    {
      Shared(gen, owner, alive)
    }

    constructor ()
      ensures Value() == EmptyShared
    {
      gen, owner, alive := map[], map[], map[];
    }
  }

  class ConnectionBridge {
    const workerID: WorkerId
    const batchSize: int
    const rdb: SharedStore
    const ring: ReconcileRing
    var bots: map<Token, Conn>
    var botGens: map<Token, int>
    var closed: map<Conn, int>
    var shuttingDown: bool

    ghost predicate Valid()
      reads this, ring
    {
      ring.Valid()
    }

    function Value(): Local
      reads this, ring
    {
      Local(bots, botGens, ring.Value(), closed, shuttingDown)
    }

    constructor (workerID: WorkerId, batchSize: int, rdb: SharedStore)
      ensures Valid() && fresh(ring) && Value() == FreshLocal
      ensures this.workerID == workerID && this.batchSize == batchSize && this.rdb == rdb
    {
      this.workerID, this.batchSize, this.rdb := workerID, batchSize, rdb;
      ring := new ReconcileRing();
      bots, botGens, closed, shuttingDown := map[], map[], map[], false;
    }

    method CloseConn(c: Conn, code: int)
      modifies this`closed
      ensures closed == CloseOnce(old(closed), c, code)
    {
      if c !in closed {
        closed := closed[c := code];
      }
    }

    method EvictLocalBot(t: Token)
      requires Valid()
      modifies this, ring
      ensures Valid() && Value() == EvictLocal(old(Value()), t)
    {
      var conn := Lookup(bots, t);
      bots := bots - {t};
      botGens := botGens - {t};
      ring.UntrackReconcileToken(t);
      if conn.Some? {
        CloseConn(conn.value, EVICTED);
      }
    }

    method StoreLocally(t: Token, c: Conn, gen: int)
      requires Valid()
      modifies this, ring
      ensures Valid() && Value() == Store(old(Value()), t, c, gen)
    {
      bots := bots[t := c];
      botGens := botGens[t := gen];
      ring.TrackReconcileToken(t);
    }

    method RegisterBot(t: Token, c: Conn, now: int, faults: RegisterFaults) returns (ok: bool)
      requires Valid()
      modifies this, ring, rdb
      ensures Valid()
      ensures RegisterResult(rdb.Value(), Value(), ok)
              == Register(old(rdb.Value()), old(Value()), workerID, t, c, now, faults)
    {
      ghost var sh := rdb.Value();
      if shuttingDown {
        return false;
      }
      if t in bots {
        EvictLocalBot(t);
      }
      ghost var cleared := Value();
      assert cleared == Cleared(old(Value()), t) && rdb.Value() == sh;
      if faults.incr {
        return false;
      }
      var gen := (if t in rdb.gen then rdb.gen[t] else 0) + 1;
      rdb.gen := rdb.gen[t := gen];
      if !faults.zadd {
        rdb.alive := rdb.alive[t := now];
      }
      assert rdb.Value() == Claim(sh, t, now, faults) && Value() == cleared;
      if faults.setOwner {
        return false;
      }
      rdb.owner := rdb.owner[t := workerID];
      StoreLocally(t, c, gen);
      return true;
    }

    method ShouldSkipSharedCleanup(t: Token, localGen: int, readFails: bool) returns (skip: bool)
      ensures skip == (!readFails && NewerGen(rdb.Value(), t, localGen))
    {
      if readFails || t !in rdb.gen {
        return false;
      }
      return rdb.gen[t] > localGen;
    }

    method CleanupSharedBotState(t: Token)
      modifies rdb
      ensures rdb.Value() == ForgetTokens(old(rdb.Value()), {t})
    {
      rdb.alive := rdb.alive - {t};
      rdb.owner := rdb.owner - {t};
      rdb.gen := rdb.gen - {t};
    }

    method UnregisterBot(t: Token, conn: Option<Conn>, readFails: bool)
      requires Valid()
      modifies this, ring, rdb
      ensures Valid()
      ensures Value() == UnregisterLocal(old(Value()), t, conn)
      ensures rdb.Value() == UnregisterShared(old(rdb.Value()), old(Value()), t, conn, readFails)
    {
      if conn.Some? && t in bots && bots[t] != conn.value {
        return;
      }
      var localGen := if t in botGens then botGens[t] else 0;
      bots := bots - {t};
      botGens := botGens - {t};
      ring.UntrackReconcileToken(t);
      var skip := ShouldSkipSharedCleanup(t, localGen, readFails);
      if skip {
        return;
      }
      CleanupSharedBotState(t);
    }

    /** A failing session store ends it before anything else happens; without the owner nobody can be told
        to disconnect. */
    method RemoveBotSessions(t: Token, sessionsFail: bool, ownerFails: bool, readFails: bool)
      returns (ok: bool, disconnect: Option<WorkerId>)
      requires Valid()
      modifies this, ring, rdb
      ensures Valid() && ok == !sessionsFail
      ensures Value() == if ok then RemoveLocal(old(Value()), t) else old(Value())
      ensures rdb.Value() == if ok then RemoveShared(old(rdb.Value()), old(Value()), t, readFails)
                             else old(rdb.Value())
      ensures disconnect == if ok && !ownerFails then DisconnectTarget(old(rdb.Value()), old(Value()), t) else None
    {
      if sessionsFail {
        return false, None;
      }
      if t in bots {
        CloseConn(bots[t], TOKEN_DELETED);
        UnregisterBot(t, None, readFails);
        return true, None;
      }
      disconnect := if ownerFails then None else Lookup(rdb.owner, t);
      rdb.alive := rdb.alive - {t};
      rdb.owner := rdb.owner - {t};
      rdb.gen := rdb.gen - {t};
      return true, disconnect;
    }

    method DoHeartbeat(now: int)
      modifies rdb
      ensures rdb.Value() == Heartbeat(old(rdb.Value()), Value(), now)
    {
      var scores: map<Token, int> := map[];
      var todo := bots.Keys;
      while todo != {}
        invariant todo <= bots.Keys && scores.Keys == bots.Keys - todo
        invariant forall t :: t in scores ==> scores[t] == now
      {
        var t :| t in todo;
        scores := scores[t := now];
        todo := todo - {t};
      }
      HeartbeatScores(rdb.Value(), Value(), now, scores);
      if |scores| > 0 {
        rdb.alive := rdb.alive + scores;
      }
    }

    method CleanupExpiredBots(now: int)
      modifies rdb
      ensures rdb.Value() == CleanupExpired(old(rdb.Value()), now)
    {
      var cutoff := now - BOT_TTL;
      var expired := set t | t in rdb.alive && rdb.alive[t] <= cutoff;
      if expired == {} {
        return;
      }
      var todo := expired;
      while todo != {}
        invariant todo <= expired
        invariant rdb.alive == old(rdb.alive)
        invariant rdb.owner == old(rdb.owner) - (expired - todo)
        invariant rdb.gen == old(rdb.gen) - (expired - todo)
      {
        var t :| t in todo;
        rdb.owner := rdb.owner - {t};
        rdb.gen := rdb.gen - {t};
        todo := todo - {t};
      }
      rdb.alive := map t | t in rdb.alive && !(rdb.alive[t] <= cutoff) :: rdb.alive[t];
    }

    method Shutdown(readFails: set<Token>)
      requires Valid()
      modifies this, rdb
      ensures Valid() && Value() == ShutdownLocal(old(Value()))
      ensures rdb.Value() == ForgetTokens(old(rdb.Value()),
                                          ShutdownForgets(old(rdb.Value()), old(Value()), readFails))
    {
      shuttingDown := true;
      var todo := bots.Keys;
      ghost var l0, before := old(Value()), rdb.Value();
      ghost var forgets := ShutdownForgets(before, l0, readFails);
      assert ConnsOf(l0, {}) == {};
      while todo != {}
        invariant todo <= bots.Keys && Value() == l0.(closed := closed, shuttingDown := true)
        invariant closed == CloseAll(l0.closed, ConnsOf(l0, bots.Keys - todo), SERVER_RESTART)
        invariant rdb.Value() == ForgetTokens(before, forgets - todo)
      {
        var t :| t in todo;
        ShutdownCloses(l0, todo, t);
        ShutdownForgetsNext(before, l0, readFails, todo, t);
        var localGen := if t in botGens then botGens[t] else 0;
        CloseConn(bots[t], SERVER_RESTART);
        var skip := ShouldSkipSharedCleanup(t, localGen, t in readFails);
        if !skip {
          CleanupSharedBotState(t);
        }
        todo := todo - {t};
      }
      assert forgets - todo == forgets;
      assert ConnsOf(l0, bots.Keys - todo) == bots.Values;
    }

    /** The loop body of a pass: look at one token and evict it if it is stale. */
    method ReconcileToken(t: Token, faults: ReadFaults)
      requires Valid()
      modifies this, ring
      ensures Valid()
      ensures Value() == if Evicts(rdb.Value(), old(Value()), workerID, t, faults)
                         then EvictLocal(old(Value()), t) else old(Value())
    {
      if t !in faults.owner && t in rdb.owner && rdb.owner[t] != "" && rdb.owner[t] != workerID {
        EvictLocalBot(t);
        return;
      }
      if t !in botGens {
        return;
      }
      var localGen := botGens[t];
      if t in faults.gen || t !in rdb.gen {
        return;
      }
      if rdb.gen[t] > localGen {
        EvictLocalBot(t);
      }
    }

    method DoReconcile(faults: ReadFaults)
      requires Valid()
      modifies this, ring
      ensures Valid()
      ensures Value() == Reconcile(rdb.Value(), old(Value()), workerID, batchSize, faults)
    {
      ghost var l0, sh := Value(), rdb.Value();
      ring.ValidValue();
      var batch := ring.NextReconcileBatch(batchSize);
      ghost var l1 := Value();
      assert l1 == l0.(ring := AfterBatch(l0.ring, batchSize));
      var i := 0;
      while i < |batch|
        invariant 0 <= i <= |batch| && Valid() && rdb.Value() == sh
        invariant ReconcileAll(sh, Value(), workerID, faults, batch[i..])
                  == ReconcileAll(sh, l1, workerID, faults, batch)
      {
        assert batch[i..][1..] == batch[i + 1..];
        ReconcileToken(batch[i], faults);
        i := i + 1;
      }
      PassInOneGo(sh, l0, workerID, batchSize, faults);
    }
  }
}
