/** Any number of bridge workers over one set of shared keys, as a transition system whose steps are
    whole operations: the invariants of every run, what the generation guard protects, and that
    reconcile passes repair any state. */
module Clusters {
  import opened Prelude
  import opened Rings
  import opened Bridges

  datatype Cluster = Cluster(shared: Shared, workers: map<WorkerId, Local>)

  /** The operations, each with what fails in it: commands of a registration, reads of the generation guard
      or of a reconcile pass. */
  datatype Action =
    | DoRegister(w: WorkerId, t: Token, c: Conn, now: int, faults: RegisterFaults)
    | DoUnregister(w: WorkerId, t: Token, c: Conn, readFails: bool)
    | DoDisconnect(w: WorkerId, t: Token)
    | DoRemove(w: WorkerId, t: Token, readFails: bool)
    | DoHeartbeat(w: WorkerId, now: int)
    | DoCleanup(now: int)
    | DoShutdown(w: WorkerId, unreadable: set<Token>)
    | DoReconcile(w: WorkerId, k: int, unread: ReadFaults)

  function Update(s: Cluster, w: WorkerId, sh: Shared, l: Local): Cluster {
    Cluster(sh, s.workers[w := l])
  }

  /** One operation.  An operation of a worker that is not there does nothing; the disconnect message
      another worker sends on removal is a step of its own, `DoDisconnect`, taken at any later time. */
  function Step(s: Cluster, a: Action): Cluster {
    if !a.DoCleanup? && a.w !in s.workers then s
    else
      match a
      case DoRegister(w, t, c, now, faults) =>
        var r := Register(s.shared, s.workers[w], w, t, c, now, faults);
        Update(s, w, r.shared, r.local)
      case DoUnregister(w, t, c, readFails) =>
        var l := s.workers[w];
        Update(s, w, UnregisterShared(s.shared, l, t, Some(c), readFails), UnregisterLocal(l, t, Some(c)))
      case DoDisconnect(w, t) =>
        Update(s, w, s.shared, EvictLocal(s.workers[w], t))
      case DoRemove(w, t, readFails) =>
        var l := s.workers[w];
        Update(s, w, RemoveShared(s.shared, l, t, readFails), RemoveLocal(l, t))
      case DoHeartbeat(w, now) =>
        s.(shared := Heartbeat(s.shared, s.workers[w], now))
      case DoCleanup(now) =>
        s.(shared := CleanupExpired(s.shared, now))
      case DoShutdown(w, readFails) =>
        var l := s.workers[w];
        Update(s, w, ForgetTokens(s.shared, ShutdownForgets(s.shared, l, readFails)), ShutdownLocal(l))
      case DoReconcile(w, k, faults) =>
        Update(s, w, s.shared, Reconcile(s.shared, s.workers[w], w, k, faults))
  }

  function Run(s: Cluster, actions: seq<Action>): Cluster
    decreases |actions|
  {
    if actions == [] then s else Run(Step(s, actions[0]), actions[1..])
  }

  /** The start: no keys, and every worker fresh. */
  function Start(ws: set<WorkerId>): Cluster {
    Cluster(EmptyShared, map w | w in ws :: FreshLocal)
  }

  // ---------------------------------------------------------------------------------------------
  // Ring and index agreement in every run
  // ---------------------------------------------------------------------------------------------

  lemma DropAgrees(l: Local, t: Token)
    requires Agreement(l)
    ensures Agreement(Drop(l, t)) && Agreement(EvictLocal(l, t))
  {
    UntrackValid(l.ring, t);
  }

  lemma RegisterAgrees(sh: Shared, l: Local, w: WorkerId, t: Token, c: Conn, now: int, faults: RegisterFaults)
    requires Agreement(l)
    ensures Agreement(Register(sh, l, w, t, c, now, faults).local)
  {
    DropAgrees(l, t);
    StoreAgrees(Cleared(l, t), t, c, NextGen(sh, t));
  }

  lemma StoreAgrees(l: Local, t: Token, c: Conn, gen: int)
    requires Agreement(l)
    ensures Agreement(Store(l, t, c, gen))
  {
    TrackValid(l.ring, t);
    assert l.bots[t := c].Keys == l.bots.Keys + {t};
    assert l.gens[t := gen].Keys == l.gens.Keys + {t};
  }

  lemma ReconcileAgrees(sh: Shared, l: Local, w: WorkerId, k: int, faults: ReadFaults)
    requires Agreement(l)
    ensures Agreement(Reconcile(sh, l, w, k, faults))
  {
    PassTracked(l.ring, k, StaleTokens(sh, l, w, faults));
  }

  ghost predicate AllAgree(s: Cluster) {
    forall w :: w in s.workers ==> Agreement(s.workers[w])
  }

  lemma StepAgrees(s: Cluster, a: Action)
    requires AllAgree(s)
    ensures AllAgree(Step(s, a)) && Step(s, a).workers.Keys == s.workers.Keys
  {
    if a.DoCleanup? || a.w !in s.workers {
      return;
    }
    var l := s.workers[a.w];
    match a {
      case DoRegister(w, t, c, now, faults) => RegisterAgrees(s.shared, l, w, t, c, now, faults);
      case DoUnregister(_, t, _, _) => DropAgrees(l, t);
      case DoDisconnect(_, t) => DropAgrees(l, t);
      case DoRemove(_, t, _) => DropAgrees(l, t);
      case DoReconcile(w, k, faults) => ReconcileAgrees(s.shared, l, w, k, faults);
      case _ =>
    }
  }

  // ---------------------------------------------------------------------------------------------
  // The shared keys in every run
  // ---------------------------------------------------------------------------------------------

  /** Who owns a token was counted, and counting starts at 1. */
  ghost predicate Counted(sh: Shared) {
    && sh.owner.Keys <= sh.gen.Keys
    && forall t :: t in sh.gen ==> sh.gen[t] >= 1
  }

  /** A token has a generation exactly when it has an owner, and is then in the alive set. */
  ghost predicate KeysMatch(sh: Shared) {
    Counted(sh) && sh.gen.Keys == sh.owner.Keys <= sh.alive.Keys
  }

  /** The faults that pass through a registration: its heartbeat or its owner is not written. */
  predicate LosesWrite(a: Action) {
    a.DoRegister? && (a.faults.zadd || a.faults.setOwner)
  }

  lemma ForgetMatches(sh: Shared, ts: set<Token>)
    requires Counted(sh)
    ensures Counted(ForgetTokens(sh, ts))
    ensures KeysMatch(sh) ==> KeysMatch(ForgetTokens(sh, ts))
  {
  }

  lemma StepMatches(s: Cluster, a: Action)
    requires Counted(s.shared)
    ensures Counted(Step(s, a).shared)
    ensures KeysMatch(s.shared) && !LosesWrite(a) ==> KeysMatch(Step(s, a).shared)
  {
    match a {
      case DoUnregister(_, t, _, _) => ForgetMatches(s.shared, {t});
      case DoRemove(_, t, _) => ForgetMatches(s.shared, {t});
      case DoCleanup(now) => ForgetMatches(s.shared, Expired(s.shared, now));
      case DoShutdown(w, readFails) =>
        if w in s.workers {
          ForgetMatches(s.shared, ShutdownForgets(s.shared, s.workers[w], readFails));
        }
      case _ =>
    }
  }

  ghost predicate Invariant(s: Cluster) {
    AllAgree(s) && Counted(s.shared)
  }

  lemma {:induction false} RunKeepsInvariant(s: Cluster, actions: seq<Action>)
    requires Invariant(s)
    ensures Invariant(Run(s, actions))
    ensures KeysMatch(s.shared) && (forall a :: a in actions ==> !LosesWrite(a)) ==> KeysMatch(Run(s, actions).shared)
    decreases |actions|
  {
    if actions != [] {
      assert actions[0] in actions && forall a :: a in actions[1..] ==> a in actions;
      StepAgrees(s, actions[0]);
      StepMatches(s, actions[0]);
      RunKeepsInvariant(Step(s, actions[0]), actions[1..]);
    }
  }

  /** Every reachable state, whatever failed on the way: local maps and ring agree on every worker, and
      every owned token has a generation.  As long as no registration loses a write, the tokens with a
      generation are exactly those with an owner, all of them in the alive set. */
  lemma ReachableInvariant(ws: set<WorkerId>, actions: seq<Action>)
    ensures Invariant(Run(Start(ws), actions))
    ensures (forall a :: a in actions ==> !LosesWrite(a)) ==> KeysMatch(Run(Start(ws), actions).shared)
  {
    RunKeepsInvariant(Start(ws), actions);
  }

  /** Which faults of a registration break the match: it survives exactly if nothing was claimed, if the
      token was owned already, or if the owner is written and the heartbeat is written or was there. */
  lemma RegistrationMatchesIff(sh: Shared, l: Local, w: WorkerId, t: Token, c: Conn, now: int, f: RegisterFaults)
    requires KeysMatch(sh) && !l.shuttingDown
    ensures KeysMatch(Register(sh, l, w, t, c, now, f).shared)
            <==> f.incr || t in sh.owner || (!f.setOwner && (!f.zadd || t in sh.alive))
  {
    var after := Register(sh, l, w, t, c, now, f).shared;
    if !f.incr {
      assert after.gen.Keys == sh.gen.Keys + {t};
      assert t in after.gen.Keys;
      assert t in sh.owner.Keys ==> t in sh.alive.Keys && after.gen.Keys == sh.gen.Keys;
      if !f.setOwner {
        assert after.owner.Keys == sh.owner.Keys + {t};
      }
    }
  }

  // ---------------------------------------------------------------------------------------------
  // Registration, and connections that were closed
  // ---------------------------------------------------------------------------------------------

  /** A registration succeeds exactly if the worker is not shutting down and neither the counter nor the
      owner key fails; then the bot is served here, on the new connection and under the newest generation,
      and whoever served it here before is closed with 4005.  When it fails, the bot is served here by
      nobody, unless the worker is shutting down: then nothing has happened. */
  lemma RegistrationOutcome(sh: Shared, l: Local, w: WorkerId, t: Token, c: Conn, now: int, f: RegisterFaults)
    requires Agreement(l)
    ensures var r := Register(sh, l, w, t, c, now, f);
            && (r.ok <==> !l.shuttingDown && !f.incr && !f.setOwner)
            && (r.ok ==> Lookup(r.local.bots, t) == Some(c) && Lookup(r.shared.owner, t) == Some(w)
                         && Lookup(r.local.gens, t) == Lookup(r.shared.gen, t) && t in Tracked(r.local.ring))
            && (r.ok && t in sh.gen ==> r.shared.gen[t] > sh.gen[t])
            && (!l.shuttingDown && t in l.bots && l.bots[t] !in l.closed ==>
                  Lookup(r.local.closed, l.bots[t]) == Some(4005))
            && (!l.shuttingDown && !r.ok ==> t !in r.local.bots && t !in r.local.gens)
            && (l.shuttingDown ==> r.local == l && r.shared == sh)
  {
    RegisterAgrees(sh, l, w, t, c, now, f);
    DropAgrees(l, t);
  }

  /** What a pass does to one bot: it is evicted exactly if its token is in the batch and the owner that was
      read is another worker, or the generation that was read is newer; reads that fail and owners without
      a name are no reason.  An evicted connection is closed with 4005, and the others stay as they were. */
  lemma ReconcileEvictsIff(sh: Shared, l: Local, w: WorkerId, k: int, faults: ReadFaults, t: Token)
    requires Agreement(l) && t in l.bots
    ensures t in l.gens
    ensures var l' := Reconcile(sh, l, w, k, faults);
            var elsewhere := t !in faults.owner && t in sh.owner && sh.owner[t] != "" && sh.owner[t] != w;
            var newer := t !in faults.gen && t in sh.gen && sh.gen[t] > l.gens[t];
            if t in Batch(l.ring, k) && (elsewhere || newer)
            then t !in l'.bots && Lookup(l'.closed, l.bots[t]) == Some(Lookup(l.closed, l.bots[t]).GetOr(4005))
            else Lookup(l'.bots, t) == Some(l.bots[t]) && Lookup(l'.gens, t) == Some(l.gens[t])
  {
    var gone := Elems(Batch(l.ring, k)) * StaleTokens(sh, l, w, faults);
    assert t in l.bots.Keys && t in Tracked(l.ring);
    assert t in gone ==> l.bots[t] in ConnsOf(l, gone);
  }

  ghost predicate ClosedStays(l: Local, l': Local) {
    forall c :: c in l.closed ==> c in l'.closed && l'.closed[c] == l.closed[c]
  }

  lemma StepKeepsClosed(s: Cluster, a: Action, w: WorkerId)
    requires w in s.workers
    ensures w in Step(s, a).workers && ClosedStays(s.workers[w], Step(s, a).workers[w])
    ensures s.workers[w].shuttingDown ==>
              && Step(s, a).workers[w].shuttingDown
              && Step(s, a).workers[w].bots.Items <= s.workers[w].bots.Items
  {
  }

  /** A connection that was closed stays closed with the code it was closed with first; and a worker that is
      shutting down takes no connection any more. */
  lemma {:induction false} ClosedForGood(s: Cluster, actions: seq<Action>, w: WorkerId)
    requires w in s.workers
    ensures w in Run(s, actions).workers && ClosedStays(s.workers[w], Run(s, actions).workers[w])
    ensures s.workers[w].shuttingDown ==>
              && Run(s, actions).workers[w].shuttingDown
              && Run(s, actions).workers[w].bots.Items <= s.workers[w].bots.Items
    decreases |actions|
  {
    if actions != [] {
      StepKeepsClosed(s, actions[0], w);
      ClosedForGood(Step(s, actions[0]), actions[1..], w);
    }
  }

  /** After a shutdown every connection of the worker is closed, with 4000 unless it was closed before, and
      in any continuation no registration at that worker succeeds: it holds nothing but closed
      connections. */
  lemma ShutdownIsFinal(s: Cluster, w: WorkerId, unreadable: set<Token>, actions: seq<Action>)
    requires w in s.workers
    ensures var closed := Step(s, DoShutdown(w, unreadable)).workers[w].closed;
            var s' := Run(Step(s, DoShutdown(w, unreadable)), actions);
            && (forall t :: t in s.workers[w].bots ==>
                  Lookup(closed, s.workers[w].bots[t])
                  == Some(Lookup(s.workers[w].closed, s.workers[w].bots[t]).GetOr(4000)))
            && w in s'.workers
            && (forall t :: t in s'.workers[w].bots ==> s'.workers[w].bots[t] in s'.workers[w].closed)
            && (forall t, c, now, f :: !Register(s'.shared, s'.workers[w], w, t, c, now, f).ok)
  {
    var s1 := Step(s, DoShutdown(w, unreadable));
    ClosedForGood(s1, actions, w);
    var l, l' := s1.workers[w], Run(s1, actions).workers[w];
    forall t | t in l'.bots ensures l'.bots[t] in l'.closed {
      assert (t, l'.bots[t]) in l'.bots.Items;
      assert (t, l'.bots[t]) in l.bots.Items;
    }
  }

  // ---------------------------------------------------------------------------------------------
  // Late unregistration of an evicted connection
  // ---------------------------------------------------------------------------------------------

  /** `c` no longer holds `t` at this worker: it was evicted, or another connection took over. */
  predicate Gone(l: Local, t: Token, c: Conn) {
    t !in l.bots || l.bots[t] != c
  }

  /** No worker, no generation, no owner and no heartbeat of an owned token changes. */
  ghost predicate Harmless(s: Cluster, s': Cluster) {
    && s'.workers == s.workers
    && s'.shared.gen == s.shared.gen && s'.shared.owner == s.shared.owner
    && forall u :: u in s.shared.owner ==> Lookup(s'.shared.alive, u) == Lookup(s.shared.alive, u)
  }

  lemma GoneDropsNothing(l: Local, t: Token, c: Conn)
    requires Agreement(l) && Gone(l, t, c)
    ensures UnregisterLocal(l, t, Some(c)) == l
    ensures !TakenOver(l, t, Some(c)) ==> LocalGen(l, t) == 0
  {
    if t !in l.bots {
      assert t !in Tracked(l.ring) && t !in l.gens.Keys;
      assert l.bots - {t} == l.bots && l.gens - {t} == l.gens;
    }
  }

  /** In every reachable state, across any number of generation resets and failed registrations, the late
      unregistration of a connection that is gone is harmless exactly if its guard can read the generation,
      another connection has taken over here, or there is no generation. */
  lemma EvictedConnectionIsHarmless(ws: set<WorkerId>, actions: seq<Action>, w: WorkerId, t: Token, c: Conn,
                                    readFails: bool)
    requires w in Run(Start(ws), actions).workers
    requires Gone(Run(Start(ws), actions).workers[w], t, c)
    ensures var s := Run(Start(ws), actions);
            Harmless(s, Step(s, DoUnregister(w, t, c, readFails)))
            <==> !readFails || TakenOver(s.workers[w], t, Some(c)) || t !in s.shared.gen
  {
    var s := Run(Start(ws), actions);
    var l, sh := s.workers[w], s.shared;
    ReachableInvariant(ws, actions);
    GoneDropsNothing(l, t, c);
    assert s.workers[w := l] == s.workers;
    if t !in sh.gen {
      assert t !in sh.owner.Keys;
      assert sh.gen - {t} == sh.gen && sh.owner - {t} == sh.owner;
    } else {
      assert NewerGen(sh, t, 0);
    }
  }

  // ---------------------------------------------------------------------------------------------
  // The generation guard
  // ---------------------------------------------------------------------------------------------

  predicate Holds(s: Cluster, w: WorkerId, t: Token) {
    w in s.workers && t in s.workers[w].gens
  }

  ghost predicate KeysKept(sh: Shared, sh': Shared, t: Token) {
    && Lookup(sh'.gen, t) == Lookup(sh.gen, t)
    && Lookup(sh'.owner, t) == Lookup(sh.owner, t)
    && Lookup(sh'.alive, t) == Lookup(sh.alive, t)
  }

  /** Neither an unregistration of the token nor a shutdown at `w` touches the token's shared keys; `unread`
      says whether their guard fails to read the generation. */
  ghost predicate LeavesAlone(s: Cluster, w: WorkerId, t: Token, unread: bool) {
    && (forall c: Conn :: KeysKept(s.shared, Step(s, DoUnregister(w, t, c, unread)).shared, t))
    && KeysKept(s.shared, Step(s, DoShutdown(w, if unread then {t} else {})).shared, t)
  }

  /** Every live registration is safe from whatever all other workers that still hold its token do next, as
      long as their guards can read. */
  ghost predicate Protected(s: Cluster) {
    forall w, t :: Holds(s, w, t) && t in s.shared.owner && s.shared.owner[t] != w ==> LeavesAlone(s, w, t, false)
  }

  ghost predicate AlwaysProtected(s: Cluster, actions: seq<Action>)
    decreases |actions|
  {
    Protected(s) && (actions != [] ==> AlwaysProtected(Step(s, actions[0]), actions[1..]))
  }

  /** The registration goes as far as claiming a generation. */
  predicate Claims(s: Cluster, a: Action) {
    a.DoRegister? && a.w in s.workers && !s.workers[a.w].shuttingDown && !a.faults.incr
  }

  /** A registration that succeeds claims a generation above those of all other holders. */
  ghost predicate Outranks(s: Cluster, a: Action) {
    Claims(s, a) && !a.faults.setOwner ==>
      forall v :: v != a.w && Holds(s, v, a.t) ==> s.workers[v].gens[a.t] < NextGen(s.shared, a.t)
  }

  ghost predicate AlwaysOutranks(s: Cluster, actions: seq<Action>)
    decreases |actions|
  {
    actions != [] ==> Outranks(s, actions[0]) && AlwaysOutranks(Step(s, actions[0]), actions[1..])
  }

  /** The registration finds the counter gone while another worker holds the token. */
  ghost predicate Restarts(s: Cluster, a: Action) {
    Claims(s, a) && a.t !in s.shared.gen && exists v :: v != a.w && Holds(s, v, a.t)
  }

  ghost predicate NeverRestarts(s: Cluster, actions: seq<Action>)
    decreases |actions|
  {
    actions != [] ==> !Restarts(s, actions[0]) && NeverRestarts(Step(s, actions[0]), actions[1..])
  }

  /** Other holders of an owned token are behind its generation. */
  ghost predicate Behind(s: Cluster) {
    forall w, t :: Holds(s, w, t) && t in s.shared.owner && s.shared.owner[t] != w ==>
      t in s.shared.gen && s.workers[w].gens[t] < s.shared.gen[t]
  }

  /** What the guard of a holder does: it leaves the token alone exactly when it can read the generation and
      the holder is behind. */
  lemma GuardCondition(s: Cluster, w: WorkerId, t: Token, unread: bool)
    requires AllAgree(s) && Holds(s, w, t) && t in s.shared.gen
    ensures LeavesAlone(s, w, t, unread) <==> !unread && s.workers[w].gens[t] < s.shared.gen[t]
  {
    assert Agreement(s.workers[w]) && t in s.workers[w].bots.Keys;
    if unread || s.workers[w].gens[t] >= s.shared.gen[t] {
      GuardLetsThrough(s, w, t, unread);
    } else {
      GuardHolds(s, w, t);
    }
  }

  lemma GuardLetsThrough(s: Cluster, w: WorkerId, t: Token, unread: bool)
    requires Holds(s, w, t) && t in s.workers[w].bots && t in s.shared.gen
    requires unread || s.workers[w].gens[t] >= s.shared.gen[t]
    ensures !LeavesAlone(s, w, t, unread)
  {
    var c := s.workers[w].bots[t];
    assert t !in Step(s, DoUnregister(w, t, c, unread)).shared.gen;
    assert !KeysKept(s.shared, Step(s, DoUnregister(w, t, c, unread)).shared, t);
  }

  lemma GuardHolds(s: Cluster, w: WorkerId, t: Token)
    requires Holds(s, w, t) && t in s.shared.gen && s.workers[w].gens[t] < s.shared.gen[t]
    ensures LeavesAlone(s, w, t, false)
  {
  }

  lemma ProtectedIsBehind(s: Cluster)
    requires Invariant(s)
    ensures Protected(s) <==> Behind(s)
  {
    forall w, t | Holds(s, w, t) && t in s.shared.owner && s.shared.owner[t] != w
      ensures t in s.shared.gen && (LeavesAlone(s, w, t, false) <==> s.workers[w].gens[t] < s.shared.gen[t])
    {
      assert t in s.shared.owner.Keys;
      GuardCondition(s, w, t, false);
    }
  }

  /** Workers only let go of tokens, and a key still there is the one that was there. */
  ghost predicate LetsGo(s: Cluster, s': Cluster) {
    && (forall w, t :: Holds(s', w, t) ==> Holds(s, w, t) && s'.workers[w].gens[t] == s.workers[w].gens[t])
    && (forall t :: t in s'.shared.gen ==> t in s.shared.gen && s'.shared.gen[t] == s.shared.gen[t])
    && (forall t :: t in s'.shared.owner ==> t in s.shared.owner && s'.shared.owner[t] == s.shared.owner[t])
    && (forall t :: t in s'.shared.gen && t in s.shared.owner ==> t in s'.shared.owner)
  }

  lemma OthersLetGo(s: Cluster, a: Action)
    requires !Claims(s, a)
    ensures LetsGo(s, Step(s, a))
  {
    if a.DoRegister? && a.w in s.workers {
      assert Step(s, a).shared == s.shared;
    }
  }

  /** A claim: what becomes of the counters, the owner and the holders. */
  lemma ClaimStep(s: Cluster, a: Action)
    requires AllAgree(s) && Claims(s, a)
    ensures var s' := Step(s, a);
            && s'.shared.gen == s.shared.gen[a.t := NextGen(s.shared, a.t)]
            && s'.shared.owner == (if a.faults.setOwner then s.shared.owner else s.shared.owner[a.t := a.w])
            && (forall w, t :: !(w == a.w && t == a.t) ==>
                  (Holds(s', w, t) <==> Holds(s, w, t))
                  && (Holds(s, w, t) ==> s'.workers[w].gens[t] == s.workers[w].gens[t]))
            && (Holds(s', a.w, a.t) <==> !a.faults.setOwner)
            && (!a.faults.setOwner ==> s'.workers[a.w].gens[a.t] == NextGen(s.shared, a.t))
  {
    var l := s.workers[a.w];
    assert Agreement(l) && (a.t in l.bots.Keys <==> a.t in l.gens.Keys);
  }

  lemma ClaimBehind(s: Cluster, a: Action)
    requires Invariant(s) && Behind(s) && Claims(s, a)
    ensures Behind(Step(s, a)) <==> Outranks(s, a)
  {
    var s' := Step(s, a);
    ClaimStep(s, a);
    if Outranks(s, a) {
      forall w, t | Holds(s', w, t) && t in s'.shared.owner && s'.shared.owner[t] != w
        ensures t in s'.shared.gen && s'.workers[w].gens[t] < s'.shared.gen[t]
      {
        assert Holds(s, w, t);
        if t == a.t && a.faults.setOwner {
          assert s.workers[w].gens[t] < s.shared.gen[t];
        }
      }
    } else {
      var v :| v != a.w && Holds(s, v, a.t) && s.workers[v].gens[a.t] >= NextGen(s.shared, a.t);
      assert Holds(s', v, a.t) && s'.shared.owner[a.t] != v;
    }
  }

  lemma StepBehind(s: Cluster, a: Action)
    requires Invariant(s) && Behind(s)
    ensures Behind(Step(s, a)) <==> Outranks(s, a)
  {
    if Claims(s, a) {
      ClaimBehind(s, a);
    } else {
      var s' := Step(s, a);
      OthersLetGo(s, a);
      StepMatches(s, a);
      forall w, t | Holds(s', w, t) && t in s'.shared.owner && s'.shared.owner[t] != w
        ensures t in s'.shared.gen && s'.workers[w].gens[t] < s'.shared.gen[t]
      {
        assert t in s'.shared.owner.Keys && Holds(s, w, t);
      }
    }
  }

  lemma {:induction false} ProtectedRun(s: Cluster, actions: seq<Action>)
    requires Invariant(s) && Behind(s)
    ensures AlwaysProtected(s, actions) <==> AlwaysOutranks(s, actions)
    decreases |actions|
  {
    ProtectedIsBehind(s);
    if actions != [] {
      var s' := Step(s, actions[0]);
      StepAgrees(s, actions[0]);
      StepMatches(s, actions[0]);
      StepBehind(s, actions[0]);
      ProtectedIsBehind(s');
      if Behind(s') {
        ProtectedRun(s', actions[1..]);
      }
    }
  }

  /** What the guard is for, over every run with any faults: in every state on the way live registrations are
      safe from whatever the other holders do next with a guard that can read, if and only if each successful
      registration gets a generation above those of the other holders. */
  lemma GuardProtectsIff(ws: set<WorkerId>, actions: seq<Action>)
    ensures AlwaysProtected(Start(ws), actions) <==> AlwaysOutranks(Start(ws), actions)
  {
    ProtectedRun(Start(ws), actions);
  }

  /** Local generations of the holders of a token are distinct; while the counter is there they are at
      most its value, and a holder at that value is the owner. */
  ghost predicate Ordered(s: Cluster) {
    && (forall w, t :: Holds(s, w, t) ==>
          && s.workers[w].gens[t] >= 1
          && (t in s.shared.gen ==> s.workers[w].gens[t] <= s.shared.gen[t])
          && (t in s.shared.gen && s.workers[w].gens[t] == s.shared.gen[t] ==>
                t in s.shared.owner && s.shared.owner[t] == w))
    && (forall w, v, t :: Holds(s, w, t) && Holds(s, v, t) && w != v ==>
          s.workers[w].gens[t] != s.workers[v].gens[t])
  }

  lemma LettingGoKeepsOrder(s: Cluster, s': Cluster)
    requires Ordered(s) && LetsGo(s, s')
    ensures Ordered(s')
  {
    forall w, t | Holds(s', w, t)
      ensures && s'.workers[w].gens[t] >= 1
              && (t in s'.shared.gen ==> s'.workers[w].gens[t] <= s'.shared.gen[t])
              && (t in s'.shared.gen && s'.workers[w].gens[t] == s'.shared.gen[t] ==>
                    t in s'.shared.owner && s'.shared.owner[t] == w)
    {
      assert Holds(s, w, t);
    }
    forall w, v, t | Holds(s', w, t) && Holds(s', v, t) && w != v
      ensures s'.workers[w].gens[t] != s'.workers[v].gens[t]
    {
      assert Holds(s, w, t) && Holds(s, v, t);
    }
  }

  lemma ClaimKeepsOrder(s: Cluster, a: Action)
    requires Invariant(s) && Ordered(s) && Claims(s, a) && !Restarts(s, a)
    ensures Ordered(Step(s, a)) && Outranks(s, a)
  {
    var s' := Step(s, a);
    ClaimStep(s, a);
    forall v | v != a.w && Holds(s, v, a.t) ensures s.workers[v].gens[a.t] < NextGen(s.shared, a.t) {
      assert a.t in s.shared.gen;
    }
    forall w, t | Holds(s', w, t)
      ensures && s'.workers[w].gens[t] >= 1
              && (t in s'.shared.gen ==> s'.workers[w].gens[t] <= s'.shared.gen[t])
              && (t in s'.shared.gen && s'.workers[w].gens[t] == s'.shared.gen[t] ==>
                    t in s'.shared.owner && s'.shared.owner[t] == w)
    {
      assert w != a.w || t != a.t ==> Holds(s, w, t);
    }
    forall w, v, t | Holds(s', w, t) && Holds(s', v, t) && w != v
      ensures s'.workers[w].gens[t] != s'.workers[v].gens[t]
    {
      assert w != a.w || t != a.t ==> Holds(s, w, t);
      assert v != a.w || t != a.t ==> Holds(s, v, t);
    }
  }

  lemma StepKeepsOrder(s: Cluster, a: Action)
    requires Invariant(s) && Ordered(s) && !Restarts(s, a)
    ensures Ordered(Step(s, a)) && Outranks(s, a)
  {
    if Claims(s, a) {
      ClaimKeepsOrder(s, a);
    } else {
      OthersLetGo(s, a);
      LettingGoKeepsOrder(s, Step(s, a));
    }
  }

  /** A registration that restarts the count does not get above the other holders. */
  lemma RestartIsOutranked(s: Cluster, a: Action)
    requires Ordered(s) && Restarts(s, a) && !a.faults.setOwner
    ensures !Outranks(s, a)
  {
    var v :| v != a.w && Holds(s, v, a.t);
    assert s.workers[v].gens[a.t] >= 1 && NextGen(s.shared, a.t) == 1;
  }

  lemma {:induction false} RestartsDecide(s: Cluster, actions: seq<Action>)
    requires Invariant(s) && Ordered(s)
    ensures NeverRestarts(s, actions) ==> AlwaysOutranks(s, actions) && Ordered(Run(s, actions))
    ensures (forall a :: a in actions && a.DoRegister? ==> !a.faults.setOwner) ==>
              (AlwaysOutranks(s, actions) <==> NeverRestarts(s, actions))
    decreases |actions|
  {
    if actions != [] {
      var a := actions[0];
      assert a in actions && forall b :: b in actions[1..] ==> b in actions;
      if !Restarts(s, a) {
        StepAgrees(s, a);
        StepMatches(s, a);
        StepKeepsOrder(s, a);
        RestartsDecide(Step(s, a), actions[1..]);
      } else if !a.faults.setOwner {
        RestartIsOutranked(s, a);
      }
    }
  }

  /** What to watch for: a registration that finds the counter gone, by expiry, removal or shutdown, while
      another worker still holds the token.  Without one, live registrations are safe in that sense; and in
      runs whose owner writes succeed, only without one. */
  lemma RestartsAreTheDanger(ws: set<WorkerId>, actions: seq<Action>)
    ensures NeverRestarts(Start(ws), actions) ==> AlwaysProtected(Start(ws), actions)
    ensures (forall a :: a in actions && a.DoRegister? ==> !a.faults.setOwner) ==>
              (AlwaysProtected(Start(ws), actions) <==> NeverRestarts(Start(ws), actions))
  {
    GuardProtectsIff(ws, actions);
    RestartsDecide(Start(ws), actions);
  }

  /** Unregistrations and shutdowns. */
  predicate Leaves(a: Action) {
    a.DoUnregister? || a.DoShutdown?
  }

  predicate OwnedByOther(s: Cluster, w: WorkerId, t: Token) {
    t in s.shared.owner && s.shared.owner[t] != w
  }

  /** The step, if somebody leaves, keeps the keys of every token that another worker owns. */
  ghost predicate Spares(s: Cluster, a: Action) {
    Leaves(a) ==> forall t :: OwnedByOther(s, a.w, t) ==> KeysKept(s.shared, Step(s, a).shared, t)
  }

  ghost predicate AlwaysSpares(s: Cluster, actions: seq<Action>)
    decreases |actions|
  {
    actions != [] ==> Spares(s, actions[0]) && AlwaysSpares(Step(s, actions[0]), actions[1..])
  }

  /** The guards for tokens of other owners that the step gets to can read the generation. */
  ghost predicate ReadsGuards(s: Cluster, a: Action)
    requires Leaves(a)
  {
    a.w in s.workers ==>
      && (a.DoUnregister? && OwnedByOther(s, a.w, a.t) && !TakenOver(s.workers[a.w], a.t, Some(a.c)) ==> !a.readFails)
      && (a.DoShutdown? ==> forall t :: t in s.workers[a.w].bots && OwnedByOther(s, a.w, t) ==> t !in a.unreadable)
  }

  ghost predicate AlwaysReadsGuards(s: Cluster, actions: seq<Action>)
    decreases |actions|
  {
    actions != [] ==>
      (Leaves(actions[0]) ==> ReadsGuards(s, actions[0])) && AlwaysReadsGuards(Step(s, actions[0]), actions[1..])
  }

  /** A worker that leaves is behind for every token that another worker owns, whether it holds it or not. */
  lemma LeaverIsBehind(s: Cluster, w: WorkerId, t: Token)
    requires Invariant(s) && Behind(s) && w in s.workers && OwnedByOther(s, w, t)
    ensures t in s.shared.gen && LocalGen(s.workers[w], t) < s.shared.gen[t]
  {
    assert t in s.shared.owner.Keys;
    if t in s.workers[w].gens {
      assert Holds(s, w, t);
    }
  }

  lemma UnregisterSpares(s: Cluster, a: Action)
    requires Invariant(s) && Behind(s) && a.DoUnregister? && a.w in s.workers
    ensures Spares(s, a) <==> ReadsGuards(s, a)
  {
    if OwnedByOther(s, a.w, a.t) {
      LeaverIsBehind(s, a.w, a.t);
      var reached := !TakenOver(s.workers[a.w], a.t, Some(a.c));
      assert KeysKept(s.shared, Step(s, a).shared, a.t) <==> !(reached && a.readFails);
    }
  }

  lemma ShutdownSpares(s: Cluster, a: Action)
    requires Invariant(s) && Behind(s) && a.DoShutdown? && a.w in s.workers
    ensures Spares(s, a) <==> ReadsGuards(s, a)
  {
    var l := s.workers[a.w];
    forall t | OwnedByOther(s, a.w, t)
      ensures KeysKept(s.shared, Step(s, a).shared, t) <==> !(t in l.bots && t in a.unreadable)
    {
      LeaverIsBehind(s, a.w, t);
    }
  }

  lemma SparesIff(s: Cluster, a: Action)
    requires Invariant(s) && Behind(s) && Leaves(a)
    ensures Spares(s, a) <==> ReadsGuards(s, a)
  {
    if a.w in s.workers {
      if a.DoUnregister? {
        UnregisterSpares(s, a);
      } else {
        ShutdownSpares(s, a);
      }
    }
  }

  lemma {:induction false} SparesRun(s: Cluster, actions: seq<Action>)
    requires Invariant(s) && Behind(s) && AlwaysOutranks(s, actions)
    ensures AlwaysSpares(s, actions) <==> AlwaysReadsGuards(s, actions)
    decreases |actions|
  {
    if actions != [] {
      var a := actions[0];
      StepAgrees(s, a);
      StepMatches(s, a);
      StepBehind(s, a);
      if Leaves(a) {
        SparesIff(s, a);
      }
      SparesRun(Step(s, a), actions[1..]);
    }
  }

  /** The steps of the run themselves.  When each successful registration gets a generation above those of
      the other holders, and in particular when no registration restarts the count over another holder: no
      unregistration and no shutdown in the run changes a key of a token that another worker owns, if and
      only if every guard that they get to for such a token can read the generation. */
  lemma RunSparesOwners(ws: set<WorkerId>, actions: seq<Action>)
    requires AlwaysOutranks(Start(ws), actions) || NeverRestarts(Start(ws), actions)
    ensures AlwaysSpares(Start(ws), actions) <==> AlwaysReadsGuards(Start(ws), actions)
  {
    RestartsDecide(Start(ws), actions);
    SparesRun(Start(ws), actions);
  }

  /** What one guard that cannot read does, in a run without restarts: the late unregistration of `a` removes
      the keys of the live registration at `b`. */
  lemma UnreadGuardStrips(a: WorkerId, b: WorkerId, t: Token)
    requires a != b
    ensures var actions := [FirstClaim(a, t, 1, 0), FirstClaim(b, t, 2, 1), DoUnregister(a, t, 1, true)];
            var s := Run(Start({a, b}), actions);
            && NeverRestarts(Start({a, b}), actions) && AlwaysProtected(Start({a, b}), actions)
            && Holds(s, b, t) && t !in s.shared.owner && t !in s.shared.gen && t !in s.shared.alive
  {
    var s0, first, second, last := Start({a, b}), FirstClaim(a, t, 1, 0), FirstClaim(b, t, 2, 1),
                                   DoUnregister(a, t, 1, true);
    var s1 := Step(s0, first);
    var s2 := Step(s1, second);
    TwoClaims(a, b, t);
    RestartFreeRun(s0, first, second, last);
    RestartsAreTheDanger({a, b}, [first, second, last]);
    RunCons(s0, first, [second, last]);
    RunCons(s1, second, [last]);
    RunCons(s2, last, []);
    assert [first, second, last] == [first] + [second, last] && [second, last] == [second] + [last];
    assert [last] == [last] + [];
  }

  /** Two workers register one after the other, and the first does not notice. */
  lemma TwoClaims(a: WorkerId, b: WorkerId, t: Token)
    requires a != b
    ensures var s1 := Step(Start({a, b}), FirstClaim(a, t, 1, 0));
            var s := Step(s1, FirstClaim(b, t, 2, 1));
            && Run(Start({a, b}), [FirstClaim(a, t, 1, 0), FirstClaim(b, t, 2, 1)]) == s
            && t in s1.shared.gen && s.shared.gen == map[t := 2] && s.shared.owner == map[t := b]
            && a in s.workers && s.workers[a].bots == map[t := 1] && s.workers[a].gens == map[t := 1]
            && Holds(s, b, t)
  {
    var s0, first, second := Start({a, b}), FirstClaim(a, t, 1, 0), FirstClaim(b, t, 2, 1);
    var s1 := Step(s0, first);
    assert s1.shared.gen == map[t := 1] && s1.workers[a].gens == map[t := 1] && s1.workers[a].bots == map[t := 1];
    assert s1.workers[b] == FreshLocal;
    var s2 := Step(s1, second);
    assert s2.shared.gen == map[t := 2] && s2.shared.owner == map[t := b] && s2.workers[a] == s1.workers[a];
    RunCons(s0, first, [second]);
    RunCons(s1, second, []);
    assert [second] + [] == [second] && [first] + [second] == [first, second];
  }

  lemma RestartFreeRun(s: Cluster, a: Action, b: Action, c: Action)
    requires !Restarts(s, a) && !Restarts(Step(s, a), b) && !Restarts(Step(Step(s, a), b), c)
    ensures NeverRestarts(s, [a, b, c])
  {
    assert [a, b, c][1..] == [b, c] && [b, c][1..] == [c] && [c][1..] == [];
    assert NeverRestarts(Step(Step(s, a), b), [c]) && NeverRestarts(Step(s, a), [b, c]);
  }

  /** In every run without such a registration the holders of a token are ordered by generation, and only
      the owner can be at the shared generation. */
  lemma GenerationsOrdered(ws: set<WorkerId>, actions: seq<Action>)
    requires NeverRestarts(Start(ws), actions)
    ensures Ordered(Run(Start(ws), actions))
  {
    RestartsDecide(Start(ws), actions);
  }

  function FirstClaim(w: WorkerId, t: Token, c: Conn, now: int): Action {
    DoRegister(w, t, c, now, NoRegisterFaults)
  }

  lemma RunCons(s: Cluster, a: Action, rest: seq<Action>)
    ensures Run(s, [a] + rest) == Run(Step(s, a), rest)
  {
    assert ([a] + rest)[1..] == rest;
  }

  /** In any state: when `b` registers while the counter is gone and `a` holds the token, the next
      unregistration of `a` removes the keys of the live registration. */
  lemma RestartIsUnsafe(s: Cluster, a: WorkerId, b: WorkerId, t: Token, c: Conn, now: int)
    requires AllAgree(s) && a != b && Holds(s, a, t) && s.workers[a].gens[t] >= 1
    requires b in s.workers && !s.workers[b].shuttingDown && t !in s.shared.gen
    requires t in s.workers[a].bots
    ensures var s' := Step(Step(s, FirstClaim(b, t, c, now)), DoUnregister(a, t, s.workers[a].bots[t], false));
            Holds(s', b, t) && t !in s'.shared.owner && t !in s'.shared.gen
  {
    var s1 := Step(s, FirstClaim(b, t, c, now));
    ClaimStep(s, FirstClaim(b, t, c, now));
    assert s1.shared.gen[t] == 1 && s1.workers[a] == s.workers[a];
  }

  /** The counter can go while `a` still holds the token, by expiry or by the shutdown of `a`.  Then `b`
      registers at generation 1 again, and the late unregistration of `a` removes the keys of the live
      registration. */
  lemma ResetDefeatsGuard(a: WorkerId, b: WorkerId, t: Token, reset: Action)
    requires a != b
    requires reset == DoCleanup(30) || reset == DoShutdown(a, {})
    ensures var s := Run(Start({a, b}), [FirstClaim(a, t, 1, 0), reset, FirstClaim(b, t, 2, 30),
                                         DoUnregister(a, t, 1, false)]);
            Holds(s, b, t) && t !in s.shared.owner && t !in s.shared.gen
  {
    var s0, first, second, last := Start({a, b}), FirstClaim(a, t, 1, 0), FirstClaim(b, t, 2, 30),
                                   DoUnregister(a, t, 1, false);
    var s1 := Step(s0, first);
    var s2 := Step(s1, reset);
    StepAgrees(s0, first);
    StepAgrees(s1, reset);
    Reset(s0, s1, a, t, reset);
    assert s2.workers[b] == FreshLocal;
    RestartIsUnsafe(s2, a, b, t, 2, 30);
    FourSteps(s0, first, reset, second, last);
  }

  lemma Reset(s0: Cluster, s1: Cluster, a: WorkerId, t: Token, reset: Action)
    requires a in s0.workers && s0.workers[a] == FreshLocal && s0.shared == EmptyShared
    requires s1 == Step(s0, FirstClaim(a, t, 1, 0))
    requires reset == DoCleanup(30) || reset == DoShutdown(a, {})
    ensures var s2 := Step(s1, reset);
            && t !in s2.shared.gen && Holds(s2, a, t) && s2.workers[a].gens[t] == 1
            && t in s2.workers[a].bots && s2.workers[a].bots[t] == 1
            && s2.workers == if reset.DoShutdown? then s1.workers[a := ShutdownLocal(s1.workers[a])] else s1.workers
  {
    assert s1.shared.gen == map[t := 1] && s1.workers[a].gens == map[t := 1] && s1.workers[a].bots == map[t := 1];
    assert s1.shared.alive == map[t := 0];
  }

  lemma FourSteps(s: Cluster, a: Action, b: Action, c: Action, d: Action)
    ensures Run(s, [a, b, c, d]) == Step(Step(Step(Step(s, a), b), c), d)
  {
    RunCons(s, a, [b, c, d]);
    RunCons(Step(s, a), b, [c, d]);
    RunCons(Step(Step(s, a), b), c, [d]);
    RunCons(Step(Step(Step(s, a), b), c), d, []);
    assert [a, b, c, d] == [a] + [b, c, d] && [b, c, d] == [b] + [c, d] && [c, d] == [c] + [d] && [d] == [d] + [];
  }

  /** An administrative removal leaves no key of the token behind, unless the worker that serves it holds
      the token itself with an older generation, and can read the newer one: then the guard keeps the keys
      of the live registration, and no disconnect is sent to its worker. */
  lemma RemovalIsComplete(s: Cluster, w: WorkerId, t: Token, readFails: bool)
    requires AllAgree(s) && w in s.workers
    ensures var s' := Step(s, DoRemove(w, t, readFails));
            && t !in s'.workers[w].bots
            && (t !in s'.shared.gen && t !in s'.shared.owner && t !in s'.shared.alive
                <==> t !in s.workers[w].bots || !Outdated(s.shared, s.workers[w], t) || readFails)
    ensures t in s.workers[w].bots && Outdated(s.shared, s.workers[w], t) && !readFails ==>
              && Step(s, DoRemove(w, t, readFails)).shared == s.shared
              && DisconnectTarget(s.shared, s.workers[w], t) == None
    ensures t !in s.workers[w].bots ==> DisconnectTarget(s.shared, s.workers[w], t) == Lookup(s.shared.owner, t)
    ensures forall v :: DisconnectTarget(s.shared, s.workers[w], t) == Some(v) && v in s.workers ==>
              !Holds(Step(Step(s, DoRemove(w, t, readFails)), DoDisconnect(v, t)), v, t)
  {
    var l := s.workers[w];
    assert Agreement(l);
    assert t in l.bots.Keys <==> t in l.gens.Keys;
  }

  /** Two registrations are enough to get there: a removal served by the first worker leaves the live
      registration at the second as it is. */
  lemma RemovalCanMissLiveBot(a: WorkerId, b: WorkerId, t: Token)
    requires a != b
    ensures var s := Run(Start({a, b}), [FirstClaim(a, t, 1, 0), FirstClaim(b, t, 2, 1)]);
            && a in s.workers && DisconnectTarget(s.shared, s.workers[a], t) == None
            && var s' := Step(s, DoRemove(a, t, false));
               Holds(s', b, t) && s'.shared.owner == map[t := b] && s'.shared.gen == map[t := 2]
  {
    TwoClaims(a, b, t);
  }

  // ---------------------------------------------------------------------------------------------
  // Self-stabilisation
  // ---------------------------------------------------------------------------------------------

  /** In a quiet period only heartbeats and reconcile passes happen, and every read succeeds. */
  predicate Quiet(a: Action, sizes: map<WorkerId, int>) {
    || a.DoHeartbeat?
    || (a.DoReconcile? && a.w in sizes && a.k == sizes[a.w] && a.unread == NoReadFaults)
  }

  function PassesOf(actions: seq<Action>, w: WorkerId): nat {
    if actions == [] then 0
    else (if actions[0].DoReconcile? && actions[0].w == w then 1 else 0) + PassesOf(actions[1..], w)
  }

  function Reconciles(sh: Shared, l: Local, w: WorkerId, k: int, m: nat): Local
    decreases m
  {
    if m == 0 then l else Reconciles(sh, Reconcile(sh, l, w, k, NoReadFaults), w, k, m - 1)
  }

  function Stale(sh: Shared, l: Local, w: WorkerId): set<Token> {
    StaleTokens(sh, l, w, NoReadFaults)
  }

  lemma {:induction false} PassesAgree(r: Ring, k: int, stale: set<Token>, stale': set<Token>, m: nat)
    requires ValidRing(r) && forall t :: t in Tracked(r) ==> (t in stale <==> t in stale')
    ensures Passes(r, k, stale, m) == Passes(r, k, stale', m)
    decreases m
  {
    if m > 0 {
      BatchHasNoDuplicates(r, k);
      forall t | t in Batch(r, k) ensures t in stale <==> t in stale' {
        assert t in Elems(Batch(r, k));
      }
      DropStaleAgree(AfterBatch(r, k), Batch(r, k), stale, stale');
      PassTracked(r, k, stale);
      PassesAgree(Pass(r, k, stale), k, stale, stale', m - 1);
    }
  }

  /** Evicting tokens does not make a remaining token stale or fresh. */
  lemma StaleRestricts(sh: Shared, l: Local, w: WorkerId, k: int)
    requires Agreement(l)
    ensures var l' := Reconcile(sh, l, w, k, NoReadFaults);
            && Agreement(l')
            && Stale(sh, l', w) == Stale(sh, l, w) * Tracked(l'.ring)
            && l'.ring == Pass(l.ring, k, Stale(sh, l, w))
            && l'.bots.Items <= l.bots.Items && l'.gens.Items <= l.gens.Items
  {
    var l' := Reconcile(sh, l, w, k, NoReadFaults);
    ReconcileAgrees(sh, l, w, k, NoReadFaults);
    PassTracked(l.ring, k, Stale(sh, l, w));
    forall t | t in Tracked(l'.ring) ensures t in Stale(sh, l', w) <==> t in Stale(sh, l, w) {
      assert t in l'.gens.Keys && l'.gens[t] == l.gens[t];
    }
  }

  /** A worker's passes drive its ring as the ring theorem says, and its maps with it. */
  lemma {:induction false} ReconcilesFollowRing(sh: Shared, l: Local, w: WorkerId, k: int, m: nat)
    requires Agreement(l)
    ensures var l' := Reconciles(sh, l, w, k, m);
            && Agreement(l')
            && l'.ring == Passes(l.ring, k, Stale(sh, l, w), m)
            && l'.bots.Items <= l.bots.Items && l'.gens.Items <= l.gens.Items
    decreases m
  {
    if m > 0 {
      var next := Reconcile(sh, l, w, k, NoReadFaults);
      StaleRestricts(sh, l, w, k);
      ReconcilesFollowRing(sh, next, w, k, m - 1);
      PassesAgree(next.ring, k, Stale(sh, next, w), Stale(sh, l, w), m - 1);
    }
  }

  lemma QuietStep(s: Cluster, a: Action, sizes: map<WorkerId, int>)
    requires Quiet(a, sizes)
    ensures Step(s, a).shared.gen == s.shared.gen && Step(s, a).shared.owner == s.shared.owner
    ensures Step(s, a).workers.Keys == s.workers.Keys
    ensures forall w :: w in s.workers ==>
              Step(s, a).workers[w] ==
                if a.DoReconcile? && a.w == w then Reconcile(s.shared, s.workers[w], w, a.k, NoReadFaults)
                else s.workers[w]
  {
  }

  /** Heartbeats do not change what a pass does. */
  lemma {:induction false} HeartbeatsDoNotMatter(sh: Shared, sh': Shared, l: Local, w: WorkerId, k: int, m: nat)
    requires sh.gen == sh'.gen && sh.owner == sh'.owner
    ensures Reconciles(sh, l, w, k, m) == Reconciles(sh', l, w, k, m)
    decreases m
  {
    if m > 0 {
      assert Stale(sh, l, w) == Stale(sh', l, w);
      HeartbeatsDoNotMatter(sh, sh', Reconcile(sh, l, w, k, NoReadFaults), w, k, m - 1);
    }
  }

  /** One step of a quiet period in front of a worker's passes. */
  lemma QuietCons(sh: Shared, sh': Shared, l: Local, l': Local, w: WorkerId, k: int, a: Action, rest: seq<Action>)
    requires sh.gen == sh'.gen && sh.owner == sh'.owner
    requires l' == if a.DoReconcile? && a.w == w then Reconcile(sh, l, w, k, NoReadFaults) else l
    ensures Reconciles(sh', l', w, k, PassesOf(rest, w)) == Reconciles(sh, l, w, k, PassesOf([a] + rest, w))
  {
    assert ([a] + rest)[1..] == rest;
    HeartbeatsDoNotMatter(sh, sh', l', w, k, PassesOf(rest, w));
  }

  /** However the workers' steps interleave, each worker ends where its own passes take it. */
  lemma {:induction false} QuietRun(s: Cluster, actions: seq<Action>, sizes: map<WorkerId, int>, w: WorkerId)
    requires forall a :: a in actions ==> Quiet(a, sizes)
    requires w in s.workers && w in sizes
    ensures var s' := Run(s, actions);
            && s'.shared.gen == s.shared.gen && s'.shared.owner == s.shared.owner
            && w in s'.workers
            && s'.workers[w] == Reconciles(s.shared, s.workers[w], w, sizes[w], PassesOf(actions, w))
    decreases |actions|
  {
    if actions != [] {
      var a, rest, s1 := actions[0], actions[1..], Step(s, actions[0]);
      assert a in actions && forall b :: b in rest ==> b in actions;
      QuietStep(s, a, sizes);
      QuietCons(s.shared, s1.shared, s.workers[w], s1.workers[w], w, sizes[w], a, rest);
      assert actions == [a] + rest;
      QuietRun(s1, rest, sizes, w);
    }
  }

  /** A worker gets enough passes to clear its ring. */
  predicate EnoughPasses(s: Cluster, actions: seq<Action>, sizes: map<WorkerId, int>, w: WorkerId)
    requires w in s.workers
  {
    && w in sizes && sizes[w] > 0
    && PassesOf(actions, w) >= PassBound(s.workers[w].ring, sizes[w], Stale(s.shared, s.workers[w], w))
  }

  function PassPlan(w: WorkerId, k: int, n: nat): seq<Action> {
    if n == 0 then [] else [DoReconcile(w, k, NoReadFaults)] + PassPlan(w, k, n - 1)
  }

  lemma {:induction false} PlanIsQuiet(w: WorkerId, k: int, n: nat, sizes: map<WorkerId, int>)
    requires w in sizes && sizes[w] == k
    ensures forall a :: a in PassPlan(w, k, n) ==> Quiet(a, sizes)
    ensures PassesOf(PassPlan(w, k, n), w) == n
  {
    if n > 0 {
      PlanIsQuiet(w, k, n - 1, sizes);
    }
  }

  lemma {:induction false} PassesOfBoth(a: seq<Action>, b: seq<Action>, w: WorkerId)
    ensures PassesOf(a + b, w) == PassesOf(a, w) + PassesOf(b, w)
    decreases |a|
  {
    if a == [] {
      assert a + b == b;
    } else {
      assert (a + b)[1..] == a[1..] + b;
      PassesOfBoth(a[1..], b, w);
    }
  }

  /** From any state, finitely many passes are enough for all workers. */
  lemma {:induction false} EnoughExists(s: Cluster, sizes: map<WorkerId, int>, ws: set<WorkerId>)
    returns (actions: seq<Action>)
    requires ws <= s.workers.Keys
    requires forall w :: w in s.workers ==> w in sizes && sizes[w] > 0
    ensures forall a :: a in actions ==> Quiet(a, sizes)
    ensures forall w :: w in ws ==> EnoughPasses(s, actions, sizes, w)
    decreases ws
  {
    if ws == {} {
      actions := [];
    } else {
      var w :| w in ws;
      var n := PassBound(s.workers[w].ring, sizes[w], Stale(s.shared, s.workers[w], w));
      var plan := PassPlan(w, sizes[w], n);
      var rest := EnoughExists(s, sizes, ws - {w});
      PlanIsQuiet(w, sizes[w], n, sizes);
      actions := plan + rest;
      forall v | v in ws ensures EnoughPasses(s, actions, sizes, v) {
        assert v != w ==> EnoughPasses(s, rest, sizes, v);
        PassesOfBoth(plan, rest, v);
      }
    }
  }

  /** A worker may keep a token: no other owner is recorded and no newer generation exists. */
  predicate MayKeep(s: Cluster, w: WorkerId, t: Token)
    requires w in s.workers
  {
    !OwnedElsewhere(s.shared, w, t) && !Outdated(s.shared, s.workers[w], t)
  }

  function Kept(s: Cluster, w: WorkerId): set<Token>
    requires w in s.workers
  {
    set t | t in s.workers[w].bots && MayKeep(s, w, t)
  }

  /** Self-stabilisation.  From any shared keys and any worker states, after a quiet period in any
      interleaving, every worker that got enough passes in it holds exactly the tokens it held and may
      keep, on the same connections and with the same generations. */
  lemma SelfStabilises(s: Cluster, actions: seq<Action>, sizes: map<WorkerId, int>, w: WorkerId)
    requires AllAgree(s) && w in s.workers
    requires forall a :: a in actions ==> Quiet(a, sizes)
    requires EnoughPasses(s, actions, sizes, w)
    ensures w in Run(s, actions).workers
    ensures var l, l' := s.workers[w], Run(s, actions).workers[w];
            && l'.bots.Keys == l'.gens.Keys == Kept(s, w)
            && l'.bots.Items <= l.bots.Items && l'.gens.Items <= l.gens.Items
  {
    var l, m := s.workers[w], PassesOf(actions, w);
    var stale := Stale(s.shared, l, w);
    QuietRun(s, actions, sizes, w);
    ReconcilesFollowRing(s.shared, l, w, sizes[w], m);
    StaleTokensEliminated(l.ring, sizes[w], stale, m);
    KeptAreNotStale(s, w);
  }

  lemma KeptAreNotStale(s: Cluster, w: WorkerId)
    requires AllAgree(s) && w in s.workers
    ensures Kept(s, w) == Tracked(s.workers[w].ring) - Stale(s.shared, s.workers[w], w)
  {
    assert Agreement(s.workers[w]);
  }

  /** In particular a token with a recorded owner is then held by no other worker, and the owner still
      holds it unless a newer generation had overtaken it. */
  lemma OnlyOwnersHold(s: Cluster, actions: seq<Action>, sizes: map<WorkerId, int>, w: WorkerId, t: Token)
    requires AllAgree(s) && w in s.workers
    requires forall a :: a in actions ==> Quiet(a, sizes)
    requires EnoughPasses(s, actions, sizes, w)
    requires t in s.shared.owner && s.shared.owner[t] != ""
    ensures Holds(Run(s, actions), w, t)
            <==> s.shared.owner[t] == w && Holds(s, w, t) && !Outdated(s.shared, s.workers[w], t)
  {
    SelfStabilises(s, actions, sizes, w);
  }

  /** After a run in which no registration restarts the count over another holder, and a quiet period, a
      counted token is held by its owner's latest registration, if that is still connected, and by nobody
      else. */
  lemma OneHolderAfterRun(ws: set<WorkerId>, before: seq<Action>, actions: seq<Action>,
                          sizes: map<WorkerId, int>, w: WorkerId, t: Token)
    requires "" !in ws && NeverRestarts(Start(ws), before)
    requires w in Run(Start(ws), before).workers && t in Run(Start(ws), before).shared.gen
    requires forall a :: a in actions ==> Quiet(a, sizes)
    requires EnoughPasses(Run(Start(ws), before), actions, sizes, w)
    ensures var s := Run(Start(ws), before);
            && (Holds(Run(s, actions), w, t) <==> Holds(s, w, t) && s.workers[w].gens[t] == s.shared.gen[t])
            && (Holds(Run(s, actions), w, t) ==> t in s.shared.owner && s.shared.owner[t] == w)
  {
    var s := Run(Start(ws), before);
    ReachableInvariant(ws, before);
    GenerationsOrdered(ws, before);
    OwnersAreWorkers(Start(ws), before);
    SelfStabilises(s, actions, sizes, w);
    HoldersAgree(s, w, t);
  }

  lemma HoldersAgree(s: Cluster, w: WorkerId, t: Token)
    requires AllAgree(s) && Ordered(s) && OwnersKnown(s) && "" !in s.workers
    requires w in s.workers && t in s.shared.gen
    ensures t in Kept(s, w) <==> Holds(s, w, t) && s.workers[w].gens[t] == s.shared.gen[t]
  {
    assert Agreement(s.workers[w]);
    assert t in s.workers[w].bots.Keys <==> t in s.workers[w].gens.Keys;
  }

  ghost predicate OwnersKnown(s: Cluster) {
    forall t :: t in s.shared.owner ==> s.shared.owner[t] in s.workers
  }

  lemma {:induction false} OwnersAreWorkers(s: Cluster, actions: seq<Action>)
    requires OwnersKnown(s)
    ensures OwnersKnown(Run(s, actions)) && Run(s, actions).workers.Keys == s.workers.Keys
    decreases |actions|
  {
    if actions != [] {
      var s' := Step(s, actions[0]);
      assert s'.workers.Keys == s.workers.Keys;
      assert OwnersKnown(s') by {
        forall t | t in s'.shared.owner ensures s'.shared.owner[t] in s'.workers.Keys {
        }
      }
      OwnersAreWorkers(s', actions[1..]);
    }
  }
}
