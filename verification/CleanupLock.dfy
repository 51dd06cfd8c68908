/** The timed lock under which one worker at a time cleans up expired bots.

    Time is in milliseconds.  Every Redis command is a step of its own, and a worker may stall between
    any two of its steps. */
module CleanupLocks {
  import opened Prelude
  import opened Bridges

  const CLEANUP_LOCK_TTL: int := 120000

  /** The lock's value and the moment it runs out. */
  datatype Lock = Lock(holder: WorkerId, expiry: int)

  predicate Live(lock: Option<Lock>, now: int) {
    lock.Some? && now < lock.value.expiry
  }

  function Acquire(lock: Option<Lock>, w: WorkerId, now: int): Option<Lock> {
    if Live(lock, now) then lock else Some(Lock(w, now + CLEANUP_LOCK_TTL))
  }

  /** The extend script: only the holder's own lock is extended. */
  function Extend(lock: Option<Lock>, w: WorkerId, now: int): Option<Lock> {
    if Live(lock, now) && lock.value.holder == w then Some(Lock(w, now + CLEANUP_LOCK_TTL)) else lock
  }

  /** The release script: only the holder's own lock is deleted. */
  function Release(lock: Option<Lock>, w: WorkerId, now: int): Option<Lock> {
    if Live(lock, now) && lock.value.holder == w then None else lock
  }

  // ---------------------------------------------------------------------------------------------
  // The code's lock
  // ---------------------------------------------------------------------------------------------

  class LockKey {
    var lock: Option<Lock>

    constructor ()
      ensures lock == None
    {
      lock := None;
    }

    /** SET NX with the time to live. */
    method SetNX(w: WorkerId, now: int) returns (acquired: bool)
      modifies this
      ensures acquired == !Live(old(lock), now)
      ensures lock == Acquire(old(lock), w, now)
    {
      acquired := !Live(lock, now);
      if acquired {
        lock := Some(Lock(w, now + CLEANUP_LOCK_TTL));
      }
    }

    method Get(now: int) returns (holder: Option<WorkerId>)
      ensures holder == if Live(lock, now) then Some(lock.value.holder) else None
    {
      holder := if Live(lock, now) then Some(lock.value.holder) else None;
    }

    /** The script that renews the lock. */
    method ExtendScript(w: WorkerId, now: int)
      modifies this
      ensures lock == Extend(old(lock), w, now)
    {
      var holder := Get(now);
      if holder == Some(w) {
        lock := Some(Lock(w, now + CLEANUP_LOCK_TTL));
      }
    }

    method ReleaseScript(w: WorkerId, now: int)
      modifies this
      ensures lock == Release(old(lock), w, now)
    {
      var holder := Get(now);
      if holder == Some(w) {
        lock := None;
      }
    }
  }

  // ---------------------------------------------------------------------------------------------
  // Runs of all workers
  // ---------------------------------------------------------------------------------------------

  /** `inside` maps each worker that is inside the cleanup to the time of its last acquiring or renewing
      command, whether or not that had an effect. */
  datatype Site = Site(lock: Option<Lock>, inside: map<WorkerId, int>)

  datatype Move =
    | TryAcquire(w: WorkerId, now: int)
    | Renew(w: WorkerId, now: int)
    | Leave(w: WorkerId, now: int)

  const EmptySite := Site(None, map[])

  predicate Enters(s: Site, m: Move) {
    m.TryAcquire? && m.w !in s.inside && !Live(s.lock, m.now)
  }

  /** A worker runs one cleanup at a time, and renews and leaves only while it is inside. */
  function Step(s: Site, m: Move): Site {
    match m
    case TryAcquire(w, now) =>
      if Enters(s, m) then Site(Acquire(s.lock, w, now), s.inside[w := now]) else s
    case Renew(w, now) =>
      if w in s.inside then Site(Extend(s.lock, w, now), s.inside[w := now]) else s
    case Leave(w, now) =>
      if w in s.inside then Site(Release(s.lock, w, now), s.inside - {w}) else s
  }

  function Run(s: Site, ms: seq<Move>): Site
    decreases |ms|
  {
    if ms == [] then s else Run(Step(s, ms[0]), ms[1..])
  }

  /** At this time every worker inside has acquired or renewed less than two minutes ago. */
  ghost predicate InTime(s: Site, now: int) {
    forall w :: w in s.inside ==> now < s.inside[w] + 120000
  }

  /** Each renewal lands before the TTL runs out. */
  ghost predicate Punctual(s: Site, ms: seq<Move>)
    decreases |ms|
  {
    ms != [] ==> InTime(s, ms[0].now) && Punctual(Step(s, ms[0]), ms[1..])
  }

  ghost predicate AtMostOneInside(s: Site) {
    forall v, w :: v in s.inside && w in s.inside ==> v == w
  }

  /** Who is inside has the lock, and it runs out a TTL after the last renewal. */
  ghost predicate Held(s: Site) {
    forall w :: w in s.inside ==> s.lock == Some(Lock(w, s.inside[w] + CLEANUP_LOCK_TTL))
  }

  lemma HeldStep(s: Site, m: Move)
    requires Held(s) && InTime(s, m.now)
    ensures Held(Step(s, m))
  {
  }

  ghost predicate AlwaysOneInside(s: Site, ms: seq<Move>)
    decreases |ms|
  {
    AtMostOneInside(s) && (ms != [] ==> AlwaysOneInside(Step(s, ms[0]), ms[1..]))
  }

  lemma {:induction false} HeldRun(s: Site, ms: seq<Move>)
    requires Held(s) && Punctual(s, ms)
    ensures AlwaysOneInside(s, ms)
    decreases |ms|
  {
    if ms != [] {
      HeldStep(s, ms[0]);
      HeldRun(Step(s, ms[0]), ms[1..]);
    }
  }

  /** If every renewal lands before the TTL runs out, there is never more than one worker inside. */
  lemma MutualExclusion(ms: seq<Move>)
    requires Punctual(EmptySite, ms)
    ensures AlwaysOneInside(EmptySite, ms)
  {
    HeldRun(EmptySite, ms);
  }

  /** While punctuality has held so far, a second worker gets in exactly when the one inside is late. */
  lemma SecondEntersIffLate(s: Site, v: WorkerId, w: WorkerId, now: int)
    requires Held(s) && v in s.inside && w !in s.inside
    ensures AtMostOneInside(Step(s, TryAcquire(w, now))) <==> InTime(s, now)
  {
    assert AtMostOneInside(s);
    var s' := Step(s, TryAcquire(w, now));
    assert Enters(s, TryAcquire(w, now)) ==> v in s'.inside && w in s'.inside;
  }

  ghost predicate FreeOrHeld(s: Site) {
    Held(s) && (s.inside == map[] <==> s.lock.None?)
  }

  lemma FreeOrHeldStep(s: Site, m: Move)
    requires FreeOrHeld(s) && InTime(s, m.now)
    ensures FreeOrHeld(Step(s, m))
  {
    var s' := Step(s, m);
    if m.w in s.inside {
      assert m.Renew? ==> m.w in s'.inside;
      assert forall v :: v in s.inside ==> v == m.w;
    } else if Enters(s, m) {
      assert m.w in s'.inside;
    }
  }

  lemma {:induction false} FreeOrHeldRun(s: Site, ms: seq<Move>)
    requires FreeOrHeld(s) && Punctual(s, ms)
    ensures FreeOrHeld(Run(s, ms))
    decreases |ms|
  {
    if ms != [] {
      FreeOrHeldStep(s, ms[0]);
      FreeOrHeldRun(Step(s, ms[0]), ms[1..]);
    }
  }

  /** After any punctual run a worker that tries gets in exactly if nobody is inside: who leaves gives the
      lock back, and nothing else does. */
  lemma EntersIffFree(ms: seq<Move>, w: WorkerId, now: int)
    requires Punctual(EmptySite, ms) && InTime(Run(EmptySite, ms), now) && w !in Run(EmptySite, ms).inside
    ensures w in Step(Run(EmptySite, ms), TryAcquire(w, now)).inside <==> Run(EmptySite, ms).inside == map[]
  {
    var s := Run(EmptySite, ms);
    FreeOrHeldRun(EmptySite, ms);
    if s.inside != map[] {
      var v :| v in s.inside;
      assert Live(s.lock, now);
    }
  }

  // ---------------------------------------------------------------------------------------------
  // Without any timing
  // ---------------------------------------------------------------------------------------------

  /** The renewals of one worker. */
  function Own(ms: seq<Move>, v: WorkerId): seq<Move> {
    if ms == [] then [] else (if ms[0].w == v then [ms[0]] else []) + Own(ms[1..], v)
  }

  /** The lock does not run out and its holder does not leave. */
  predicate Keeps(s: Site, ms: seq<Move>, v: WorkerId)
    decreases |ms|
  {
    ms != [] ==>
      && Live(s.lock, ms[0].now) && !(ms[0].Leave? && ms[0].w == v)
      && Keeps(Step(s, ms[0]), ms[1..], v)
  }

  /** While a worker has the lock and renews it in time, the others, stalled or not and inside or not,
      neither extend nor release nor take it: the lock is what the holder's own commands made it. */
  lemma {:induction false} OthersCannotDisturb(s: Site, alone: Site, ms: seq<Move>, v: WorkerId)
    requires s.lock.Some? && s.lock.value.holder == v && v in s.inside
    requires alone.lock == s.lock && v in alone.inside
    requires Keeps(s, ms, v)
    ensures Run(s, ms).lock == Run(alone, Own(ms, v)).lock
    ensures Run(s, ms).lock.Some? && Run(s, ms).lock.value.holder == v
    ensures v in Run(s, ms).inside
    decreases |ms|
  {
    if ms != [] {
      var m, rest := ms[0], ms[1..];
      if m.w == v {
        assert ms == [m] + rest && ([m] + Own(rest, v))[1..] == Own(rest, v);
        OthersCannotDisturb(Step(s, m), Step(alone, m), rest, v);
      } else {
        assert [] + Own(rest, v) == Own(rest, v);
        OthersCannotDisturb(Step(s, m), alone, rest, v);
      }
    }
  }
}
