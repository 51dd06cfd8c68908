/** Bearer-token validation with its 30-second cache in front of the token table.

    A validation that misses the cache first asks the table and then fills the cache; these two halves are
    separate steps here, so that anything can happen between them. */
module AuthCache {
  import opened Prelude
  import opened Rings

  const CACHE_TTL: int := 30

  /** 9999-12-31 23:59:59 UTC, in seconds. */
  const NEVER_EXPIRES: int := 253402300799

  /** The token table maps tokens to their expiry; the cache maps them to the time the entry runs out. */
  datatype Auth = Auth(table: map<Token, int>, cache: map<Token, int>)

  predicate Cached(a: Auth, t: Token, now: int) {
    t in a.cache && now < a.cache[t]
  }

  predicate InTable(table: map<Token, int>, t: Token, now: int) {
    t != "" && t in table && table[t] >= now
  }

  function Expired(table: map<Token, int>, now: int): set<Token> {
    set t | t in table && table[t] < now
  }

  function Expiry(expiresIn: int, now: int): int {
    if expiresIn > 0 then now + expiresIn else NEVER_EXPIRES
  }

  function NewExpiry(expiresIn: int, now: int): int {
    if expiresIn == 0 then NEVER_EXPIRES else now + expiresIn
  }

  // ---------------------------------------------------------------------------------------------
  // Steps
  // ---------------------------------------------------------------------------------------------

  /** `flights` are the validations between their two halves: the token, and when the table said yes. */
  datatype Site = Site(auth: Auth, flights: map<nat, (Token, int)>)

  datatype Move =
    | Begin(id: nat, t: Token, now: int, getFails: bool, dbFails: bool)
    | Finish(id: nat, now: int, setFails: bool)
    | Put(t: Token, expiry: int, now: int)       // a token is created, or given another expiry
    | Remove(t: Token, now: int)                 // both deletions succeed
    | RemoveFromTable(ts: set<Token>, now: int)  // expired tokens, or a removal whose invalidation fails
    | Invalidate(t: Token, now: int)

  function Step(s: Site, m: Move): Site {
    match m
    case Begin(id, t, now, getFails, dbFails) =>
      if Misses(s, m) && !dbFails && InTable(s.auth.table, t, now) then s.(flights := s.flights[id := (t, now)]) else s
    case Finish(id, now, setFails) =>
      if id !in s.flights then s
      else Site(if setFails then s.auth else s.auth.(cache := s.auth.cache[s.flights[id].0 := now + CACHE_TTL]),
                s.flights - {id})
    case Put(t, expiry, now) => s.(auth := s.auth.(table := s.auth.table[t := expiry]))
    case Remove(t, now) => s.(auth := Auth(s.auth.table - {t}, s.auth.cache - {t}))
    case RemoveFromTable(ts, now) => s.(auth := s.auth.(table := s.auth.table - ts))
    case Invalidate(t, now) => s.(auth := s.auth.(cache := s.auth.cache - {t}))
  }

  /** The fast path does not answer.  Ids of validations are not reused while they are under way. */
  predicate Misses(s: Site, m: Move) {
    m.Begin? && m.id !in s.flights && (m.getFails || !Cached(s.auth, m.t, m.now))
  }

  /** A step lets a request with this token pass. */
  predicate Accepts(s: Site, m: Move, t: Token) {
    || (m.Begin? && m.t == t && !m.getFails && Cached(s.auth, t, m.now))
    || (m.Finish? && m.id in s.flights && s.flights[m.id].0 == t)
  }

  /** What a step without a validation does to table and cache. */
  function After(a: Auth, m: Move): Auth {
    Step(Site(a, map[]), m).auth
  }

  // ---------------------------------------------------------------------------------------------
  // The code's token manager and middleware
  // ---------------------------------------------------------------------------------------------

  class TokenStore {
    var table: map<Token, int>
    var cache: map<Token, int>

    function Value(): Auth
      reads this
    {
      Auth(table, cache)
    }

    constructor ()
      ensures Value() == Auth(map[], map[])
    {
      table, cache := map[], map[];
    }

    method Generate(t: Token, expiresIn: int, now: int, dbFails: bool) returns (ok: bool)
      modifies this
      ensures ok == !dbFails
      ensures Value() == if ok then After(old(Value()), Put(t, Expiry(expiresIn, now), now)) else old(Value())
    {
      var expiresAt := NEVER_EXPIRES;
      if expiresIn > 0 {
        expiresAt := now + expiresIn;
      }
      if dbFails {
        return false;
      }
      table := table[t := expiresAt];
      return true;
    }

    method Validate(t: Token, now: int, dbFails: bool) returns (ok: bool)
      ensures ok == (!dbFails && InTable(table, t, now))
    {
      if t == "" {
        return false;
      }
      if dbFails {
        return false;
      }
      ok := t in table && table[t] >= now;
    }

    /** The table changes, the cache does not; a failing read or write changes nothing.  `named` says that
        a new name is written too; names are not modelled. */
    method Update(t: Token, named: bool, expiresIn: Option<int>, now: int, readFails: bool, writeFails: bool)
      returns (ok: bool, found: bool)
      modifies this
      ensures ok == (!readFails && (t in old(table) && (named || expiresIn.Some?) ==> !writeFails))
      ensures found == (ok && t in old(table))
      ensures Value() == if found && expiresIn.Some?
                         then After(old(Value()), Put(t, NewExpiry(expiresIn.value, now), now)) else old(Value())
    {
      if readFails {
        return false, false;
      }
      if t !in table {
        return true, false;
      }
      var updated := table;
      if expiresIn.Some? {
        var expiresAt := now + expiresIn.value;
        if expiresIn.value == 0 {
          expiresAt := NEVER_EXPIRES;
        }
        updated := updated[t := expiresAt];
      }
      if (named || expiresIn.Some?) && writeFails {
        return false, false;
      }
      table := updated;
      return true, true;
    }

    /** A failing delete changes nothing; a failing cache invalidation goes unnoticed. */
    method Remove(t: Token, now: int, dbFails: bool, delFails: bool) returns (ok: bool)
      modifies this
      ensures ok == !dbFails
      ensures Value() == if ok then After(old(Value()), Removal(t, now, delFails)) else old(Value())
    {
      if dbFails {
        return false;
      }
      table := table - {t};
      if !delFails {
        cache := cache - {t};
      }
      return true;
    }

    method CleanupExpired(now: int) returns (count: nat)
      modifies this
      ensures Value() == After(old(Value()), RemoveFromTable(Expired(old(table), now), now))
      ensures count == |old(table)| - |table|
    {
      var expired := set t | t in table && table[t] < now;
      count := |expired|;
      assert (table - expired).Keys == table.Keys - expired;
      assert |(table - expired).Keys| == |table - expired| && |table.Keys| == |table|;
      table := table - expired;
    }

    method InvalidateTokenCache(t: Token, now: int)
      modifies this
      ensures Value() == After(old(Value()), Invalidate(t, now))
    {
      cache := cache - {t};
    }

    /** The first half: the fast path, and the question to the table.  `hit` is an answer already, `valid`
        means that the second half is to come. */
    method LookUp(t: Token, now: int, getFails: bool, dbFails: bool) returns (hit: bool, valid: bool)
      ensures var m := Begin(0, t, now, getFails, dbFails);
              && hit == Accepts(Site(Value(), map[]), m, t)
              && Step(Site(Value(), map[]), m) == Site(Value(), if valid then map[0 := (t, now)] else map[])
      ensures hit || valid == ((!getFails && Cached(Value(), t, now)) || (!dbFails && InTable(table, t, now)))
    {
      if !getFails && t in cache && now < cache[t] {
        return true, false;
      }
      valid := Validate(t, now, dbFails);
      hit := false;
    }

    /** The second half. */
    method Fill(t: Token, since: int, now: int, setFails: bool)
      modifies this
      ensures Site(Value(), map[]) == Step(Site(old(Value()), map[0 := (t, since)]), Finish(0, now, setFails))
    {
      if !setFails {
        cache := cache[t := now + CACHE_TTL];
      }
    }

    /** A validation nothing comes between; `later` is the time at which the cache is filled. */
    method ValidateCached(t: Token, now: int, later: int, getFails: bool, dbFails: bool, setFails: bool)
      returns (ok: bool)
      modifies this
      ensures ok == ((!getFails && Cached(old(Value()), t, now)) || (!dbFails && InTable(old(table), t, now)))
      ensures var begun := Step(Site(old(Value()), map[]), Begin(0, t, now, getFails, dbFails));
              Site(Value(), map[]) == Step(begun, Finish(0, later, setFails))
    {
      var hit, valid := LookUp(t, now, getFails, dbFails);
      if hit {
        return true;
      }
      if valid {
        Fill(t, now, later, setFails);
        return true;
      }
      return false;
    }
  }

  // ---------------------------------------------------------------------------------------------
  // Runs
  // ---------------------------------------------------------------------------------------------

  /** Time does not run backwards, and no validation takes longer than `delay` between its halves. */
  ghost predicate Timed(s: Site, ms: seq<Move>, now: int, delay: int)
    decreases |ms|
  {
    ms != [] ==>
      && now <= ms[0].now
      && (forall id :: id in s.flights ==> ms[0].now - s.flights[id].1 <= delay)
      && Timed(Step(s, ms[0]), ms[1..], ms[0].now, delay)
  }

  /** The table held the token unexpired at a moment within the window that ends now. */
  ghost predicate ValidWithin(history: seq<(int, map<Token, int>)>, t: Token, after: int, now: int) {
    t != "" && exists i :: 0 <= i < |history| && after < history[i].0 <= now
                           && t in history[i].1 && history[i].0 <= history[i].1[t]
  }

  /** Every cache entry and every validation under way goes back to a moment when the token was valid. */
  ghost predicate Grounded(s: Site, history: seq<(int, map<Token, int>)>, now: int, delay: int) {
    && (forall t :: t in s.auth.cache ==> ValidWithin(history, t, s.auth.cache[t] - CACHE_TTL - delay - 1, now))
    && (forall id :: id in s.flights ==> ValidWithin(history, s.flights[id].0, s.flights[id].1 - 1, now))
  }

  lemma LongerHistory(history: seq<(int, map<Token, int>)>, moment: (int, map<Token, int>), t: Token,
                      after: int, after': int, now: int, now': int)
    requires ValidWithin(history, t, after, now) && after' <= after && now <= now'
    ensures ValidWithin(history + [moment], t, after', now')
  {
    var i :| 0 <= i < |history| && after < history[i].0 <= now && t in history[i].1 && history[i].0 <= history[i].1[t];
    assert (history + [moment])[i] == history[i];
  }

  lemma JustNow(history: seq<(int, map<Token, int>)>, table: map<Token, int>, t: Token, now: int)
    requires InTable(table, t, now)
    ensures ValidWithin(history + [(now, table)], t, now - 1, now)
  {
    assert (history + [(now, table)])[|history|] == (now, table);
  }

  lemma GroundedStep(s: Site, m: Move, history: seq<(int, map<Token, int>)>, now: int, delay: int)
    requires Grounded(s, history, now, delay) && now <= m.now && delay >= 0
    requires forall id :: id in s.flights ==> m.now - s.flights[id].1 <= delay
    ensures Grounded(Step(s, m), history + [(m.now, s.auth.table)], m.now, delay)
  {
    var s', moment := Step(s, m), (m.now, s.auth.table);
    forall t | t in s'.auth.cache
      ensures ValidWithin(history + [moment], t, s'.auth.cache[t] - CACHE_TTL - delay - 1, m.now)
    {
      if m.Finish? && m.id in s.flights && !m.setFails && t == s.flights[m.id].0 {
        LongerHistory(history, moment, t, s.flights[m.id].1 - 1, s'.auth.cache[t] - CACHE_TTL - delay - 1, now, m.now);
      } else {
        var after := s.auth.cache[t] - CACHE_TTL - delay - 1;
        LongerHistory(history, moment, t, after, after, now, m.now);
      }
    }
    forall id | id in s'.flights
      ensures ValidWithin(history + [moment], s'.flights[id].0, s'.flights[id].1 - 1, m.now)
    {
      if id in s.flights {
        LongerHistory(history, moment, s.flights[id].0, s.flights[id].1 - 1, s.flights[id].1 - 1, now, m.now);
      } else {
        JustNow(history, s.auth.table, s'.flights[id].0, m.now);
      }
    }
  }

  lemma AcceptBacked(s: Site, m: Move, t: Token, history: seq<(int, map<Token, int>)>, now: int, delay: int)
    requires Grounded(s, history, now, delay) && now <= m.now && delay >= 0 && Accepts(s, m, t)
    requires forall id :: id in s.flights ==> m.now - s.flights[id].1 <= delay
    ensures ValidWithin(history, t, m.now - CACHE_TTL - delay, m.now)
  {
    var after := if m.Begin? then s.auth.cache[t] - CACHE_TTL - delay - 1 else s.flights[m.id].1 - 1;
    var i :| 0 <= i < |history| && after < history[i].0 <= now && t in history[i].1 && history[i].0 <= history[i].1[t];
  }

  /** Every request that a run lets pass is backed by the table; `history` is what the table was before. */
  ghost predicate AllBacked(s: Site, ms: seq<Move>, history: seq<(int, map<Token, int>)>, delay: int)
    decreases |ms|
  {
    ms != [] ==>
      && (forall t :: Accepts(s, ms[0], t) ==> ValidWithin(history, t, ms[0].now - 30 - delay, ms[0].now))
      && AllBacked(Step(s, ms[0]), ms[1..], history + [(ms[0].now, s.auth.table)], delay)
  }

  lemma {:induction false} RunBacked(s: Site, ms: seq<Move>, history: seq<(int, map<Token, int>)>, now: int, delay: int)
    requires Grounded(s, history, now, delay) && Timed(s, ms, now, delay) && delay >= 0
    ensures AllBacked(s, ms, history, delay)
    decreases |ms|
  {
    if ms != [] {
      forall t | Accepts(s, ms[0], t)
        ensures ValidWithin(history, t, ms[0].now - 30 - delay, ms[0].now)
      {
        AcceptBacked(s, ms[0], t, history, now, delay);
      }
      GroundedStep(s, ms[0], history, now, delay);
      RunBacked(Step(s, ms[0]), ms[1..], history + [(ms[0].now, s.auth.table)], ms[0].now, delay);
    }
  }

  /** Whenever a request passes, the table held its token unexpired less than 30 s earlier, plus the time
      a validation may take between its halves; with none, it is the 30 s of the cache alone. */
  lemma AcceptedWasValid(table: map<Token, int>, ms: seq<Move>, start: int, delay: int)
    requires Timed(Site(Auth(table, map[]), map[]), ms, start, delay) && delay >= 0
    ensures AllBacked(Site(Auth(table, map[]), map[]), ms, [], delay)
  {
    RunBacked(Site(Auth(table, map[]), map[]), ms, [], start, delay);
  }

  /** A token that is in the table and has not expired passes, at once or when its validation finishes,
      unless the table cannot be asked. */
  lemma ValidPasses(s: Site, id: nat, t: Token, now: int, getFails: bool, later: int, setFails: bool)
    requires id !in s.flights && t != "" && t in s.auth.table && now <= s.auth.table[t]
    ensures var begin := Begin(id, t, now, getFails, false);
            Accepts(s, begin, t) || Accepts(Step(s, begin), Finish(id, later, setFails), t)
  {
  }

  /** When the cache can never be written it stays empty, and every request asks the table. */
  lemma {:induction false} UnwrittenCacheStaysEmpty(s: Site, ms: seq<Move>)
    requires s.auth.cache == map[] && forall m :: m in ms && m.Finish? ==> m.setFails
    ensures Run(s, ms).auth.cache == map[]
    decreases |ms|
  {
    if ms != [] {
      assert ms[0] in ms && forall m :: m in ms[1..] ==> m in ms;
      UnwrittenCacheStaysEmpty(Step(s, ms[0]), ms[1..]);
    }
  }

  // ---------------------------------------------------------------------------------------------
  // Expiry
  // ---------------------------------------------------------------------------------------------

  /** How long a token is valid that was created, or given another expiry, at `now`.  A duration that is not
      positive means for ever at the creation; in an update only zero does, and with a negative one the
      token has expired already. */
  lemma ValidUntil(table: map<Token, int>, t: Token, expiresIn: int, now: int, later: int)
    requires t != "" && now <= later
    ensures InTable(table[t := Expiry(expiresIn, now)], t, later)
            <==> later <= (if expiresIn > 0 then now + expiresIn else 253402300799)
    ensures InTable(table[t := NewExpiry(expiresIn, now)], t, later)
            <==> (if expiresIn == 0 then later <= 253402300799 else later - now <= expiresIn)
    ensures expiresIn < 0 ==> !InTable(table[t := NewExpiry(expiresIn, now)], t, later)
  {
  }

  /** The cleanup keeps exactly the tokens that are still valid, so that no validation from then on can tell
      whether it took place. */
  lemma CleanupIsSilent(table: map<Token, int>, t: Token, now: int, later: int)
    requires t != "" && now <= later
    ensures var after := table - Expired(table, now);
            && (t in after <==> t in table && now <= table[t])
            && (InTable(after, t, later) <==> InTable(table, t, later))
  {
  }

  // ---------------------------------------------------------------------------------------------
  // Removal
  // ---------------------------------------------------------------------------------------------

  ghost predicate NotRecreated(ms: seq<Move>, t: Token) {
    forall m :: m in ms && m.Put? ==> m.t != t
  }

  ghost predicate NeverAccepted(s: Site, ms: seq<Move>, t: Token)
    decreases |ms|
  {
    ms != [] ==> !Accepts(s, ms[0], t) && NeverAccepted(Step(s, ms[0]), ms[1..], t)
  }

  /** Nothing goes back in time. */
  ghost predicate From(ms: seq<Move>, now: int) {
    forall m :: m in ms ==> m.now >= now
  }

  predicate NotUnderWay(s: Site, t: Token) {
    forall id :: id in s.flights ==> s.flights[id].0 != t
  }

  /** Neither the table nor, from now on, the cache knows the token, and no validation of it is under way. */
  predicate Gone(s: Site, t: Token, now: int) {
    t !in s.auth.table && (t in s.auth.cache ==> s.auth.cache[t] <= now) && NotUnderWay(s, t)
  }

  lemma {:induction false} GoneIsNeverAccepted(s: Site, ms: seq<Move>, t: Token, now: int)
    requires Gone(s, t, now) && NotRecreated(ms, t) && From(ms, now)
    ensures NeverAccepted(s, ms, t)
    decreases |ms|
  {
    if ms != [] {
      assert ms[0] in ms && forall m :: m in ms[1..] ==> m in ms;
      GoneIsNeverAccepted(Step(s, ms[0]), ms[1..], t, now);
    }
  }

  function Run(s: Site, ms: seq<Move>): Site
    decreases |ms|
  {
    if ms == [] then s else Run(Step(s, ms[0]), ms[1..])
  }

  const EmptySite := Site(Auth(map[], map[]), map[])

  /** From nothing: a token is created, a validation asks the table, the token is removed, and the
      validation fills the cache.  It lets its request pass, and so does every cached look for 30 s. */
  lemma RemovedTokenPasses(t: Token, later: int, id: nat)
    requires t != "" && later < CACHE_TTL
    ensures var begin := Begin(0, t, 0, false, false);
            var s := Run(EmptySite, [Put(t, 0, 0), begin, Remove(t, 0)]);
            && t !in s.auth.table && Accepts(s, Finish(0, 0, false), t)
            && Accepts(Step(s, Finish(0, 0, false)), Begin(id, t, later, false, false), t)
  {
    var put, begin, remove := Put(t, 0, 0), Begin(0, t, 0, false, false), Remove(t, 0);
    var s2 := Step(Step(EmptySite, put), begin);
    assert s2.flights == map[0 := (t, 0)];
    RunCons(EmptySite, put, [begin, remove]);
    RunCons(Step(EmptySite, put), begin, [remove]);
    RunCons(s2, remove, []);
    assert [put, begin, remove] == [put] + [begin, remove] && [begin, remove] == [begin] + [remove];
    assert [remove] == [remove] + [];
  }

  lemma RunCons(s: Site, m: Move, rest: seq<Move>)
    ensures Run(s, [m] + rest) == Run(Step(s, m), rest)
  {
    assert ([m] + rest)[1..] == rest;
  }

  /** And when the cache could not be invalidated: with nothing under way, the removed token passes for as
      long as its cache entry lives. */
  lemma UnclearedTokenPasses(t: Token, later: int, id: nat)
    requires t != "" && 1 <= later < CACHE_TTL
    ensures var validate := [Begin(0, t, 0, false, false), Finish(0, 0, false)];
            var s := Run(EmptySite, [Put(t, 100, 0)] + validate + [RemoveFromTable({t}, 1)]);
            && t !in s.auth.table && NotUnderWay(s, t)
            && Accepts(s, Begin(id, t, later, false, false), t)
  {
    var put, begin, finish, remove := Put(t, 100, 0), Begin(0, t, 0, false, false), Finish(0, 0, false),
                                      RemoveFromTable({t}, 1);
    var s2 := Step(Step(EmptySite, put), begin);
    assert s2.flights == map[0 := (t, 0)];
    var s3 := Step(s2, finish);
    RunCons(EmptySite, put, [begin, finish, remove]);
    RunCons(Step(EmptySite, put), begin, [finish, remove]);
    RunCons(s2, finish, [remove]);
    RunCons(s3, remove, []);
    assert [put] + [begin, finish] + [remove] == [put] + [begin, finish, remove];
    assert [begin, finish, remove] == [begin] + [finish, remove] && [finish, remove] == [finish] + [remove];
    assert [remove] == [remove] + [];
  }

  /** What a removal that reports success does: the cache may or may not have been invalidated. */
  function Removal(t: Token, now: int, delFails: bool): Move {
    if delFails then RemoveFromTable({t}, now) else Remove(t, now)
  }

  /** A removal is final, in every continuation that does not recreate the token, exactly when no validation
      of the token is between its halves, and, if the cache could not be invalidated, there is no live entry
      in it. */
  lemma RemovalIsFinal(s: Site, t: Token, now: int, delFails: bool)
    ensures (forall ms: seq<Move> :: NotRecreated(ms, t) && From(ms, now) ==>
               NeverAccepted(Step(s, Removal(t, now, delFails)), ms, t))
            <==> NotUnderWay(s, t) && (delFails ==> !Cached(s.auth, t, now))
  {
    var removed := Step(s, Removal(t, now, delFails));
    if id :| id in s.flights && s.flights[id].0 == t {
      var ms := [Finish(id, now, false)];
      assert Accepts(removed, ms[0], t) && NotRecreated(ms, t) && From(ms, now) && !NeverAccepted(removed, ms, t);
    } else if delFails && Cached(s.auth, t, now) {
      var ms := [Begin(0, t, now, false, false)];
      assert Accepts(removed, ms[0], t) && NotRecreated(ms, t) && From(ms, now) && !NeverAccepted(removed, ms, t);
    } else {
      forall ms: seq<Move> | NotRecreated(ms, t) && From(ms, now) ensures NeverAccepted(removed, ms, t) {
        GoneIsNeverAccepted(removed, ms, t, now);
      }
    }
  }

  /** An invalidation makes up for a cache deletion that failed: after both, the token is never accepted
      again, exactly if no validation of it is under way then. */
  lemma InvalidationCompletesRemoval(s: Site, t: Token, now: int)
    requires t !in s.auth.table
    ensures (forall ms: seq<Move> :: NotRecreated(ms, t) && From(ms, now) ==>
               NeverAccepted(Step(s, Invalidate(t, now)), ms, t))
            <==> NotUnderWay(s, t)
  {
    var cleared := Step(s, Invalidate(t, now));
    if id :| id in s.flights && s.flights[id].0 == t {
      var ms := [Finish(id, now, false)];
      assert Accepts(cleared, ms[0], t) && NotRecreated(ms, t) && From(ms, now) && !NeverAccepted(cleared, ms, t);
    } else {
      forall ms: seq<Move> | NotRecreated(ms, t) && From(ms, now) ensures NeverAccepted(cleared, ms, t) {
        GoneIsNeverAccepted(cleared, ms, t, now);
      }
    }
  }
}
