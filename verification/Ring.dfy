/** The reconcile ring of one bridge worker: a duplicate-free list of tracked tokens, an index into
    it for every token, and a cursor that hands the tokens out in batches, round robin.

    `Ring` is the abstract ring (the list and the cursor); `ReconcileRing` is the code's ring, which
    keeps the index map beside the list.  The theorems at the end are about coverage: how many
    passes of "take a batch, drop its stale members" leave no stale token behind. */
module Rings {

  type Token = string

  datatype Ring = Ring(tokens: seq<Token>, cursor: nat)

  const EmptyRing := Ring([], 0)

  ghost predicate NoDuplicates(s: seq<Token>) {
    forall i, j :: 0 <= i < j < |s| ==> s[i] != s[j]
  }

  /** `pos` is the exact inverse of the list. */
  ghost predicate Inverse(s: seq<Token>, pos: map<Token, nat>) {
    && pos.Keys == Elems(s)
    && forall i :: 0 <= i < |s| ==> s[i] in pos && pos[s[i]] == i
  }

  ghost predicate ValidRing(r: Ring) {
    NoDuplicates(r.tokens) && r.cursor <= |r.tokens|
  }

  function Elems(s: seq<Token>): set<Token> {
    set t | t in s
  }

  /** The tokens the ring tracks. */
  function Tracked(r: Ring): set<Token> {
    Elems(r.tokens)
  }

  // ---------------------------------------------------------------------------------------------
  // What the three operations do to the abstract ring
  // ---------------------------------------------------------------------------------------------

  function Track(r: Ring, t: Token): Ring {
    if t in r.tokens then r else Ring(r.tokens + [t], r.cursor)
  }

  function IndexOf(s: seq<Token>, t: Token): (i: nat)
    requires t in s
    ensures i < |s| && s[i] == t
    ensures forall j :: 0 <= j < i ==> s[j] != t
  {
    if s[0] == t then 0 else 1 + IndexOf(s[1..], t)
  }

  /** The list without slot `i`, whose place the last element takes. */
  function SwapRemove(s: seq<Token>, i: nat): seq<Token>
    requires i < |s|
  {
    s[i := s[|s| - 1]][..|s| - 1]
  }

  function CursorAfterRemoval(cursor: nat, i: nat, n: nat): nat {
    var c := if cursor > i then cursor - 1 else cursor;
    if c >= n then 0 else c
  }

  function Untrack(r: Ring, t: Token): Ring {
    if t !in r.tokens then r
    else
      var i := IndexOf(r.tokens, t);
      var s := SwapRemove(r.tokens, i);
      Ring(s, CursorAfterRemoval(r.cursor, i, |s|))
  }

  /** How many tokens one batch holds, for the configured batch size `k`. */
  function Limit(n: nat, k: int): nat {
    if k <= 0 then 0 else if k < n then k else n
  }

  /** A stretch of `len` slots, read cyclically from slot `c`. */
  function Stretch(s: seq<Token>, c: nat, len: nat): seq<Token>
    requires |s| > 0 || len == 0
  {
    seq(len, i requires 0 <= i < len => s[(c + i) % |s|])
  }

  /** A batch is the stretch that starts at the cursor. */
  function Batch(r: Ring, k: int): seq<Token> {
    Stretch(r.tokens, r.cursor, Limit(|r.tokens|, k))
  }

  /** The cursor ends just behind the last slot handed out; it is left at the end of the list, not
      wrapped, when that slot is the last one. */
  function AfterBatch(r: Ring, k: int): Ring {
    var l := Limit(|r.tokens|, k);
    if l == 0 then r else r.(cursor := (r.cursor + l - 1) % |r.tokens| + 1)
  }

  // ---------------------------------------------------------------------------------------------
  // The code's ring
  // ---------------------------------------------------------------------------------------------

  class ReconcileRing {
    var tokens: seq<Token>
    var pos: map<Token, nat>
    var cursor: nat

    ghost predicate Valid()
      reads this
    {
      cursor <= |tokens| && Inverse(tokens, pos)
    }

    function Value(): Ring
      reads this
    {
      Ring(tokens, cursor)
    }

    constructor ()
      ensures Valid() && Value() == EmptyRing
    {
      tokens, pos, cursor := [], map[], 0;
    }

    lemma ValidValue()
      requires Valid()
      ensures ValidRing(Value())
    {
      InverseNoDuplicates(tokens, pos);
    }

    method TrackReconcileToken(t: Token)
      requires Valid()
      modifies this
      ensures Valid() && Value() == Track(old(Value()), t)
    {
      if t in pos {
        return;
      }
      pos := pos[t := |tokens|];
      tokens := tokens + [t];
    }

    method UntrackReconcileToken(t: Token)
      requires Valid()
      modifies this
      ensures Valid() && Value() == Untrack(old(Value()), t)
    {
      if t !in pos {
        return;
      }
      var idx := pos[t];
      InverseAfterRemoval(tokens, pos, t);
      var lastIdx := |tokens| - 1;
      var lastToken := tokens[lastIdx];
      tokens := tokens[idx := lastToken];
      pos := pos[lastToken := idx];
      tokens := tokens[..lastIdx];
      pos := pos - {t};
      if |tokens| == 0 {
        cursor := 0;
        return;
      }
      if cursor > idx && cursor > 0 {
        cursor := cursor - 1;
      }
      if cursor >= |tokens| {
        cursor := 0;
      }
    }

    /** The loop of the code against the closed form: the i-th token handed out is the one `i` slots
        behind the cursor, cyclically. */
    method NextReconcileBatch(batchSize: int) returns (out: seq<Token>)
      requires Valid()
      modifies this
      ensures Valid()
      ensures out == Batch(old(Value()), batchSize)
      ensures Value() == AfterBatch(old(Value()), batchSize)
    {
      out := [];
      if batchSize <= 0 || |tokens| == 0 {
        return;
      }
      var limit := batchSize;
      if limit > |tokens| {
        limit := |tokens|;
      }
      ghost var c0 := cursor;
      var i := 0;
      while i < limit
        invariant 0 <= i <= limit
        invariant tokens == old(tokens) && pos == old(pos) && Valid()
        invariant out == Stretch(tokens, c0, i)
        invariant cursor == if i == 0 then c0 else (c0 + i - 1) % |tokens| + 1
      {
        if |tokens| == 0 {
          break;
        }
        if cursor >= |tokens| {
          cursor := 0;
        }
        assert cursor == (c0 + i) % |tokens| by {
          if i == 0 {
            SmallMod(c0, |tokens|);
          } else {
            ModStep(c0 + i - 1, |tokens|);
          }
        }
        out := out + [tokens[cursor]];
        cursor := cursor + 1;
        i := i + 1;
      }
    }
  }

  // ---------------------------------------------------------------------------------------------
  // Arithmetic of the cursor
  // ---------------------------------------------------------------------------------------------

  lemma SmallMod(c: nat, n: nat)
    requires n > 0 && c <= n
    ensures c % n == if c == n then 0 else c
  {
  }

  lemma ModStep(x: nat, n: nat)
    requires n > 0
    ensures (x + 1) % n == if x % n + 1 == n then 0 else x % n + 1
  {
    var q, r := x / n, x % n;
    assert x == q * n + r;
    if r + 1 == n {
      assert x + 1 == (q + 1) * n;
      ModUnique(x + 1, n, q + 1, 0);
    } else {
      ModUnique(x + 1, n, q, r + 1);
    }
  }

  lemma MulLe(a: nat, b: nat, n: nat)
    requires a <= b
    ensures a * n <= b * n
  {
  }

  lemma MulAdd(a: nat, b: nat, n: nat)
    ensures (a + b) * n == a * n + b * n
  {
  }

  lemma ModUnique(x: nat, n: nat, q: nat, r: nat)
    requires n > 0 && r < n && x == q * n + r
    ensures x % n == r
  {
    var q', r' := x / n, x % n;
    assert x == q' * n + r';
    if q' < q {
      MulLe(q' + 1, q, n);
    }
    if q < q' {
      MulLe(q + 1, q', n);
    }
  }

  /** Reading on from a position reached by `x` steps is reading from `x`. */
  lemma ModAdd(x: nat, y: nat, n: nat)
    requires n > 0
    ensures (x % n + y) % n == (x + y) % n
  {
    var q := x / n;
    assert x == q * n + x % n;
    var z := x % n + y;
    var q1 := z / n;
    assert z == q1 * n + z % n;
    MulAdd(q, q1, n);
    ModUnique(x + y, n, q + q1, z % n);
  }

  /** The slot `d` behind a cursor is, after a batch of `l`, the slot `d - l` behind it. */
  lemma CursorMoves(c: nat, l: nat, d: nat, n: nat)
    requires n > 0 && 0 < l <= d
    ensures ((c + l - 1) % n + 1 + (d - l)) % n == (c + d) % n
  {
    ModAdd(c + l - 1, 1 + (d - l), n);
    assert c + l - 1 + (1 + (d - l)) == c + d;
  }

  // ---------------------------------------------------------------------------------------------
  // Removal keeps the ring well formed
  // ---------------------------------------------------------------------------------------------

  lemma InverseNoDuplicates(s: seq<Token>, pos: map<Token, nat>)
    requires Inverse(s, pos)
    ensures NoDuplicates(s)
  {
    forall i, j | 0 <= i < j < |s| ensures s[i] != s[j] {
      assert pos[s[i]] == i && pos[s[j]] == j;
    }
  }

  lemma InverseAfterRemoval(s: seq<Token>, pos: map<Token, nat>, t: Token)
    requires Inverse(s, pos) && t in pos
    ensures |s| > 0 && t in s && pos[t] == IndexOf(s, t) < |s|
    ensures Inverse(SwapRemove(s, pos[t]), pos[s[|s| - 1] := pos[t]] - {t})
  {
    InverseNoDuplicates(s, pos);
    assert t in Elems(s);
    assert s[IndexOf(s, t)] in pos;
    var i := pos[t];
    SwapRemoveElems(s, i);
    var r, pos' := SwapRemove(s, i), pos[s[|s| - 1] := i] - {t};
    assert s[|s| - 1] in pos.Keys;
    assert pos'.Keys == pos.Keys - {t};
    forall j | 0 <= j < |r| ensures r[j] in pos' && pos'[r[j]] == j {
      assert r[j] in Elems(r);
      assert r[j] != t;
      if j != i {
        assert r[j] == s[j];
      }
    }
  }

  /** Swap-remove drops exactly the token of its slot, keeps the list duplicate-free, and leaves
      every slot but the last two touched ones alone. */
  lemma SwapRemoveElems(s: seq<Token>, i: nat)
    requires i < |s| && NoDuplicates(s)
    ensures NoDuplicates(SwapRemove(s, i))
    ensures Elems(SwapRemove(s, i)) == Elems(s) - {s[i]}
    ensures |SwapRemove(s, i)| == |s| - 1
  {
    var r := SwapRemove(s, i);
    forall t | t in Elems(s) - {s[i]} ensures t in r {
      var j :| 0 <= j < |s| && s[j] == t;
      assert r[if j == |s| - 1 then i else j] == t;
    }
  }

  lemma UntrackValid(r: Ring, t: Token)
    requires ValidRing(r)
    ensures ValidRing(Untrack(r, t))
    ensures Tracked(Untrack(r, t)) == Tracked(r) - {t}
    ensures |Untrack(r, t).tokens| == |r.tokens| - (if t in r.tokens then 1 else 0)
  {
    if t in r.tokens {
      SwapRemoveElems(r.tokens, IndexOf(r.tokens, t));
    }
  }

  /** The tokens still ahead of the cursor in this round. */
  function StillAhead(r: Ring): set<Token>
    requires r.cursor <= |r.tokens|
  {
    Elems(r.tokens[r.cursor..])
  }

  /** Removing a token that is still ahead keeps all the others ahead; when it was the only one, the
      next round begins. */
  lemma UntrackAhead(r: Ring, t: Token)
    requires ValidRing(r) && t in r.tokens && IndexOf(r.tokens, t) >= r.cursor
    ensures Untrack(r, t).cursor <= |Untrack(r, t).tokens|
    ensures StillAhead(Untrack(r, t))
            == if r.cursor == |r.tokens| - 1 then Tracked(Untrack(r, t)) else StillAhead(r) - {t}
  {
    RemovalAhead(r.tokens, r.cursor, IndexOf(r.tokens, t));
  }

  /** Removing a token that was already handed out can postpone a single other token, the one at the
      end of the list, and makes the one handed out last come again. */
  lemma UntrackBehind(r: Ring, t: Token)
    requires ValidRing(r) && t in r.tokens && IndexOf(r.tokens, t) < r.cursor
    ensures Untrack(r, t).cursor <= |Untrack(r, t).tokens|
    ensures var n, i := |r.tokens|, IndexOf(r.tokens, t);
            StillAhead(Untrack(r, t))
            == if r.cursor == n then Tracked(Untrack(r, t))
               else StillAhead(r) - {r.tokens[n - 1]}
                    + {if i == r.cursor - 1 then r.tokens[n - 1] else r.tokens[r.cursor - 1]}
  {
    if r.cursor < |r.tokens| {
      UntrackInside(r, t);
      RingBehind(r, Untrack(r, t), IndexOf(r.tokens, t));
    } else {
      UntrackAtEnd(r, t);
    }
  }

  lemma UntrackInside(r: Ring, t: Token)
    requires t in r.tokens && IndexOf(r.tokens, t) < r.cursor < |r.tokens|
    ensures Untrack(r, t) == Ring(SwapRemove(r.tokens, IndexOf(r.tokens, t)), r.cursor - 1)
  {
  }

  /** With the cursor at the end of the list the next round begins. */
  lemma UntrackAtEnd(r: Ring, t: Token)
    requires t in r.tokens && r.cursor == |r.tokens|
    ensures Untrack(r, t).cursor == 0 && StillAhead(Untrack(r, t)) == Tracked(Untrack(r, t))
  {
    var s := Untrack(r, t).tokens;
    assert s[0..] == s;
  }

  lemma RemovalAhead(s: seq<Token>, c: nat, i: nat)
    requires NoDuplicates(s) && c <= i < |s|
    ensures Elems(SwapRemove(s, i)[c..]) == Elems(s[c..]) - {s[i]}
  {
    var ahead := s[c..];
    assert SwapRemove(s, i)[c..] == SwapRemove(ahead, i - c);
    SwapRemoveElems(ahead, i - c);
  }

  lemma RingBehind(r: Ring, r': Ring, i: nat)
    requires ValidRing(r) && i < r.cursor < |r.tokens|
    requires r' == Ring(SwapRemove(r.tokens, i), r.cursor - 1)
    ensures r'.cursor <= |r'.tokens| && StillAhead(r') == AheadOfRemoval(r.tokens, r.cursor, i)
  {
    RemovalBehind(r.tokens, r.cursor, i);
  }

  function AheadOfRemoval(s: seq<Token>, c: nat, i: nat): set<Token>
    requires i < c < |s|
  {
    Elems(s[c..]) - {s[|s| - 1]} + {if i == c - 1 then s[|s| - 1] else s[c - 1]}
  }

  lemma RemovalBehind(s: seq<Token>, c: nat, i: nat)
    requires NoDuplicates(s) && i < c < |s|
    ensures Elems(SwapRemove(s, i)[c - 1..]) == AheadOfRemoval(s, c, i)
  {
    var n := |s|;
    var x, mid := if i == c - 1 then s[n - 1] else s[c - 1], s[c..n - 1];
    assert SwapRemove(s, i)[c - 1..] == [x] + mid;
    assert s[c..] == mid + [s[n - 1]];
    assert s[n - 1] !in mid;
  }

  lemma TrackValid(r: Ring, t: Token)
    requires ValidRing(r)
    ensures ValidRing(Track(r, t)) && Tracked(Track(r, t)) == Tracked(r) + {t}
  {
  }

  lemma AfterBatchValid(r: Ring, k: int)
    requires ValidRing(r)
    ensures ValidRing(AfterBatch(r, k)) && AfterBatch(r, k).tokens == r.tokens
  {
  }

  // ---------------------------------------------------------------------------------------------
  // Batches
  // ---------------------------------------------------------------------------------------------

  lemma ModDistinct(c: nat, i: nat, j: nat, n: nat)
    requires n > 0 && i < j < i + n
    ensures (c + i) % n != (c + j) % n
  {
    var q, q' := (c + i) / n, (c + j) / n;
    assert c + i == q * n + (c + i) % n && c + j == q' * n + (c + j) % n;
    if q + 1 <= q' {
      MulLe(q + 1, q', n);
    } else {
      MulLe(q', q, n);
    }
  }

  /** One batch never repeats a token. */
  lemma BatchHasNoDuplicates(r: Ring, k: int)
    requires ValidRing(r)
    ensures NoDuplicates(Batch(r, k)) && Elems(Batch(r, k)) <= Tracked(r)
    ensures |Batch(r, k)| == Limit(|r.tokens|, k)
  {
    var b, n := Batch(r, k), |r.tokens|;
    forall i, j | 0 <= i < j < |b| ensures b[i] != b[j] {
      ModDistinct(r.cursor, i, j, n);
    }
  }

  // ---------------------------------------------------------------------------------------------
  // Passes
  // ---------------------------------------------------------------------------------------------

  /** Untrack the stale members of a list of tokens, in order. */
  function DropStale(r: Ring, ts: seq<Token>, stale: set<Token>): Ring
    decreases |ts|
  {
    if ts == [] then r
    else DropStale(if ts[0] in stale then Untrack(r, ts[0]) else r, ts[1..], stale)
  }

  /** One pass: the batch is taken first, then its stale members leave the ring. */
  function Pass(r: Ring, k: int, stale: set<Token>): Ring {
    DropStale(AfterBatch(r, k), Batch(r, k), stale)
  }

  function Passes(r: Ring, k: int, stale: set<Token>, m: nat): Ring
    decreases m
  {
    if m == 0 then r else Passes(Pass(r, k, stale), k, stale, m - 1)
  }

  lemma {:induction false} DropStaleTracked(r: Ring, ts: seq<Token>, stale: set<Token>)
    requires ValidRing(r)
    ensures ValidRing(DropStale(r, ts, stale))
    ensures Tracked(DropStale(r, ts, stale)) == Tracked(r) - Elems(ts) * stale
    ensures |DropStale(r, ts, stale).tokens| <= |r.tokens|
    decreases |ts|
  {
    if ts != [] {
      assert ts == [ts[0]] + ts[1..];
      assert Elems(ts) == {ts[0]} + Elems(ts[1..]);
      UntrackValid(r, ts[0]);
      DropStaleTracked(if ts[0] in stale then Untrack(r, ts[0]) else r, ts[1..], stale);
    }
  }

  lemma {:induction false} DropNothing(r: Ring, ts: seq<Token>, stale: set<Token>)
    requires Elems(ts) !! stale
    ensures DropStale(r, ts, stale) == r
    decreases |ts|
  {
    if ts != [] {
      assert ts[0] in Elems(ts);
      forall t | t in Elems(ts[1..]) ensures t in Elems(ts) {
      }
      DropNothing(r, ts[1..], stale);
    }
  }

  lemma {:induction false} DropStaleAgree(r: Ring, ts: seq<Token>, stale: set<Token>, stale': set<Token>)
    requires forall t :: t in ts ==> (t in stale <==> t in stale')
    ensures DropStale(r, ts, stale) == DropStale(r, ts, stale')
    decreases |ts|
  {
    if ts != [] {
      assert ts[0] in ts && forall t :: t in ts[1..] ==> t in ts;
      DropStaleAgree(if ts[0] in stale then Untrack(r, ts[0]) else r, ts[1..], stale, stale');
    }
  }

  /** A pass removes the stale members of its batch and nothing else. */
  lemma PassTracked(r: Ring, k: int, stale: set<Token>)
    requires ValidRing(r)
    ensures ValidRing(Pass(r, k, stale))
    ensures Tracked(Pass(r, k, stale)) == Tracked(r) - Elems(Batch(r, k)) * stale
    ensures |Pass(r, k, stale).tokens| <= |r.tokens|
  {
    AfterBatchValid(r, k);
    DropStaleTracked(AfterBatch(r, k), Batch(r, k), stale);
  }

  lemma {:induction false} PassesTracked(r: Ring, k: int, stale: set<Token>, m: nat)
    requires ValidRing(r)
    ensures ValidRing(Passes(r, k, stale, m))
    ensures Tracked(r) - stale <= Tracked(Passes(r, k, stale, m)) <= Tracked(r)
    ensures |Passes(r, k, stale, m).tokens| <= |r.tokens|
    decreases m
  {
    if m > 0 {
      PassTracked(r, k, stale);
      PassesTracked(Pass(r, k, stale), k, stale, m - 1);
    }
  }

  lemma {:induction false} PassesCompose(r: Ring, k: int, stale: set<Token>, a: nat, b: nat)
    ensures Passes(r, k, stale, a + b) == Passes(Passes(r, k, stale, a), k, stale, b)
    decreases a
  {
    if a > 0 {
      PassesCompose(Pass(r, k, stale), k, stale, a - 1, b);
    }
  }

  function StaleIn(r: Ring, stale: set<Token>): set<Token> {
    Tracked(r) * stale
  }

  // ---------------------------------------------------------------------------------------------
  // Coverage
  // ---------------------------------------------------------------------------------------------

  lemma OneBatchLess(d: nat, m: nat, l: nat)
    requires d < m * l
    ensures m > 0
    ensures l <= d ==> d - l < (m - 1) * l
  {
    assert m * l == (m - 1) * l + l;
  }

  /** The token `d` slots behind the cursor. */
  function Ahead(r: Ring, d: nat): Token
    requires r.tokens != []
  {
    r.tokens[(r.cursor + d) % |r.tokens|]
  }

  lemma BatchReaches(r: Ring, k: int, d: nat)
    requires r.tokens != [] && d < Limit(|r.tokens|, k)
    ensures Ahead(r, d) in Elems(Batch(r, k))
  {
    assert Batch(r, k)[d] == Ahead(r, d);
  }

  lemma AheadAfterBatch(r: Ring, k: int, d: nat)
    requires r.tokens != [] && k > 0 && d >= Limit(|r.tokens|, k)
    ensures Ahead(AfterBatch(r, k), d - Limit(|r.tokens|, k)) == Ahead(r, d)
  {
    var l, next := Limit(|r.tokens|, k), AfterBatch(r, k);
    assert (next.cursor + (d - l)) % |next.tokens| == (r.cursor + d) % |r.tokens| by {
      CursorMoves(r.cursor, l, d, |r.tokens|);
    }
  }

  lemma QuietPass(r: Ring, k: int, stale: set<Token>, d: nat)
    requires ValidRing(r) && r.tokens != [] && k > 0
    requires Ahead(r, d) in stale && Elems(Batch(r, k)) !! stale
    ensures Pass(r, k, stale) == AfterBatch(r, k) && ValidRing(Pass(r, k, stale))
    ensures d >= Limit(|r.tokens|, k)
    ensures Ahead(AfterBatch(r, k), d - Limit(|r.tokens|, k)) in stale
  {
    DropNothing(AfterBatch(r, k), Batch(r, k), stale);
    PassTracked(r, k, stale);
    if d < Limit(|r.tokens|, k) {
      BatchReaches(r, k, d);
    }
    AheadAfterBatch(r, k, d);
  }

  lemma EvictingPass(r: Ring, k: int, stale: set<Token>)
    requires ValidRing(r) && !(Elems(Batch(r, k)) !! stale)
    ensures StaleIn(Pass(r, k, stale), stale) < StaleIn(r, stale)
  {
    PassTracked(r, k, stale);
    BatchHasNoDuplicates(r, k);
    var t :| t in Elems(Batch(r, k)) && t in stale;
    assert t in StaleIn(r, stale) && t !in StaleIn(Pass(r, k, stale), stale);
  }

  /** A stale token `d` slots behind the cursor forces an eviction before the batches have run over
      `d + 1` slots.  Until the first eviction the list does not move, so the distance shrinks by one
      batch per pass; what later evictions do to the order of the list does not matter. */
  lemma {:induction false} EvictionWithin(r: Ring, k: int, stale: set<Token>, d: nat, m: nat)
    requires ValidRing(r) && r.tokens != [] && k > 0
    requires d < m * Limit(|r.tokens|, k)
    requires Ahead(r, d) in stale
    ensures StaleIn(Passes(r, k, stale, m), stale) < StaleIn(r, stale)
    decreases m
  {
    var l, next := Limit(|r.tokens|, k), Pass(r, k, stale);
    OneBatchLess(d, m, l);
    PassesTracked(next, k, stale, m - 1) by {
      PassTracked(r, k, stale);
    }
    if Elems(Batch(r, k)) !! stale {
      QuietPass(r, k, stale, d);
      EvictionWithin(next, k, stale, d - l, m - 1);
    } else {
      EvictingPass(r, k, stale);
    }
  }

  /** Passes after which the batches have certainly run over `n` slots: n / min(k, n), rounded up. */
  function Sweep(n: nat, k: int): nat
    requires k > 0
  {
    if n == 0 then 0 else (n + Limit(n, k) - 1) / Limit(n, k)
  }

  lemma SweepCovers(n: nat, k: int)
    requires k > 0
    ensures n <= Sweep(n, k) * Limit(n, k)
  {
    if n > 0 {
      var l := Limit(n, k);
      var q := (n + l - 1) / l;
      assert n + l - 1 == q * l + (n + l - 1) % l;
    }
  }

  lemma DivMonotone(a: nat, b: nat, l: nat)
    requires l > 0 && a <= b
    ensures a / l <= b / l
  {
    var q, q' := a / l, b / l;
    assert a == q * l + a % l && b == q' * l + b % l;
    if q' < q {
      MulLe(q' + 1, q, l);
    }
  }

  /** A shorter ring is swept no slower. */
  lemma SweepMonotone(n: nat, n': nat, k: int)
    requires k > 0 && n' <= n
    ensures Sweep(n', k) <= Sweep(n, k)
  {
    if n' > 0 {
      if k < n' {
        DivMonotone(n' + k - 1, n + k - 1, k);
      } else {
        ModUnique(2 * n' - 1, n', 1, n' - 1);
        assert Sweep(n', k) == 1;
        SweepCovers(n, k);
      }
    }
  }

  lemma DistanceTo(r: Ring, t: Token) returns (d: nat)
    requires ValidRing(r) && t in r.tokens
    ensures d < |r.tokens| && Ahead(r, d) == t
  {
    var n, p := |r.tokens|, IndexOf(r.tokens, t);
    d := if p >= r.cursor then p - r.cursor else p + n - r.cursor;
    if p >= r.cursor {
      ModUnique(p, n, 0, p);
    } else {
      ModUnique(p + n, n, 1, p);
    }
  }

  lemma {:induction false} EliminateWithin(r: Ring, k: int, stale: set<Token>, count: nat, sweep: nat)
    requires ValidRing(r) && k > 0
    requires |StaleIn(r, stale)| <= count && Sweep(|r.tokens|, k) <= sweep
    ensures StaleIn(Passes(r, k, stale, Rounds(count, sweep)), stale) == {}
    decreases count
  {
    if StaleIn(r, stale) == {} {
      PassesTracked(r, k, stale, Rounds(count, sweep));
    } else {
      SweepEvicts(r, k, stale, sweep);
      var next := Passes(r, k, stale, sweep);
      PassesTracked(r, k, stale, sweep);
      SubsetSize(StaleIn(next, stale), StaleIn(r, stale));
      SweepMonotone(|r.tokens|, |next.tokens|, k);
      EliminateWithin(next, k, stale, count - 1, sweep);
      PassesCompose(r, k, stale, sweep, Rounds(count - 1, sweep));
    }
  }

  lemma SweepEvicts(r: Ring, k: int, stale: set<Token>, sweep: nat)
    requires ValidRing(r) && k > 0
    requires StaleIn(r, stale) != {} && Sweep(|r.tokens|, k) <= sweep
    ensures StaleIn(Passes(r, k, stale, sweep), stale) < StaleIn(r, stale)
  {
    var t :| t in StaleIn(r, stale);
    var d := DistanceTo(r, t);
    SweepCovers(|r.tokens|, k);
    MulLe(Sweep(|r.tokens|, k), sweep, Limit(|r.tokens|, k));
    EvictionWithin(r, k, stale, d, sweep);
  }

  function Rounds(count: nat, sweep: nat): nat {
    if count == 0 then 0 else sweep + Rounds(count - 1, sweep)
  }

  lemma {:induction false} RoundsIsProduct(count: nat, sweep: nat)
    ensures Rounds(count, sweep) == count * sweep
  {
    if count > 0 {
      RoundsIsProduct(count - 1, sweep);
      assert count * sweep == (count - 1) * sweep + sweep;
    }
  }

  lemma SubsetSize(a: set<Token>, b: set<Token>)
    requires a < b
    ensures |a| < |b|
  {
    SubsetSizeLe(a, b);
    assert b == a + (b - a) && b - a != {};
  }

  lemma {:induction false} SubsetSizeLe(a: set<Token>, b: set<Token>)
    requires a <= b
    ensures |a| <= |b|
    decreases a
  {
    if a != {} {
      var x :| x in a;
      SubsetSizeLe(a - {x}, b - {x});
    }
  }

  /** Passes that suffice to clear a ring of its stale tokens. */
  function PassBound(r: Ring, k: int, stale: set<Token>): nat
    requires k > 0
  {
    |StaleIn(r, stale)| * Sweep(|r.tokens|, k)
  }

  /** After S * ceil(n / min(k, n)) passes, or more, the ring tracks exactly the tokens that were not
      stale: none of the stale ones is left and none of the others is lost. */
  lemma StaleTokensEliminated(r: Ring, k: int, stale: set<Token>, m: nat)
    requires ValidRing(r) && k > 0
    requires m >= PassBound(r, k, stale)
    ensures Tracked(Passes(r, k, stale, m)) == Tracked(r) - stale
  {
    EliminateWithin(r, k, stale, |StaleIn(r, stale)|, Sweep(|r.tokens|, k));
    RoundsIsProduct(|StaleIn(r, stale)|, Sweep(|r.tokens|, k));
    StaysEliminated(r, k, stale, PassBound(r, k, stale), m - PassBound(r, k, stale));
  }

  lemma StaysEliminated(r: Ring, k: int, stale: set<Token>, b: nat, more: nat)
    requires ValidRing(r) && StaleIn(Passes(r, k, stale, b), stale) == {}
    ensures Tracked(Passes(r, k, stale, b + more)) == Tracked(r) - stale
  {
    var mid := Passes(r, k, stale, b);
    PassesTracked(r, k, stale, b);
    PassesTracked(mid, k, stale, more);
    PassesCompose(r, k, stale, b, more);
    PassesTracked(r, k, stale, b + more);
    var end := Tracked(Passes(r, k, stale, b + more));
    forall t | t in end ensures t !in stale {
      assert t in stale ==> t in StaleIn(mid, stale);
    }
    assert Tracked(r) - stale <= end <= Tracked(r);
  }

  /** One sweep alone is not enough.  With four tokens and batches of two, evicting `a` moves the
      stale `d` from the unvisited end of the list to the slot behind the cursor, and the two passes
      that cover four slots miss it. */
  lemma OneSweepCanMissAMovedToken(a: Token, b: Token, c: Token, d: Token)
    requires NoDuplicates([a, b, c, d])
    ensures Sweep(4, 2) == 2
    ensures d in Tracked(Passes(Ring([a, b, c, d], 0), 2, {a, d}, 2))
  {
    var s, stale := [a, b, c, d], {a, d};
    assert s[0] == a && s[1] == b && s[2] == c && s[3] == d;
    FirstPass(a, b, c, d);
    SecondPass(a, b, c, d);
    var r, r1, r2 := Ring(s, 0), Ring([d, b, c], 1), Ring([d, b, c], 3);
    assert Passes(r, 2, stale, 2) == Passes(r1, 2, stale, 1) == Passes(r2, 2, stale, 0);
    assert r2.tokens[0] == d;
  }

  lemma FirstPass(a: Token, b: Token, c: Token, d: Token)
    requires NoDuplicates([a, b, c, d]) && a != b && b != d && a != d
    ensures Pass(Ring([a, b, c, d], 0), 2, {a, d}) == Ring([d, b, c], 1)
  {
    var r := Ring([a, b, c, d], 0);
    assert Batch(r, 2) == [a, b] && [a, b][1..] == [b];
    assert IndexOf(r.tokens, a) == 0;
    assert SwapRemove(r.tokens, 0) == [d, b, c];
    DropNothing(Ring([d, b, c], 1), [b], {a, d});
  }

  lemma SecondPass(a: Token, b: Token, c: Token, d: Token)
    requires NoDuplicates([a, b, c, d]) && a != b && a != c && b != d && c != d
    ensures Pass(Ring([d, b, c], 1), 2, {a, d}) == Ring([d, b, c], 3)
  {
    var r := Ring([d, b, c], 1);
    assert Batch(r, 2) == [b, c];
    DropNothing(Ring([d, b, c], 3), [b, c], {a, d});
  }

  // ---------------------------------------------------------------------------------------------
  // Fairness
  // ---------------------------------------------------------------------------------------------

  /** The tokens that `m` batches hand out, one after the other, while the ring does not change. */
  function Visits(r: Ring, k: int, m: nat): seq<Token>
    decreases m
  {
    if m == 0 then [] else Batch(r, k) + Visits(AfterBatch(r, k), k, m - 1)
  }

  lemma StretchJoin(s: seq<Token>, c: nat, c': nat, l: nat, len: nat)
    requires |s| > 0 && c' % |s| == (c + l) % |s|
    ensures Stretch(s, c, l) + Stretch(s, c', len) == Stretch(s, c, l + len)
  {
    var x, y, z := Stretch(s, c, l), Stretch(s, c', len), Stretch(s, c, l + len);
    forall i | 0 <= i < len ensures y[i] == z[l + i] {
      ModAdd(c', i, |s|);
      ModAdd(c + l, i, |s|);
      assert c + l + i == c + (l + i);
    }
    forall i | 0 <= i < l + len ensures (x + y)[i] == z[i] {
      if i >= l {
        assert z[l + (i - l)] == y[i - l];
      }
    }
  }

  /** Consecutive batches hand out one cyclic stretch. */
  lemma {:induction false} VisitsAreAStretch(r: Ring, k: int, m: nat)
    requires ValidRing(r) && r.tokens != [] && k > 0
    ensures Visits(r, k, m) == Stretch(r.tokens, r.cursor, m * Limit(|r.tokens|, k))
    decreases m
  {
    if m > 0 {
      var n, l, next := |r.tokens|, Limit(|r.tokens|, k), AfterBatch(r, k);
      AfterBatchValid(r, k);
      VisitsAreAStretch(next, k, m - 1);
      CursorMoves(r.cursor, l, l, n);
      StretchJoin(r.tokens, r.cursor, next.cursor, l, (m - 1) * l);
      assert l + (m - 1) * l == m * l;
    }
  }

  function Count(s: seq<Token>, t: Token): nat {
    multiset(s)[t]
  }

  lemma {:induction false} CountNoDuplicates(s: seq<Token>, t: Token)
    requires NoDuplicates(s)
    ensures Count(s, t) == if t in s then 1 else 0
    decreases |s|
  {
    if s != [] {
      assert s == [s[0]] + s[1..];
      CountNoDuplicates(s[1..], t);
    }
  }

  lemma ShortStretch(s: seq<Token>, c: nat, len: nat)
    requires NoDuplicates(s) && |s| > 0 && len <= |s|
    ensures NoDuplicates(Stretch(s, c, len))
    ensures len == |s| ==> Elems(Stretch(s, c, len)) == Elems(s)
  {
    forall i, j | 0 <= i < j < len ensures Stretch(s, c, len)[i] != Stretch(s, c, len)[j] {
      ModDistinct(c, i, j, |s|);
    }
    if len == |s| {
      forall t | t in s ensures t in Stretch(s, c, len) {
        ModAdd(c, 0, |s|);
        var d := DistanceTo(Ring(s, c % |s|), t);
        ModAdd(c, d, |s|);
        assert Stretch(s, c, len)[d] == t;
      }
    }
  }

  lemma OneRound(s: seq<Token>, c: nat, rest: nat, t: Token)
    requires NoDuplicates(s) && t in s
    ensures Count(Stretch(s, c, |s| + rest), t) == 1 + Count(Stretch(s, c + |s|, rest), t)
  {
    var round, more := Stretch(s, c, |s|), Stretch(s, c + |s|, rest);
    ShortStretch(s, c, |s|);
    CountNoDuplicates(round, t);
    assert t in Elems(s) && t in Elems(round);
    StretchJoin(s, c, c + |s|, |s|, rest);
    assert multiset(round + more) == multiset(round) + multiset(more);
  }

  lemma {:induction false} StretchCounts(s: seq<Token>, c: nat, len: nat, t: Token, u: Token)
    requires NoDuplicates(s) && t in s && u in s
    ensures Count(Stretch(s, c, len), t) <= Count(Stretch(s, c, len), u) + 1
    decreases len
  {
    if len <= |s| {
      ShortStretch(s, c, len);
      CountNoDuplicates(Stretch(s, c, len), t);
    } else {
      StretchCounts(s, c + |s|, len - |s|, t, u);
      OneRound(s, c, len - |s|, t);
      OneRound(s, c, len - |s|, u);
    }
  }

  /** Round robin is fair: while the ring does not change, any two tracked tokens have been handed
      out equally often, give or take one. */
  lemma VisitsAreFair(r: Ring, k: int, m: nat, t: Token, u: Token)
    requires ValidRing(r) && t in r.tokens && u in r.tokens
    ensures Count(Visits(r, k, m), t) <= Count(Visits(r, k, m), u) + 1
  {
    if k > 0 {
      VisitsAreAStretch(r, k, m);
      StretchCounts(r.tokens, r.cursor, m * Limit(|r.tokens|, k), t, u);
    } else {
      NoVisits(r, k, m);
    }
  }

  lemma {:induction false} NoVisits(r: Ring, k: int, m: nat)
    requires k <= 0
    ensures Visits(r, k, m) == []
    decreases m
  {
    if m > 0 {
      NoVisits(r, k, m - 1);
    }
  }
}
