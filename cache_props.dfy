/**
  What the limiters and the lock guarantee over sequences of calls.
*/
module CacheProps {
  import opened Wrappers
  import opened Text
  import opened GoInt
  import opened GoTime
  import opened RedisServer
  import opened Cache

  // ---- fixed window ----

  /** The window start and reset time bracket the call. */
  lemma FixedWindowBrackets(db: Db, up: bool, key: string, limit: int, window: int, now: int)
    requires window > 0
    ensures var resetAt := FixedWindowStep(db, up, key, limit, window, now).1.resetAt;
      resetAt - window <= now < resetAt
  {
  }

  /** A fixed-window check changes no key but its window's counter. */
  lemma FixedWindowTouchesOnlyItsKey(db: Db, up: bool, key: string, limit: int, window: int, now: int)
    ensures var k := FixedWindowKey(key, Truncate(now, window));
      FixedWindowStep(db, up, key, limit, window, now).0.entries - {k} == db.entries - {k}
  {
  }

  /** A sliding-window check changes no key but the caller's sorted set. */
  lemma SlidingWindowTouchesOnlyItsKey(db: Db, up: bool, key: string, limit: int, window: int, now: int, stamp: int)
    ensures var k := SlidingKey(key);
      SlidingWindowStep(db, up, key, limit, window, now, stamp).0.entries - {k} == db.entries - {k}
  {
  }

  /** The counter of a window: absent before the first call, then the decimal
      count with the given expiry. */
  predicate CounterIs(db: Db, k: string, c: nat, expMs: int) {
    if c == 0 then k !in db.entries else k in db.entries && db.entries[k] == Entry(Str(IntToString(c)), Some(expMs))
  }

  /** One fixed-window transaction before the counter's expiry adds exactly one. */
  lemma FixedWindowTxCounts(db: Db, k: string, c: nat, expMs: int, nowMs: int)
    requires CounterIs(db, k, c, expMs) && nowMs < expMs && c < Int64Max
    ensures FixedWindowTx(db, k, expMs, nowMs).1 == Ok(c + 1)
    ensures CounterIs(FixedWindowTx(db, k, expMs, nowMs).0, k, c + 1, expMs)
  {
    if c > 0 {
      ParseInt64Rendering(c);
    }
  }

  /** The end of the window, in Unix milliseconds, when the window is a whole
      number of `unit`s and `unit` divides the zero time's offset. */
  lemma {:induction false} ResetAligned(now: int, window: int, unit: int) returns (m: int)
    requires unit > 0 && window > 0 && window % unit == 0 && ZeroToUnixNs % unit == 0
    ensures Truncate(now, window) + window == m * unit
  {
    var q := (now + ZeroToUnixNs) / window;
    var p := window / unit;
    var z := ZeroToUnixNs / unit;
    assert window == p * unit;
    assert ZeroToUnixNs == z * unit;
    var r := Truncate(now, window) + window;
    TruncateAligned(now, window);
    assert r + ZeroToUnixNs == q * window + window;
    assert q * window + window == (q + 1) * (p * unit);
    assert (q + 1) * (p * unit) == ((q + 1) * p) * unit;
    m := (q + 1) * p - z;
    assert m * unit == ((q + 1) * p) * unit - z * unit;
  }

  /** For whole-second windows the counter's expiry, sent in seconds, is still
      ahead of every call inside the window. */
  lemma WholeSecondExpiryAhead(now: int, window: int)
    requires window > 0 && window % NsPerSecond == 0
    ensures UnixMilli(now) < UnixSeconds(Truncate(now, window) + window) * 1000
  {
    var m := ResetAligned(now, window, NsPerSecond);
    assert UnixSeconds(m * NsPerSecond) == m;
  }

  /** The replies of successive fixed-window checks at the instants `nows`. */
  function RunFixed(db: Db, key: string, limit: int, window: int, nows: seq<int>): (r: (Db, seq<LimitReply>))
    ensures |r.1| == |nows|
    decreases |nows|
  {
    if nows == [] then (db, [])
    else
      var (d1, reply) := FixedWindowStep(db, true, key, limit, window, nows[0]);
      var (d2, replies) := RunFixed(d1, key, limit, window, nows[1..]);
      (d2, [reply] + replies)
  }

  /** A check inside a whole-second window adds one to the window's counter,
      renews its expiry at the window's end, and answers for the new count. */
  lemma FixedWindowStepCounts(db: Db, key: string, limit: int, window: int, windowStart: int, now: int, c: nat)
    requires window > 0 && window % NsPerSecond == 0 && c < Int64Max
    requires Truncate(now, window) == windowStart
    requires CounterIs(db, FixedWindowKey(key, windowStart), c, UnixSeconds(windowStart + window) * 1000)
    ensures var (d1, reply) := FixedWindowStep(db, true, key, limit, window, now);
      && reply == Verdict(c + 1, limit, windowStart + window)
      && CounterIs(d1, FixedWindowKey(key, windowStart), c + 1, UnixSeconds(windowStart + window) * 1000)
  {
    WholeSecondExpiryAhead(now, window);
    FixedWindowTxCounts(db, FixedWindowKey(key, windowStart), c, UnixSeconds(windowStart + window) * 1000, UnixMilli(now));
  }

  /** The answers to `n` calls counted from `c` on: the i-th sees count c + i + 1. */
  function Counted(c: int, n: nat, limit: int, resetAt: int): (r: seq<LimitReply>)
    ensures |r| == n
    decreases n
  {
    if n == 0 then [] else [Verdict(c + 1, limit, resetAt)] + Counted(c + 1, n - 1, limit, resetAt)
  }

  lemma {:induction false} CountedAt(c: int, n: nat, limit: int, resetAt: int, i: nat)
    requires i < n
    decreases i
    ensures Counted(c, n, limit, resetAt)[i] == Verdict(c + i + 1, limit, resetAt)
  {
    if i > 0 {
      CountedAt(c + 1, n - 1, limit, resetAt, i - 1);
    }
  }

  /** The first of several checks inside one whole-second window. */
  lemma FixedWindowRunHead(db: Db, key: string, limit: int, window: int, windowStart: int, nows: seq<int>, c: nat) returns (d1: Db)
    requires window > 0 && window % NsPerSecond == 0 && c < Int64Max && nows != []
    requires Truncate(nows[0], window) == windowStart
    requires CounterIs(db, FixedWindowKey(key, windowStart), c, UnixSeconds(windowStart + window) * 1000)
    ensures RunFixed(db, key, limit, window, nows).1
      == [Verdict(c + 1, limit, windowStart + window)] + RunFixed(d1, key, limit, window, nows[1..]).1
    ensures CounterIs(d1, FixedWindowKey(key, windowStart), c + 1, UnixSeconds(windowStart + window) * 1000)
  {
    FixedWindowStepCounts(db, key, limit, window, windowStart, nows[0], c);
    d1 := FixedWindowStep(db, true, key, limit, window, nows[0]).0;
  }

  lemma CountedEach(rs: seq<LimitReply>, c: int, n: nat, limit: int, resetAt: int)
    requires rs == Counted(c, n, limit, resetAt)
    ensures forall i :: 0 <= i < n ==> rs[i] == Verdict(c + i + 1, limit, resetAt)
  {
    forall i | 0 <= i < n
      ensures rs[i] == Verdict(c + i + 1, limit, resetAt)
    {
      CountedAt(c, n, limit, resetAt, i);
    }
  }

  lemma CountedUnfold(c: int, n: nat, limit: int, resetAt: int)
    requires n > 0
    ensures Counted(c, n, limit, resetAt) == [Verdict(c + 1, limit, resetAt)] + Counted(c + 1, n - 1, limit, resetAt)
  {
  }

  lemma TailInWindow(nows: seq<int>, window: int, windowStart: int)
    requires nows != []
    requires forall i :: 0 <= i < |nows| ==> Truncate(nows[i], window) == windowStart
    ensures forall i :: 0 <= i < |nows[1..]| ==> Truncate(nows[1..][i], window) == windowStart
  {
    forall i | 0 <= i < |nows[1..]|
      ensures Truncate(nows[1..][i], window) == windowStart
    {
      assert nows[1..][i] == nows[i + 1];
    }
  }

  /** Within one whole-second window, starting from counter `c`, the calls
      count on from `c`. */
  lemma {:induction false} FixedWindowRunCounts(db: Db, key: string, limit: int, window: int, windowStart: int, nows: seq<int>, c: nat)
    requires window > 0 && window % NsPerSecond == 0
    requires forall i :: 0 <= i < |nows| ==> Truncate(nows[i], window) == windowStart
    requires CounterIs(db, FixedWindowKey(key, windowStart), c, UnixSeconds(windowStart + window) * 1000)
    requires c + |nows| <= Int64Max
    ensures RunFixed(db, key, limit, window, nows).1 == Counted(c, |nows|, limit, windowStart + window)
    decreases |nows|
  {
    if nows != [] {
      var rest := nows[1..];
      TailInWindow(nows, window, windowStart);
      var d1 := FixedWindowRunHead(db, key, limit, window, windowStart, nows, c);
      FixedWindowRunCounts(d1, key, limit, window, windowStart, rest, c + 1);
      CountedUnfold(c, |nows|, limit, windowStart + window);
    }
  }

  /** Within one whole-second window, starting from counter `c`, the i-th
      further call sees count c + i + 1: allowed while that is at most
      `limit`, with the rest of the budget as `remaining`. */
  lemma FixedWindowRun(db: Db, key: string, limit: int, window: int, windowStart: int, nows: seq<int>, c: nat)
    requires window > 0 && window % NsPerSecond == 0
    requires forall i :: 0 <= i < |nows| ==> Truncate(nows[i], window) == windowStart
    requires CounterIs(db, FixedWindowKey(key, windowStart), c, UnixSeconds(windowStart + window) * 1000)
    requires c + |nows| <= Int64Max
    ensures forall i :: 0 <= i < |nows| ==>
      RunFixed(db, key, limit, window, nows).1[i] == Verdict(c + i + 1, limit, windowStart + window)
  {
    var replies := RunFixed(db, key, limit, window, nows).1;
    FixedWindowRunCounts(db, key, limit, window, windowStart, nows, c);
    assert replies == Counted(c, |nows|, limit, windowStart + window);
    CountedEach(replies, c, |nows|, limit, windowStart + window);
  }

  /** From a fresh window, the first `limit` calls are allowed with remaining
      limit-1, …, 0, and every later call in the window is denied. */
  lemma FixedWindowBudget(db: Db, key: string, limit: int, window: int, nows: seq<int>)
    requires window > 0 && window % NsPerSecond == 0 && |nows| <= Int64Max && nows != []
    requires forall i :: 0 <= i < |nows| ==> Truncate(nows[i], window) == Truncate(nows[0], window)
    requires FixedWindowKey(key, Truncate(nows[0], window)) !in db.entries
    ensures forall i :: 0 <= i < |nows| ==>
      var reply := RunFixed(db, key, limit, window, nows).1[i];
      && reply.err.None?
      && (reply.allowed <==> i < limit)
      && reply.remaining == (if i < limit then limit - i - 1 else 0)
  {
    FixedWindowRun(db, key, limit, window, Truncate(nows[0], window), nows, 0);
  }

  /** The same check with the expiry sent in milliseconds, at the window's true end. */
  function FixedWindowStepExact(db: Db, up: bool, key: string, limit: int, window: int, now: int): (r: (Db, LimitReply))
    ensures r.1.resetAt == Truncate(now, window) + window
  {
    var windowStart := Truncate(now, window);
    var resetAt := windowStart + window;
    if !up then (db, LimitReply(false, 0, resetAt, Some(Unreachable)))
    else
      var (d, cnt) := FixedWindowTx(db, FixedWindowKey(key, windowStart), UnixMilli(resetAt), UnixMilli(now));
      match cnt
      case Err(e) => (d, LimitReply(false, 0, resetAt, Some(e)))
      case Ok(cur) => (d, Verdict(cur, limit, resetAt))
  }

  /** For whole-second windows the window's end is a whole second, so the
      expiry sent in seconds is the exact one: both steps agree. */
  lemma FixedWindowStepsAgree(db: Db, up: bool, key: string, limit: int, window: int, now: int)
    requires window > 0 && window % NsPerSecond == 0
    ensures FixedWindowStep(db, up, key, limit, window, now) == FixedWindowStepExact(db, up, key, limit, window, now)
  {
    var m := ResetAligned(now, window, NsPerSecond);
    assert UnixSeconds(m * NsPerSecond) == m;
    assert UnixMilli(m * NsPerSecond) == m * 1000;
  }

  function RunFixedExact(db: Db, key: string, limit: int, window: int, nows: seq<int>): (r: (Db, seq<LimitReply>))
    ensures |r.1| == |nows|
    decreases |nows|
  {
    if nows == [] then (db, [])
    else
      var (d1, reply) := FixedWindowStepExact(db, true, key, limit, window, nows[0]);
      var (d2, replies) := RunFixedExact(d1, key, limit, window, nows[1..]);
      (d2, [reply] + replies)
  }

  lemma FixedWindowExactStepCounts(db: Db, key: string, limit: int, window: int, windowStart: int, now: int, c: nat)
    requires window > 0 && window % NsPerMs == 0 && c < Int64Max
    requires Truncate(now, window) == windowStart
    requires CounterIs(db, FixedWindowKey(key, windowStart), c, UnixMilli(windowStart + window))
    ensures var (d1, reply) := FixedWindowStepExact(db, true, key, limit, window, now);
      && reply == Verdict(c + 1, limit, windowStart + window)
      && CounterIs(d1, FixedWindowKey(key, windowStart), c + 1, UnixMilli(windowStart + window))
  {
    var m := ResetAligned(now, window, NsPerMs);
    assert UnixMilli(m * NsPerMs) == m;
    FixedWindowTxCounts(db, FixedWindowKey(key, windowStart), c, UnixMilli(windowStart + window), UnixMilli(now));
  }

  lemma FixedWindowExactRunHead(db: Db, key: string, limit: int, window: int, windowStart: int, nows: seq<int>, c: nat) returns (d1: Db)
    requires window > 0 && window % NsPerMs == 0 && c < Int64Max && nows != []
    requires Truncate(nows[0], window) == windowStart
    requires CounterIs(db, FixedWindowKey(key, windowStart), c, UnixMilli(windowStart + window))
    ensures RunFixedExact(db, key, limit, window, nows).1
      == [Verdict(c + 1, limit, windowStart + window)] + RunFixedExact(d1, key, limit, window, nows[1..]).1
    ensures CounterIs(d1, FixedWindowKey(key, windowStart), c + 1, UnixMilli(windowStart + window))
  {
    FixedWindowExactStepCounts(db, key, limit, window, windowStart, nows[0], c);
    d1 := FixedWindowStepExact(db, true, key, limit, window, nows[0]).0;
  }

  lemma {:induction false} FixedWindowExactRunCounts(db: Db, key: string, limit: int, window: int, windowStart: int, nows: seq<int>, c: nat)
    requires window > 0 && window % NsPerMs == 0
    requires forall i :: 0 <= i < |nows| ==> Truncate(nows[i], window) == windowStart
    requires CounterIs(db, FixedWindowKey(key, windowStart), c, UnixMilli(windowStart + window))
    requires c + |nows| <= Int64Max
    ensures RunFixedExact(db, key, limit, window, nows).1 == Counted(c, |nows|, limit, windowStart + window)
    decreases |nows|
  {
    if nows != [] {
      var d1 := FixedWindowExactRunHead(db, key, limit, window, windowStart, nows, c);
      FixedWindowExactRunCounts(d1, key, limit, window, windowStart, nows[1..], c + 1);
    }
  }

  /** With the exact expiry, every window of whole milliseconds counts its calls. */
  lemma FixedWindowExactRun(db: Db, key: string, limit: int, window: int, windowStart: int, nows: seq<int>, c: nat)
    requires window > 0 && window % NsPerMs == 0
    requires forall i :: 0 <= i < |nows| ==> Truncate(nows[i], window) == windowStart
    requires CounterIs(db, FixedWindowKey(key, windowStart), c, UnixMilli(windowStart + window))
    requires c + |nows| <= Int64Max
    ensures forall i :: 0 <= i < |nows| ==>
      RunFixedExact(db, key, limit, window, nows).1[i] == Verdict(c + i + 1, limit, windowStart + window)
  {
    FixedWindowExactRunCounts(db, key, limit, window, windowStart, nows, c);
    CountedEach(RunFixedExact(db, key, limit, window, nows).1, c, |nows|, limit, windowStart + window);
  }

  /** With the expiry sent in whole seconds, a window of 1.5 s lets two calls
      through under a limit of 1: the window [3 s, 4.5 s) has its counter
      expire at 4 s, so a call at 4.1 s deletes its own count again and the
      call at 4.2 s starts from zero. */
  lemma FixedWindowEarlyExpiry()
    ensures var nows := [4_100_000_000, 4_200_000_000];
      var replies := RunFixed(EmptyDb(), "u", 1, 1_500_000_000, nows).1;
      && Truncate(nows[0], 1_500_000_000) == Truncate(nows[1], 1_500_000_000)
      && replies[0].allowed && replies[1].allowed
  {
    var window := 1_500_000_000;
    var nows := [4_100_000_000, 4_200_000_000];
    assert Truncate(nows[0], window) == 3_000_000_000;
    assert Truncate(nows[1], window) == 3_000_000_000;
    assert UnixSeconds(4_500_000_000) == 4;
    var k := FixedWindowKey("u", 3_000_000_000);
    var (d1, r1) := FixedWindowStep(EmptyDb(), true, "u", 1, window, nows[0]);
    assert d1.entries == map[];
    assert r1 == Verdict(1, 1, 4_500_000_000);
    var (d2, r2) := FixedWindowStep(d1, true, "u", 1, window, nows[1]);
    assert r2 == Verdict(1, 1, 4_500_000_000);
    assert nows[1..] == [nows[1]];
    assert RunFixed(EmptyDb(), "u", 1, window, nows).1 == [r1, r2];
  }

  /** The same two calls under the exact expiry: the second is denied. */
  lemma FixedWindowExactDenies()
    ensures var nows := [4_100_000_000, 4_200_000_000];
      var replies := RunFixedExact(EmptyDb(), "u", 1, 1_500_000_000, nows).1;
      replies[0].allowed && !replies[1].allowed
  {
    var nows := [4_100_000_000, 4_200_000_000];
    assert Truncate(nows[0], 1_500_000_000) == 3_000_000_000;
    assert Truncate(nows[1], 1_500_000_000) == 3_000_000_000;
    FixedWindowExactRun(EmptyDb(), "u", 1, 1_500_000_000, 3_000_000_000, nows, 0);
  }

  // ---- lock ----

  /** A successful acquire at `t0` holds the lock for its TTL: every other
      acquire until then fails and leaves the store as it was. */
  lemma LockExclusive(db: Db, k: string, a: string, ttl: int, t0: int, b: string, ttl2: int, t1: int)
    requires Lookup(db, k, t0).None? && ttl > 0
    requires t0 <= t1 <= t0 + SetNxPx(ttl).value
    ensures SetNxCmd(db, k, a, SetNxPx(ttl), t0).1 == Ok(true)
    ensures var d1 := SetNxCmd(db, k, a, SetNxPx(ttl), t0).0;
      SetNxCmd(d1, k, b, SetNxPx(ttl2), t1) == (d1, if SetNxPx(ttl2).Some? && SetNxPx(ttl2).value <= 0 then Err(InvalidExpire) else Ok(false))
  {
  }

  /** While the lock is held, a release with another token changes nothing. */
  lemma ForeignTokenNeverReleases(db: Db, k: string, a: string, ttl: int, t0: int, b: string, t1: int)
    requires Lookup(db, k, t0).None? && ttl > 0 && b != a
    requires t0 <= t1 <= t0 + SetNxPx(ttl).value
    ensures var d1 := SetNxCmd(db, k, a, SetNxPx(ttl), t0).0;
      UnlockScript(d1, k, b, t1) == (d1, Ok(0))
  {
  }

  /** The owner's release deletes the lock, and a second release finds nothing. */
  lemma SecondReleaseFails(db: Db, k: string, a: string, ttl: int, t0: int, t1: int, t2: int)
    requires Lookup(db, k, t0).None? && ttl > 0
    requires t0 <= t1 <= t0 + SetNxPx(ttl).value
    ensures var d1 := SetNxCmd(db, k, a, SetNxPx(ttl), t0).0;
      var (d2, r) := UnlockScript(d1, k, a, t1);
      && r == Ok(1)
      && k !in d2.entries
      && UnlockScript(d2, k, a, t2) == (d2, Ok(0))
  {
  }

  /** Once its TTL has passed, the lock can be taken again with a new token. */
  lemma ExpiredLockReacquired(db: Db, k: string, a: string, ttl: int, t0: int, b: string, ttl2: int, t1: int)
    requires Lookup(db, k, t0).None? && ttl > 0 && ttl2 > 0
    requires t1 > t0 + SetNxPx(ttl).value
    ensures var d1 := SetNxCmd(db, k, a, SetNxPx(ttl), t0).0;
      SetNxCmd(d1, k, b, SetNxPx(ttl2), t1).1 == Ok(true)
  {
  }
}
