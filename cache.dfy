/**
  The cache client: the adapter calls, the two rate limiters, the lock and
  the prefix scan, each issued against the key space of one store.

  The client's clock `now` is an instant in nanoseconds; the store is taken
  to read the same clock in milliseconds. A pipeline or script is one
  atomic step on the store: its commands run one after another, a failing
  command does not undo the others, and the pipeline reports the first
  error among its replies.
*/
module Cache {
  import opened Wrappers
  import opened Text
  import opened GoInt
  import opened GoTime
  import opened RedisServer

  // ---- the client library's argument conversions ----

  /** The client library's `KeepTTL` duration. */
  const KeepTTL: int := -1

  /** A duration sent as whole milliseconds: truncated, except that a positive
      duration below one millisecond is sent as 1. */
  function FormatMs(d: int): (r: int)
    ensures d > 0 ==> r >= 1
    ensures d >= NsPerMs ==> r * NsPerMs <= d < (r + 1) * NsPerMs
    ensures d <= 0 ==> r <= 0
  {
    if 0 < d < NsPerMs then 1 else Quot(d, NsPerMs)
  }

  /** A duration sent as whole seconds: truncated, except that a positive
      duration below one second is sent as 1. */
  function FormatSec(d: int): (r: int)
    ensures d > 0 ==> r >= 1
    ensures d >= NsPerSecond ==> r * NsPerSecond <= d < (r + 1) * NsPerSecond
    ensures d <= 0 ==> r <= 0
  {
    if 0 < d < NsPerSecond then 1 else Quot(d, NsPerSecond)
  }

  /** The expiry argument of set-if-absent: none for a zero TTL (plain SETNX)
      and for KeepTTL, otherwise the TTL in milliseconds. A TTL of whole
      seconds goes out as EX seconds, which the store reads as the same
      number of milliseconds. */
  function SetNxPx(ttl: int): (r: Option<int>)
    ensures r.None? <==> ttl == 0 || ttl == KeepTTL
    ensures ttl > 0 ==> r.Some? && r.value >= 1
    ensures ttl < 0 && ttl != KeepTTL ==> r.Some? && r.value <= 0
  {
    if ttl == 0 || ttl == KeepTTL then None else Some(FormatMs(ttl))
  }

  /** SCAN's effective COUNT: the argument is sent only when positive, and
      the store's default is 10. */
  function ScanCount(count: int): (r: nat)
    ensures r > 0
    ensures count > 0 ==> r == count
  {
    if count > 0 then count else 10
  }

  // ---- rate limiting ----

  /** The limiter's answer: allowed, remaining, reset time and error. */
  datatype LimitReply = LimitReply(allowed: bool, remaining: int, resetAt: int, err: Option<Error>)

  function Max0(x: int): (r: int)
    ensures r >= 0 && r >= x && (r == 0 || r == x)
  {
    if x < 0 then 0 else x
  }

  /** The answer for a counter reading `cur`. */
  function Verdict(cur: int, limit: int, resetAt: int): (r: LimitReply)
    ensures r.err.None? && r.resetAt == resetAt
    ensures r.allowed <==> cur <= limit
    ensures r.remaining >= 0
    ensures r.allowed ==> r.remaining == limit - cur
    ensures !r.allowed ==> r.remaining == 0
  {
    LimitReply(cur <= limit, Max0(limit - cur), resetAt, None)
  }

  /** The fixed-window counter key: the caller's key and the window start in Unix seconds. */
  function FixedWindowKey(key: string, windowStart: int): (r: string)
    ensures HasPrefix(r, "rl:" + key + ":")
  {
    "rl:" + key + ":" + IntToString(UnixSeconds(windowStart))
  }

  /** The fixed-window transaction: INCR the counter, then EXPIREAT; the reply
      is the new count or the first error. */
  function FixedWindowTx(db: Db, k: string, expireAtMs: int, nowMs: int): (Db, Result<int, Error>)
  {
    var (d1, cnt) := IncrByCmd(db, k, 1, nowMs);
    (ExpireAtCmd(d1, k, expireAtMs, nowMs).0, cnt)
  }

  /** After a successful transaction the counter holds the new count and expires
      at `expireAtMs`; an expiry already past deletes it; no other key changes. */
  lemma FixedWindowTxStores(db: Db, k: string, expireAtMs: int, nowMs: int)
    ensures var (d, cnt) := FixedWindowTx(db, k, expireAtMs, nowMs);
      && (cnt.Ok? && expireAtMs > nowMs ==> k in d.entries && d.entries[k] == Entry(Str(IntToString(cnt.value)), Some(expireAtMs)))
      && (cnt.Ok? && expireAtMs <= nowMs ==> k !in d.entries)
      && d.entries - {k} == db.entries - {k}
  {
  }

  /** A fixed-window check at instant `now`: increment the window's counter,
      set the counter to expire at the window's end (sent in whole seconds),
      and compare the new count with `limit`. */
  function FixedWindowStep(db: Db, up: bool, key: string, limit: int, window: int, now: int): (r: (Db, LimitReply))
    ensures r.1.resetAt == Truncate(now, window) + window
    ensures !up ==> r == (db, LimitReply(false, 0, r.1.resetAt, Some(Unreachable)))
    ensures r.1.err.Some? ==> !r.1.allowed && r.1.remaining == 0
  {
    var windowStart := Truncate(now, window);
    var resetAt := windowStart + window;
    if !up then (db, LimitReply(false, 0, resetAt, Some(Unreachable)))
    else
      var (d, cnt) := FixedWindowTx(db, FixedWindowKey(key, windowStart), UnixSeconds(resetAt) * 1000, UnixMilli(now));
      match cnt
      case Err(e) => (d, LimitReply(false, 0, resetAt, Some(e)))
      case Ok(cur) => (d, Verdict(cur, limit, resetAt))
  }

  /** The sliding-window key of a caller. */
  function SlidingKey(key: string): (r: string)
    ensures HasPrefix(r, "rl:sw:") && r[6..] == key
  {
    "rl:sw:" + key
  }

  /** The sorted-set member recorded for a call: its millisecond clock and a
      second clock reading, joined by '-'. */
  function SlidingMember(nowMs: int, stamp: int): (r: string)
    ensures HasPrefix(r, IntToString(nowMs) + "-")
  {
    IntToString(nowMs) + "-" + IntToString(stamp)
  }

  /** The sliding-window transaction: ZADD the call, ZREMRANGEBYSCORE from 0 to
      `agoMs`, ZCARD, then EXPIRE by `ttlSec` seconds; the reply is the count
      or the first error. */
  function SlidingWindowTx(db: Db, k: string, member: string, nowMs: int, agoMs: int, ttlSec: int): (r: (Db, Result<nat, Error>))
    ensures r.1.Err? <==> Lookup(db, k, nowMs).Some? && Lookup(db, k, nowMs).value.Str?
  {
    var (d1, added) := ZAddCmd(db, k, member, nowMs, nowMs);
    var (d2, pruned) := ZRemRangeByScoreCmd(d1, k, 0, agoMs, nowMs);
    var card := ZCardCmd(d2, k, nowMs);
    var d3 := ExpireAtCmd(d2, k, nowMs + ttlSec * 1000, nowMs).0;
    match (added, pruned)
    case (Err(e), _) => (d3, Err(e))
    case (_, Err(e)) => (d3, Err(e))
    case _ => (d3, card)
  }

  /** A sliding-window check at instant `now`: record the call, drop every
      record scored in [0, now - window] (milliseconds), count what is left,
      and extend the set's life to twice the window (sent in whole seconds). */
  function SlidingWindowStep(db: Db, up: bool, key: string, limit: int, window: int, now: int, stamp: int): (r: (Db, LimitReply))
    ensures !up ==> r == (db, LimitReply(false, 0, ZeroTime, Some(Unreachable)))
    ensures r.1.err.Some? ==> r.1 == LimitReply(false, 0, ZeroTime, r.1.err)
    ensures r.1.err.None? ==> r.1.resetAt == now + window
  {
    if !up then (db, LimitReply(false, 0, ZeroTime, Some(Unreachable)))
    else
      var nowMs := UnixMilli(now);
      var (d, card) := SlidingWindowTx(db, SlidingKey(key), SlidingMember(nowMs, stamp), nowMs,
                                       UnixMilli(now - window), FormatSec(Wrap64(window * 2)));
      match card
      case Err(e) => (d, LimitReply(false, 0, ZeroTime, Some(e)))
      case Ok(cur) => (d, Verdict(cur, limit, now + window))
  }

  // ---- the client ----

  class CacheClient {
    /** The store's key space. */
    var db: Db
    /** Whether round trips reach the store. */
    var reachable: bool

    constructor (db0: Db, up: bool)
      ensures db == db0 && reachable == up
    {
      db := db0;
      reachable := up;
    }

    /** GET, with a missing key read as the empty string and no error. */
    method GetString(key: string, nowMs: int) returns (val: string, err: Option<Error>)
      ensures !reachable ==> val == "" && err == Some(Unreachable)
      ensures reachable && Lookup(db, key, nowMs).None? ==> val == "" && err.None?
      ensures reachable && Lookup(db, key, nowMs).Some? && Lookup(db, key, nowMs).value.Str? ==>
        val == Lookup(db, key, nowMs).value.s && err.None?
      ensures reachable && Lookup(db, key, nowMs).Some? && Lookup(db, key, nowMs).value.ZSet? ==>
        val == "" && err == Some(WrongType)
    {
      if !reachable {
        return "", Some(Unreachable);
      }
      var reply := GetCmd(db, key, nowMs);
      match reply {
        case Ok(None) => val, err := "", None;
        case Ok(Some(s)) => val, err := s, None;
        case Err(e) => val, err := "", Some(e);
      }
    }

    /** Set-if-absent with a TTL; true when the value was written. */
    method SetNX(key: string, value: string, ttl: int, nowMs: int) returns (ok: bool, err: Option<Error>)
      modifies this
      ensures reachable == old(reachable)
      ensures !reachable ==> db == old(db) && !ok && err == Some(Unreachable)
      ensures reachable ==> var (d, r) := SetNxCmd(old(db), key, value, SetNxPx(ttl), nowMs);
        db == d && ok == (r == Ok(true)) && err == (if r.Err? then Some(r.error) else None)
    {
      if !reachable {
        return false, Some(Unreachable);
      }
      var (d, r) := SetNxCmd(db, key, value, SetNxPx(ttl), nowMs);
      db := d;
      ok := r == Ok(true);
      err := if r.Err? then Some(r.error) else None;
    }

    /** INCRBY; the reply value is 0 on error. */
    method IncrBy(key: string, n: int, nowMs: int) returns (v: int, err: Option<Error>)
      modifies this
      ensures reachable == old(reachable)
      ensures !reachable ==> db == old(db) && v == 0 && err == Some(Unreachable)
      ensures reachable ==> var (d, r) := IncrByCmd(old(db), key, n, nowMs);
        db == d && v == (if r.Ok? then r.value else 0) && err == (if r.Err? then Some(r.error) else None)
    {
      if !reachable {
        return 0, Some(Unreachable);
      }
      var (d, r) := IncrByCmd(db, key, n, nowMs);
      db := d;
      if r.Ok? {
        v, err := r.value, None;
      } else {
        v, err := 0, Some(r.error);
      }
    }

    /** DEL of the given keys, replying how many were live; an empty key list
        is a command without arguments, which the store refuses. */
    method Delete(keys: seq<string>, nowMs: int) returns (n: int, err: Option<Error>)
      modifies this
      ensures reachable == old(reachable)
      ensures !reachable || keys == [] ==> db == old(db) && n == 0 && err.Some?
      ensures reachable && keys != [] ==>
        db == DelCmd(old(db), keys, nowMs).0 && n == |LiveKeys(old(db), keys, nowMs)| && err.None?
    {
      if !reachable {
        return 0, Some(Unreachable);
      }
      if keys == [] {
        return 0, Some(WrongArity);
      }
      var (d, count) := DelCmd(db, keys, nowMs);
      db := d;
      n, err := count, None;
    }

    /** The fixed-window limiter. */
    method RateLimitFixedWindow(key: string, limit: int, window: int, now: int)
      returns (allowed: bool, remaining: int, resetAt: int, err: Option<Error>)
      modifies this
      ensures reachable == old(reachable)
      ensures (db, LimitReply(allowed, remaining, resetAt, err)) == FixedWindowStep(old(db), reachable, key, limit, window, now)
    {
      var windowStart := Truncate(now, window);
      resetAt := windowStart + window;
      var k := FixedWindowKey(key, windowStart);
      if !reachable {
        return false, 0, resetAt, Some(Unreachable);
      }
      var (d, cnt) := FixedWindowTx(db, k, UnixSeconds(resetAt) * 1000, UnixMilli(now));
      db := d;
      if cnt.Err? {
        return false, 0, resetAt, Some(cnt.error);
      }
      var cur := cnt.value;
      allowed := cur <= limit;
      remaining := limit - cur;
      if remaining < 0 {
        remaining := 0;
      }
      err := None;
    }

    /** The sliding-window limiter; `stamp` is the second clock reading that
        makes the recorded member unique. */
    method RateLimitSlidingWindow(key: string, limit: int, window: int, now: int, stamp: int)
      returns (allowed: bool, remaining: int, resetAt: int, err: Option<Error>)
      modifies this
      ensures reachable == old(reachable)
      ensures (db, LimitReply(allowed, remaining, resetAt, err)) == SlidingWindowStep(old(db), reachable, key, limit, window, now, stamp)
    {
      var nowMs := UnixMilli(now);
      var agoMs := UnixMilli(now - window);
      var k := SlidingKey(key);
      var member := SlidingMember(nowMs, stamp);
      if !reachable {
        return false, 0, ZeroTime, Some(Unreachable);
      }
      var (d, card) := SlidingWindowTx(db, k, member, nowMs, agoMs, FormatSec(Wrap64(window * 2)));
      db := d;
      if card.Err? {
        return false, 0, ZeroTime, Some(card.error);
      }
      var cur := card.value;
      allowed := cur <= limit;
      remaining := limit - cur;
      if remaining < 0 {
        remaining := 0;
      }
      resetAt := now + window;
      err := None;
    }

    /** Takes the lock `key` with `value` as the owner's token. */
    method AcquireLock(key: string, value: string, ttl: int, nowMs: int) returns (ok: bool, err: Option<Error>)
      modifies this
      ensures reachable == old(reachable)
      ensures !reachable ==> db == old(db) && !ok && err == Some(Unreachable)
      ensures reachable ==> var (d, r) := SetNxCmd(old(db), key, value, SetNxPx(ttl), nowMs);
        db == d && ok == (r == Ok(true)) && err == (if r.Err? then Some(r.error) else None)
    {
      ok, err := SetNX(key, value, ttl, nowMs);
    }

    /** Runs the unlock script; true when the token matched and the lock was deleted. */
    method ReleaseLock(key: string, value: string, nowMs: int) returns (released: bool, err: Option<Error>)
      modifies this
      ensures reachable == old(reachable)
      ensures !reachable ==> db == old(db) && !released && err == Some(Unreachable)
      ensures reachable ==> var (d, r) := UnlockScript(old(db), key, value, nowMs);
        db == d && released == (r == Ok(1)) && err == (if r.Err? then Some(r.error) else None)
    {
      if !reachable {
        return false, Some(Unreachable);
      }
      var (d, r) := UnlockScript(db, key, value, nowMs);
      db := d;
      var n := if r.Ok? then r.value else 0;
      released := n == 1;
      err := if r.Err? then Some(r.error) else None;
    }

    /** All live keys starting with `prefix`, gathered by cursor scans over the
        store's slot order `order` until the cursor comes back to 0; an error
        discards what was gathered. */
    method ScanPrefix(order: seq<string>, prefix: string, count: int, nowMs: int) returns (keys: seq<string>, err: Option<Error>)
      ensures !reachable ==> keys == [] && err == Some(Unreachable)
      ensures reachable ==> keys == Matching(db, order, prefix, nowMs) && err.None?
    {
      var cursor: nat := 0;
      keys := [];
      var n := ScanCount(count);
      while true
        invariant cursor <= |order|
        invariant keys == Matching(db, order[..cursor], prefix, nowMs)
        decreases |order| - cursor
      {
        if !reachable {
          return [], Some(Unreachable);
        }
        var (batch, next) := ScanCmd(db, order, cursor, prefix, n, nowMs);
        var end := ScanEnd(|order|, cursor, n);
        assert order[..end] == order[..cursor] + order[cursor..end];
        MatchingAppend(db, order[..cursor], order[cursor..end], prefix, nowMs);
        keys := keys + batch;
        if next == 0 {
          assert order[..end] == order;
          return keys, None;
        }
        cursor := next;
      }
    }

    /** Deletes every live key starting with `prefix`; replies how many went.
        A full scan visits every key that exists throughout it, so `order`
        lists every key of the store. */
    method DeleteByPrefix(order: seq<string>, prefix: string, count: int, nowMs: int) returns (n: int, err: Option<Error>)
      requires forall k :: k in db.entries ==> k in order
      modifies this
      ensures reachable == old(reachable)
      ensures !reachable ==> db == old(db) && n == 0 && err == Some(Unreachable)
      ensures reachable ==> (err.None?
        && db.entries == old(db).entries - PrefixKeys(old(db), prefix, nowMs)
        && n == |PrefixKeys(old(db), prefix, nowMs)|)
      ensures reachable ==> forall k :: HasPrefix(k, prefix) ==> Lookup(db, k, nowMs).None?
    {
      var keys;
      keys, err := ScanPrefix(order, prefix, count, nowMs);
      if err.Some? {
        return 0, err;
      }
      PrefixKeysMatching(db, order, prefix, nowMs);
      if |keys| == 0 {
        return 0, None;
      }
      n, err := Delete(keys, nowMs);
    }
  }

  /** The live keys of the store that start with `prefix`. */
  function PrefixKeys(db: Db, prefix: string, nowMs: int): set<string> {
    set k | k in db.entries && HasPrefix(k, prefix) && Live(db.entries[k], nowMs)
  }

  /** A full scan finds exactly the live prefixed keys, each once, and deleting
      them is counted one for one. */
  lemma PrefixKeysMatching(db: Db, order: seq<string>, prefix: string, nowMs: int)
    requires forall k :: k in db.entries ==> k in order
    ensures var keys := Matching(db, order, prefix, nowMs);
      && (set k | k in keys) == PrefixKeys(db, prefix, nowMs)
      && LiveKeys(db, keys, nowMs) == PrefixKeys(db, prefix, nowMs)
      && (keys == [] <==> PrefixKeys(db, prefix, nowMs) == {})
  {
    var keys := Matching(db, order, prefix, nowMs);
    MatchingMembers(db, order, prefix, nowMs);
    assert (set k | k in keys) == PrefixKeys(db, prefix, nowMs);
    if keys != [] {
      assert keys[0] in PrefixKeys(db, prefix, nowMs);
    }
  }
}
