/**
  What the sliding-window limiter answers over a sequence of calls on one
  key: every call is logged, denied or not, and each call is judged by the
  number of logged calls of the last `window` milliseconds, itself included.
*/
module SlidingProps {
  import opened Wrappers
  import opened Text
  import opened GoInt
  import opened GoTime
  import opened RedisServer
  import opened Cache

  // ---- the logged member ----

  /** Distinct clock readings give distinct members: the millisecond part has
      no '-', so the first '-' splits a member back into its two readings. */
  lemma SlidingMemberInjective(a: int, s: int, b: int, t: int)
    requires a >= 0 && b >= 0
    requires SlidingMember(a, s) == SlidingMember(b, t)
    ensures a == b && s == t
  {
    var x, y := IntToString(a), IntToString(b);
    NatRenderingNoDash(a);
    NatRenderingNoDash(b);
    var m := SlidingMember(a, s);
    assert m == x + ['-'] + IntToString(s) == y + ['-'] + IntToString(t);
    SplitAfter(x, '-', IntToString(s));
    SplitAfter(y, '-', IntToString(t));
    assert x == Split(m, '-')[0] == y;
    assert IntToString(s) == m[|x| + 1..] == IntToString(t);
    IntToStringInjective(a, b);
    IntToStringInjective(s, t);
  }

  // ---- a log of calls ----

  /** The calls in order: member `mem[i]` scored `sc[i]` milliseconds; scores
      are non-negative and never go back, members are distinct. */
  predicate Calls(mem: seq<string>, sc: seq<int>) {
    && |mem| == |sc|
    && (forall i :: 0 <= i < |sc| ==> sc[i] >= 0)
    && (forall i, j :: 0 <= i < j < |sc| ==> sc[i] <= sc[j])
    && (forall i, j :: 0 <= i < j < |mem| ==> mem[i] != mem[j])
  }

  /** The calls up to call `j` that fall in call `j`'s window of `w` milliseconds. */
  function RecentIdx(sc: seq<int>, j: nat, w: int): set<nat>
    requires j < |sc|
  {
    set i: nat | i <= j && sc[i] > sc[j] - w
  }

  /** Every call up to call `j`, as member and score. */
  function Log(mem: seq<string>, sc: seq<int>, j: nat): map<string, int>
    requires j < |mem| == |sc|
  {
    (if j == 0 then map[] else Log(mem, sc, j - 1))[mem[j] := sc[j]]
  }

  /** The log the limiter should hold after call `j`: the calls less than `w`
      milliseconds older than it. */
  function Recent(mem: seq<string>, sc: seq<int>, j: nat, w: int): map<string, int>
    requires j < |mem| == |sc|
  {
    var l := Log(mem, sc, j);
    map x | x in l && l[x] > sc[j] - w :: l[x]
  }

  lemma {:induction false} LogBounds(mem: seq<string>, sc: seq<int>, j: nat)
    requires Calls(mem, sc) && j < |mem|
    ensures forall x :: x in Log(mem, sc, j) ==> 0 <= Log(mem, sc, j)[x] <= sc[j]
  {
    if j > 0 {
      LogBounds(mem, sc, j - 1);
    }
  }

  /** Each call's member stays in the log with its own score. */
  lemma {:induction false} LogAt(mem: seq<string>, sc: seq<int>, j: nat, i: nat)
    requires Calls(mem, sc) && i <= j < |mem|
    ensures mem[i] in Log(mem, sc, j) && Log(mem, sc, j)[mem[i]] == sc[i]
  {
    if i < j {
      LogAt(mem, sc, j - 1, i);
      assert mem[i] != mem[j];
    }
  }

  /** Every member of the log is some call's. */
  lemma {:induction false} LogBack(mem: seq<string>, sc: seq<int>, j: nat, x: string) returns (i: nat)
    requires j < |mem| == |sc| && x in Log(mem, sc, j)
    ensures i <= j && mem[i] == x
  {
    if x == mem[j] {
      i := j;
    } else {
      i := LogBack(mem, sc, j - 1, x);
    }
  }

  /** Distinct calls have distinct members, so a set of calls and its members are as many. */
  lemma {:induction false} ImageCard(mem: seq<string>, sc: seq<int>, s: set<nat>)
    requires Calls(mem, sc) && forall i :: i in s ==> i < |mem|
    ensures |set i | i in s :: mem[i]| == |s|
    decreases |s|
  {
    if s != {} {
      var i0 :| i0 in s;
      var s' := s - {i0};
      ImageCard(mem, sc, s');
      var img := set i | i in s :: mem[i];
      var img' := set i | i in s' :: mem[i];
      forall i | i in s'
        ensures mem[i] != mem[i0]
      {
        if i < i0 {
          assert mem[i] != mem[i0];
        } else {
          assert mem[i0] != mem[i];
        }
      }
      assert mem[i0] !in img';
      assert img == img' + {mem[i0]};
      assert |img| == |img'| + 1;
    }
  }

  /** The limiter's count after call `j` is the number of calls in its window. */
  lemma RecentCard(mem: seq<string>, sc: seq<int>, j: nat, w: int)
    requires Calls(mem, sc) && j < |mem|
    ensures |Recent(mem, sc, j, w)| == |RecentIdx(sc, j, w)|
  {
    var r := Recent(mem, sc, j, w);
    var s := RecentIdx(sc, j, w);
    var img := set i | i in s :: mem[i];
    forall x | x in r.Keys
      ensures x in img
    {
      var i := LogBack(mem, sc, j, x);
      LogAt(mem, sc, j, i);
      assert i in s;
    }
    forall x | x in img
      ensures x in r.Keys
    {
      var i :| i in s && mem[i] == x;
      LogAt(mem, sc, j, i);
    }
    assert r.Keys == img;
    ImageCard(mem, sc, s);
  }

  /** A call that finds the previous log live keeps the part of it inside its
      own window (ending at `ago`), plus itself. */
  lemma RecentStepLive(mem: seq<string>, sc: seq<int>, j: nat, w: int, ago: int)
    requires Calls(mem, sc) && 0 < j < |mem| && ago == sc[j] - w
    ensures OutsideRange(Recent(mem, sc, j - 1, w)[mem[j] := sc[j]], 0, ago) == Recent(mem, sc, j, w)
  {
    LogBounds(mem, sc, j - 1);
  }

  /** A call that finds no live log, because it is the first or the log
      outlived its TTL of at least a window, starts a log of itself alone. */
  lemma RecentStepFresh(mem: seq<string>, sc: seq<int>, j: nat, w: int, ago: int, ttl: int)
    requires Calls(mem, sc) && j < |mem| && 1 <= w <= ttl && ago == sc[j] - w
    requires j > 0 ==> sc[j] > sc[j - 1] + ttl
    ensures OutsideRange(map[mem[j] := sc[j]], 0, ago) == Recent(mem, sc, j, w)
  {
    var r := Recent(mem, sc, j, w);
    if j > 0 {
      LogBounds(mem, sc, j - 1);
      forall x | x in r
        ensures x == mem[j]
      {
        var l := Log(mem, sc, j - 1);
        assert Log(mem, sc, j) == l[mem[j] := sc[j]];
      }
    }
    assert r == map[mem[j] := sc[j]];
  }

  // ---- one call against the store ----

  /** A window of whole milliseconds whose double fits in 64 bits. */
  predicate WindowOk(window: int) {
    window >= NsPerMs && window % NsPerMs == 0 && 2 * window <= Int64Max
  }

  /** The set's lifetime in milliseconds: twice the window, sent in whole seconds. */
  function TtlMs(window: int): int {
    FormatSec(Wrap64(window * 2)) * 1000
  }

  /** The lifetime outlasts the window, so a set that expired holds no call of the current window. */
  lemma ExpiryCoversWindow(window: int)
    requires WindowOk(window)
    ensures TtlMs(window) >= window / NsPerMs >= 1
    ensures FormatSec(Wrap64(window * 2)) >= 1
  {
    assert Wrap64(window * 2) == window * 2;
  }

  /** A whole-millisecond window moves the millisecond clock back by exactly its length. */
  lemma WindowMs(now: int, window: int)
    requires window % NsPerMs == 0
    ensures UnixMilli(now - window) == UnixMilli(now) - window / NsPerMs
  {
    var q := window / NsPerMs;
    assert window == q * NsPerMs;
    var m := UnixMilli(now);
    assert (m - q) * NsPerMs <= now - window < (m - q + 1) * NsPerMs;
  }

  /** The transaction on a key holding the live set `base` (or nothing,
      with `base` empty): the call is added, the old records dropped, the
      count taken and the life extended. */
  lemma SlidingTxEffect(d: Db, k: string, member: string, nowMs: int, agoMs: int, ttlSec: int, base: map<string, int>)
    requires ttlSec >= 1 && 0 <= nowMs && agoMs < nowMs
    requires (Lookup(d, k, nowMs).None? && base == map[]) || Lookup(d, k, nowMs) == Some(ZSet(base))
    ensures var r := SlidingWindowTx(d, k, member, nowMs, agoMs, ttlSec);
      var rest := OutsideRange(base[member := nowMs], 0, agoMs);
      && r.1 == Ok(|rest|)
      && k in r.0.entries && r.0.entries[k] == Entry(ZSet(rest), Some(nowMs + ttlSec * 1000))
  {
    var (d1, added) := ZAddCmd(d, k, member, nowMs, nowMs);
    assert d1.entries[k].value == ZSet(base[member := nowMs]);
    assert Lookup(d1, k, nowMs).Some?;
    var rest := OutsideRange(base[member := nowMs], 0, agoMs);
    assert member in rest;
    var (d2, pruned) := ZRemRangeByScoreCmd(d1, k, 0, agoMs, nowMs);
    assert d2.entries[k].value == ZSet(rest);
    assert Lookup(d2, k, nowMs).Some?;
  }

  /** One reachable call on a key holding the live set `base` (or nothing,
      with `base` empty): the key ends up holding `kept`, the records of the
      window plus this call, and the call is judged by their number. */
  lemma SlidingStepEffect(d: Db, key: string, limit: int, window: int, now: int, stamp: int,
                          base: map<string, int>, kept: map<string, int>) returns (d1: Db)
    requires WindowOk(window) && now >= 0
    requires (Lookup(d, SlidingKey(key), UnixMilli(now)).None? && base == map[])
      || Lookup(d, SlidingKey(key), UnixMilli(now)) == Some(ZSet(base))
    requires kept == OutsideRange(base[SlidingMember(UnixMilli(now), stamp) := UnixMilli(now)], 0, UnixMilli(now - window))
    ensures SlidingWindowStep(d, true, key, limit, window, now, stamp) == (d1, Verdict(|kept|, limit, now + window))
    ensures SlidingKey(key) in d1.entries && d1.entries[SlidingKey(key)] == Entry(ZSet(kept), Some(UnixMilli(now) + TtlMs(window)))
  {
    ExpiryCoversWindow(window);
    WindowMs(now, window);
    var ms, ago := UnixMilli(now), UnixMilli(now - window);
    var ttlSec := FormatSec(Wrap64(window * 2));
    SlidingTxEffect(d, SlidingKey(key), SlidingMember(ms, stamp), ms, ago, ttlSec, base);
    var tx := SlidingWindowTx(d, SlidingKey(key), SlidingMember(ms, stamp), ms, ago, ttlSec);
    d1 := tx.0;
    assert tx.1 == Ok(|kept|);
    assert SlidingWindowStep(d, true, key, limit, window, now, stamp) == (d1, Verdict(|kept|, limit, now + window));
  }

  /** The set the store holds after call `j`, as the calls build it: call `j`
      finds the previous set live, when it comes no later than `ttl` after the
      previous call, or nothing; it adds itself and drops the records at least
      `w` milliseconds old. */
  function Stored(mem: seq<string>, sc: seq<int>, j: nat, w: int, ttl: int): map<string, int>
    requires j < |mem| == |sc|
  {
    var base := if j > 0 && sc[j] <= sc[j - 1] + ttl then Stored(mem, sc, j - 1, w, ttl) else map[];
    OutsideRange(base[mem[j] := sc[j]], 0, sc[j] - w)
  }

  /** A lifetime at least as long as the window loses no call of the window:
      the set the calls build is exactly the calls of the window. */
  lemma {:induction false} StoredIsRecent(mem: seq<string>, sc: seq<int>, j: nat, w: int, ttl: int)
    requires Calls(mem, sc) && j < |mem| && 1 <= w <= ttl
    ensures Stored(mem, sc, j, w, ttl) == Recent(mem, sc, j, w)
  {
    if j > 0 && sc[j] <= sc[j - 1] + ttl {
      StoredIsRecent(mem, sc, j - 1, w, ttl);
      RecentStepLive(mem, sc, j, w, sc[j] - w);
    } else {
      RecentStepFresh(mem, sc, j, w, sc[j] - w, ttl);
    }
  }

  /** The store holds, after call `j`, the set the calls built, expiring `ttl`
      after call `j`. */
  predicate LogStored(d: Db, k: string, mem: seq<string>, sc: seq<int>, j: nat, w: int, ttl: int)
    requires j < |mem| == |sc|
  {
    k in d.entries && d.entries[k] == Entry(ZSet(Stored(mem, sc, j, w, ttl)), Some(sc[j] + ttl))
  }

  /** A call that finds the set of call `j - 1` live extends it. */
  lemma SlidingStepLive(d: Db, key: string, limit: int, window: int, mem: seq<string>, sc: seq<int>, j: nat, now: int, stamp: int, w: int, ttl: int)
    returns (d1: Db)
    requires WindowOk(window) && now >= 0 && 0 < j < |mem| == |sc| && w == window / NsPerMs && ttl == TtlMs(window)
    requires mem[j] == SlidingMember(UnixMilli(now), stamp) && sc[j] == UnixMilli(now) && sc[j] <= sc[j - 1] + ttl
    requires UnixMilli(now - window) == sc[j] - w
    requires LogStored(d, SlidingKey(key), mem, sc, j - 1, w, ttl)
    ensures SlidingWindowStep(d, true, key, limit, window, now, stamp)
      == (d1, Verdict(|Stored(mem, sc, j, w, ttl)|, limit, now + window))
    ensures LogStored(d1, SlidingKey(key), mem, sc, j, w, ttl)
  {
    assert Lookup(d, SlidingKey(key), UnixMilli(now)) == Some(ZSet(Stored(mem, sc, j - 1, w, ttl)));
    d1 := SlidingStepEffect(d, key, limit, window, now, stamp, Stored(mem, sc, j - 1, w, ttl), Stored(mem, sc, j, w, ttl));
  }

  /** A call that finds no live set, as the first call or after the set
      expired, starts a new one. */
  lemma SlidingStepFresh(d: Db, key: string, limit: int, window: int, mem: seq<string>, sc: seq<int>, j: nat, now: int, stamp: int, w: int, ttl: int)
    returns (d1: Db)
    requires WindowOk(window) && now >= 0 && j < |mem| == |sc| && w == window / NsPerMs && ttl == TtlMs(window)
    requires mem[j] == SlidingMember(UnixMilli(now), stamp) && sc[j] == UnixMilli(now) && (j > 0 ==> sc[j] > sc[j - 1] + ttl)
    requires UnixMilli(now - window) == sc[j] - w
    requires j == 0 ==> SlidingKey(key) !in d.entries
    requires j > 0 ==> LogStored(d, SlidingKey(key), mem, sc, j - 1, w, ttl)
    ensures SlidingWindowStep(d, true, key, limit, window, now, stamp)
      == (d1, Verdict(|Stored(mem, sc, j, w, ttl)|, limit, now + window))
    ensures LogStored(d1, SlidingKey(key), mem, sc, j, w, ttl)
  {
    assert Lookup(d, SlidingKey(key), UnixMilli(now)).None?;
    d1 := SlidingStepEffect(d, key, limit, window, now, stamp, map[], Stored(mem, sc, j, w, ttl));
  }

  /** One reachable sliding-window call, recorded as `mem[j]` at `sc[j]`
      milliseconds: from a fresh key, or from the set left by call `j - 1`,
      the store ends up holding the set of call `j`, and the call is judged by
      its size. */
  lemma SlidingStepStored(d: Db, key: string, limit: int, window: int, mem: seq<string>, sc: seq<int>, j: nat, now: int, stamp: int)
    returns (d1: Db)
    requires WindowOk(window) && now >= 0 && j < |mem| == |sc|
    requires mem[j] == SlidingMember(UnixMilli(now), stamp) && sc[j] == UnixMilli(now)
    requires j == 0 ==> SlidingKey(key) !in d.entries
    requires j > 0 ==> LogStored(d, SlidingKey(key), mem, sc, j - 1, window / NsPerMs, TtlMs(window))
    ensures SlidingWindowStep(d, true, key, limit, window, now, stamp)
      == (d1, Verdict(|Stored(mem, sc, j, window / NsPerMs, TtlMs(window))|, limit, now + window))
    ensures LogStored(d1, SlidingKey(key), mem, sc, j, window / NsPerMs, TtlMs(window))
  {
    var w, ttl := window / NsPerMs, TtlMs(window);
    WindowMs(now, window);
    if j > 0 && sc[j] <= sc[j - 1] + ttl {
      d1 := SlidingStepLive(d, key, limit, window, mem, sc, j, now, stamp, w, ttl);
    } else {
      d1 := SlidingStepFresh(d, key, limit, window, mem, sc, j, now, stamp, w, ttl);
    }
  }

  // ---- a client's calls ----

  /** The calls' clocks: non-negative, in order, with distinct second readings. */
  predicate Clocks(nows: seq<int>, stamps: seq<int>) {
    && |nows| == |stamps|
    && (forall i :: 0 <= i < |nows| ==> nows[i] >= 0)
    && (forall i, j :: 0 <= i < j < |nows| ==> nows[i] <= nows[j])
    && (forall i, j :: 0 <= i < j < |stamps| ==> stamps[i] != stamps[j])
  }

  function Scores(nows: seq<int>): seq<int> {
    seq(|nows|, i requires 0 <= i < |nows| => UnixMilli(nows[i]))
  }

  /** The members the calls record, in order. */
  function Members(nows: seq<int>, stamps: seq<int>): (r: seq<string>)
    requires |nows| == |stamps|
    ensures |r| == |nows|
  {
    seq(|nows|, i requires 0 <= i < |nows| == |stamps| => SlidingMember(UnixMilli(nows[i]), stamps[i]))
  }

  /** The calls of a client whose clocks behave form a log of calls. */
  lemma ClocksCalls(nows: seq<int>, stamps: seq<int>)
    requires Clocks(nows, stamps)
    ensures Calls(Members(nows, stamps), Scores(nows))
  {
    var mem, sc := Members(nows, stamps), Scores(nows);
    forall i, j | 0 <= i < j < |sc|
      ensures 0 <= sc[i] <= sc[j] && mem[i] != mem[j]
    {
      assert nows[i] <= nows[j] && stamps[i] != stamps[j];
      if mem[i] == mem[j] {
        SlidingMemberInjective(UnixMilli(nows[i]), stamps[i], UnixMilli(nows[j]), stamps[j]);
      }
    }
    forall i | 0 <= i < |sc|
      ensures sc[i] >= 0
    {
      assert nows[i] >= 0;
    }
  }

  /** The calls up to call `j` less than `w` milliseconds older than it. */
  function WindowCalls(nows: seq<int>, j: nat, w: int): set<nat>
    requires j < |nows|
  {
    set i: nat | i <= j && UnixMilli(nows[i]) > UnixMilli(nows[j]) - w
  }

  lemma WindowCallsScores(nows: seq<int>, j: nat, w: int)
    requires j < |nows|
    ensures WindowCalls(nows, j, w) == RecentIdx(Scores(nows), j, w)
  {
  }

  /** Call `i` of a sequence of reachable sliding-window checks: it starts from
      the store `dbs[i]` the previous call left and leaves `dbs[i + 1]`. */
  predicate SlidingCallAt(dbs: seq<Db>, replies: seq<LimitReply>, key: string, limit: int, window: int,
                          nows: seq<int>, stamps: seq<int>, i: nat)
    requires i < |nows| == |stamps| == |replies| && |dbs| == |nows| + 1
  {
    (dbs[i + 1], replies[i]) == SlidingWindowStep(dbs[i], true, key, limit, window, nows[i], stamps[i])
  }

  /** The stores and answers of a client's checks on one key, made one after
      the other at the instants `nows` with second clock readings `stamps`. */
  predicate SlidingRun(dbs: seq<Db>, replies: seq<LimitReply>, key: string, limit: int, window: int,
                       nows: seq<int>, stamps: seq<int>)
  {
    && |nows| == |stamps| == |replies| && |dbs| == |nows| + 1
    && forall i :: 0 <= i < |nows| ==> SlidingCallAt(dbs, replies, key, limit, window, nows, stamps, i)
  }

  /** A run on a fresh key by a client whose clocks behave, with a window of whole milliseconds. */
  predicate FreshRun(dbs: seq<Db>, replies: seq<LimitReply>, key: string, limit: int, window: int,
                     nows: seq<int>, stamps: seq<int>)
  {
    && Clocks(nows, stamps) && WindowOk(window)
    && SlidingRun(dbs, replies, key, limit, window, nows, stamps) && SlidingKey(key) !in dbs[0].entries
  }


  /** Call `j` of a run on a fresh key, from the set the call before it left:
      it leaves its own set in the store `dbs[n]`, `n` being `j + 1`, and is
      judged by that set's size. */
  lemma SlidingCallStored(dbs: seq<Db>, replies: seq<LimitReply>, key: string, limit: int, window: int,
                          nows: seq<int>, stamps: seq<int>, j: nat, n: nat)
    requires FreshRun(dbs, replies, key, limit, window, nows, stamps) && n == j + 1 <= |nows|
    requires j > 0 ==> LogStored(dbs[j], SlidingKey(key), Members(nows, stamps), Scores(nows), j - 1, window / NsPerMs, TtlMs(window))
    ensures LogStored(dbs[n], SlidingKey(key), Members(nows, stamps), Scores(nows), j, window / NsPerMs, TtlMs(window))
    ensures replies[j] == Verdict(|Stored(Members(nows, stamps), Scores(nows), j, window / NsPerMs, TtlMs(window))|, limit, nows[j] + window)
  {
    var d1 := SlidingStepStored(dbs[j], key, limit, window, Members(nows, stamps), Scores(nows), j, nows[j], stamps[j]);
    assert SlidingCallAt(dbs, replies, key, limit, window, nows, stamps, j);
  }

  /** The calls up to call `j` of a run on a fresh key leave the set of call
      `j` in the store `dbs[n]`, `n` being `j + 1`, and call `j` is judged by
      that set's size. */
  lemma {:induction false} SlidingCallsUpTo(dbs: seq<Db>, replies: seq<LimitReply>, key: string, limit: int, window: int,
                                            nows: seq<int>, stamps: seq<int>, j: nat, n: nat)
    requires FreshRun(dbs, replies, key, limit, window, nows, stamps) && n == j + 1 <= |nows|
    ensures LogStored(dbs[n], SlidingKey(key), Members(nows, stamps), Scores(nows), j, window / NsPerMs, TtlMs(window))
    ensures replies[j] == Verdict(|Stored(Members(nows, stamps), Scores(nows), j, window / NsPerMs, TtlMs(window))|, limit, nows[j] + window)
  {
    if j > 0 {
      SlidingCallsUpTo(dbs, replies, key, limit, window, nows, stamps, j - 1, j);
    }
    SlidingCallStored(dbs, replies, key, limit, window, nows, stamps, j, n);
  }

  /** The set a client's calls build holds as many records as there are calls in the window. */
  lemma StoredCount(nows: seq<int>, stamps: seq<int>, window: int, j: nat)
    requires Clocks(nows, stamps) && WindowOk(window) && j < |nows|
    ensures |Stored(Members(nows, stamps), Scores(nows), j, window / NsPerMs, TtlMs(window))| == |WindowCalls(nows, j, window / NsPerMs)|
  {
    ClocksCalls(nows, stamps);
    ExpiryCoversWindow(window);
    StoredIsRecent(Members(nows, stamps), Scores(nows), j, window / NsPerMs, TtlMs(window));
    RecentCard(Members(nows, stamps), Scores(nows), j, window / NsPerMs);
    WindowCallsScores(nows, j, window / NsPerMs);
  }

  /** A sliding-window check on a fresh key is judged by the number of
      calls, allowed or denied, in its window, itself included. */
  lemma SlidingCallCount(dbs: seq<Db>, replies: seq<LimitReply>, key: string, limit: int, window: int,
                         nows: seq<int>, stamps: seq<int>, i: nat)
    requires Clocks(nows, stamps) && WindowOk(window)
    requires SlidingRun(dbs, replies, key, limit, window, nows, stamps) && SlidingKey(key) !in dbs[0].entries
    requires i < |nows|
    ensures replies[i] == Verdict(|WindowCalls(nows, i, window / NsPerMs)|, limit, nows[i] + window)
  {
    SlidingCallsUpTo(dbs, replies, key, limit, window, nows, stamps, i, i + 1);
    StoredCount(nows, stamps, window, i);
  }

  /** Every sliding-window check on a fresh key is judged by the number of
      calls, allowed or denied, in its window, itself included. */
  lemma SlidingWindowCounts(dbs: seq<Db>, replies: seq<LimitReply>, key: string, limit: int, window: int,
                            nows: seq<int>, stamps: seq<int>)
    requires Clocks(nows, stamps) && WindowOk(window)
    requires SlidingRun(dbs, replies, key, limit, window, nows, stamps) && SlidingKey(key) !in dbs[0].entries
    ensures forall i :: 0 <= i < |nows| ==>
      replies[i] == Verdict(|WindowCalls(nows, i, window / NsPerMs)|, limit, nows[i] + window)
  {
    forall i | 0 <= i < |nows|
      ensures replies[i] == Verdict(|WindowCalls(nows, i, window / NsPerMs)|, limit, nows[i] + window)
    {
      SlidingCallCount(dbs, replies, key, limit, window, nows, stamps, i);
    }
  }
}
