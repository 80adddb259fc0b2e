/**
  What the sliding-window limiter guarantees a caller over time: no span of
  `window` milliseconds ever holds more than `limit` allowed calls, and a
  worked run on which denied calls keep a caller blocked.
*/
module SlidingBound {
  import opened Wrappers
  import opened GoTime
  import opened RedisServer
  import opened Cache
  import opened SlidingProps

  // ---- sets of call indices ----

  lemma {:induction false} SubsetCard(a: set<nat>, b: set<nat>)
    requires forall i :: i in a ==> i in b
    ensures |a| <= |b|
    decreases |b|
  {
    if a != {} {
      var x :| x in a;
      SubsetCard(a - {x}, b - {x});
      assert a == (a - {x}) + {x};
      assert b == (b - {x}) + {x};
    }
  }

  lemma {:induction false} MaxOf(s: set<nat>) returns (m: nat)
    requires s != {}
    ensures m in s && forall i :: i in s ==> i <= m
    decreases |s|
  {
    var x :| x in s;
    if s == {x} {
      m := x;
    } else {
      var m' := MaxOf(s - {x});
      m := if x > m' then x else m';
      forall i | i in s
        ensures i <= m
      {
        if i != x {
          assert i in s - {x};
        }
      }
    }
  }

  lemma UnixMilliMonotone(a: int, b: int)
    requires a <= b
    ensures UnixMilli(a) <= UnixMilli(b)
  {
  }

  // ---- the bound ----

  /** The allowed calls whose millisecond readings fall in the span (t - w, t]. */
  function AllowedIn(replies: seq<LimitReply>, nows: seq<int>, t: int, w: int): set<nat>
    requires |replies| == |nows|
  {
    set i: nat | i < |nows| && t - w < UnixMilli(nows[i]) <= t && replies[i].allowed
  }

  /** However a span of `window` milliseconds is placed, the calls of a run on
      a fresh key that were allowed inside it are at most `limit`. */
  lemma SlidingAllowedBound(dbs: seq<Db>, replies: seq<LimitReply>, key: string, limit: int, window: int,
                            nows: seq<int>, stamps: seq<int>, t: int)
    requires Clocks(nows, stamps) && WindowOk(window)
    requires SlidingRun(dbs, replies, key, limit, window, nows, stamps) && SlidingKey(key) !in dbs[0].entries
    ensures |AllowedIn(replies, nows, t, window / NsPerMs)| <= Max0(limit)
  {
    var w := window / NsPerMs;
    var a := AllowedIn(replies, nows, t, w);
    if a != {} {
      var m := MaxOf(a);
      SlidingCallCount(dbs, replies, key, limit, window, nows, stamps, m);
      var calls := WindowCalls(nows, m, w);
      forall i | i in a
        ensures i in calls
      {
        UnixMilliMonotone(nows[i], nows[m]);
      }
      SubsetCard(a, calls);
    }
  }

  // ---- a worked run ----

  /** Limit 3, window 10 s, calls at 0, 2, 4, 5 and 11 s. */
  function Nows(): seq<int> {
    [0, 2_000_000_000, 4_000_000_000, 5_000_000_000, 11_000_000_000]
  }

  /** The windows of 10 s hold 1, 2, 3, 4 and again 4 calls: the one at 0 s
      has left the last window, the denied one at 5 s has not. */
  lemma WorkedRunWindows()
    ensures |WindowCalls(Nows(), 0, 10_000)| == 1 && |WindowCalls(Nows(), 1, 10_000)| == 2
    ensures |WindowCalls(Nows(), 2, 10_000)| == 3 && |WindowCalls(Nows(), 3, 10_000)| == 4
    ensures |WindowCalls(Nows(), 4, 10_000)| == 4
  {
    var nows := Nows();
    assert WindowCalls(nows, 0, 10_000) == {0};
    assert WindowCalls(nows, 1, 10_000) == {0, 1};
    assert WindowCalls(nows, 2, 10_000) == {0, 1, 2};
    assert WindowCalls(nows, 3, 10_000) == {0, 1, 2, 3};
    assert WindowCalls(nows, 4, 10_000) == {1, 2, 3, 4};
  }

  /** The first three calls are allowed; the fourth is denied, and so is the
      fifth, because the denied call at 5 s is still in its window with
      those at 2 s and 4 s. */
  lemma DeniedCallsKeepBlocking(dbs: seq<Db>, replies: seq<LimitReply>, key: string)
    requires SlidingRun(dbs, replies, key, 3, 10_000_000_000, Nows(), [0, 1, 2, 3, 4])
    requires SlidingKey(key) !in dbs[0].entries
    ensures [replies[0].allowed, replies[1].allowed, replies[2].allowed, replies[3].allowed, replies[4].allowed]
      == [true, true, true, false, false]
    ensures replies[2].remaining == 0 && replies[4].remaining == 0
  {
    var nows, stamps := Nows(), [0, 1, 2, 3, 4];
    assert Clocks(nows, stamps);
    assert 10_000_000_000 / NsPerMs == 10_000;
    WorkedRunWindows();
    SlidingCallCount(dbs, replies, key, 3, 10_000_000_000, nows, stamps, 0);
    SlidingCallCount(dbs, replies, key, 3, 10_000_000_000, nows, stamps, 1);
    SlidingCallCount(dbs, replies, key, 3, 10_000_000_000, nows, stamps, 2);
    SlidingCallCount(dbs, replies, key, 3, 10_000_000_000, nows, stamps, 3);
    SlidingCallCount(dbs, replies, key, 3, 10_000_000_000, nows, stamps, 4);
  }
}
