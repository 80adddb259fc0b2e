/**
  The backing key-value store as the cache layer drives it: one key space
  whose values are strings or sorted sets, each key with an optional
  absolute expiry in milliseconds on the server's clock. Every command is
  a pure function from the key space before the command to the key space
  after it and the command's reply; the cache client applies them one
  transaction at a time.

  Expiry follows the server's rules: a key is live while the clock has not
  passed its expiry, an expired key reads as absent and is replaced by a
  write, and setting an expiry that is not in the future deletes the key.
*/
module RedisServer {
  import opened Wrappers
  import opened Text
  import opened GoInt

  /** A string value (counters are decimal strings) or a sorted set from member to score. */
  datatype Value = Str(s: string) | ZSet(scores: map<string, int>)

  datatype Entry = Entry(value: Value, expireAt: Option<int>)

  /** The key space. */
  datatype Db = Db(entries: map<string, Entry>)

  /** A reply error: a value of the wrong kind, a string that is no integer,
      an increment past 64 bits, an expiry argument the server refuses, a
      command without its arguments, or a round trip that never reached the
      server. */
  datatype Error = WrongType | NotAnInteger | Overflow | InvalidExpire | WrongArity | Unreachable

  predicate Distinct(s: seq<string>) {
    forall i, j :: 0 <= i < j < |s| ==> s[i] != s[j]
  }

  function EmptyDb(): (db: Db)
    ensures db.entries == map[]
  {
    Db(map[])
  }

  predicate Live(e: Entry, nowMs: int) {
    e.expireAt.None? || nowMs <= e.expireAt.value
  }

  /** The entry a command sees at `k`: none if absent or expired. */
  function LiveEntry(db: Db, k: string, nowMs: int): (r: Option<Entry>)
    ensures r.Some? <==> k in db.entries && Live(db.entries[k], nowMs)
    ensures r.Some? ==> r.value == db.entries[k]
  {
    if k in db.entries && Live(db.entries[k], nowMs) then Some(db.entries[k]) else None
  }

  function Lookup(db: Db, k: string, nowMs: int): (r: Option<Value>)
    ensures r.Some? <==> LiveEntry(db, k, nowMs).Some?
    ensures r.Some? ==> r.value == db.entries[k].value
  {
    match LiveEntry(db, k, nowMs)
    case None => None
    case Some(e) => Some(e.value)
  }

  /** Writes `e` at `k`. */
  function Put(db: Db, k: string, e: Entry): (r: Db)
    ensures r.entries == db.entries[k := e]
  {
    Db(db.entries[k := e])
  }

  /** Deletes `k`. */
  function Remove(db: Db, k: string): (r: Db)
    ensures r.entries == db.entries - {k}
  {
    Db(db.entries - {k})
  }

  // ---- string commands ----

  /** GET: the string at `k`, none when absent, an error on a sorted set. */
  function GetCmd(db: Db, k: string, nowMs: int): (r: Result<Option<string>, Error>)
    ensures r == Ok(None) <==> Lookup(db, k, nowMs).None?
    ensures r.Ok? && r.value.Some? <==> Lookup(db, k, nowMs).Some? && Lookup(db, k, nowMs).value.Str?
    ensures r.Ok? && r.value.Some? ==> Lookup(db, k, nowMs) == Some(Str(r.value.value))
  {
    match Lookup(db, k, nowMs)
    case None => Ok(None)
    case Some(Str(s)) => Ok(Some(s))
    case Some(ZSet(_)) => Err(WrongType)
  }

  /** The server's integer reading of a string: canonical decimal within 64 bits. */
  function ParseInt64(s: string): (r: Option<int>)
    ensures r.Some? ==> Int64Min <= r.value <= Int64Max && s == IntToString(r.value)
  {
    match ParseCanonicalInt(s)
    case Some(v) =>
      ParseCanonicalIntIsRendering(s, v);
      if Int64Min <= v <= Int64Max then Some(v) else None
    case None => None
  }

  lemma ParseInt64Rendering(n: int)
    requires Int64Min <= n <= Int64Max
    ensures ParseInt64(IntToString(n)) == Some(n)
  {
    IntToStringRoundTrip(n);
  }

  /** INCRBY: adds `n` to the integer at `k` (absent reads as 0), keeping the key's expiry. */
  function IncrByCmd(db: Db, k: string, n: int, nowMs: int): (r: (Db, Result<int, Error>))
    ensures r.1.Err? ==> r.0 == db
    ensures r.1.Ok? ==> Int64Min <= r.1.value <= Int64Max
    ensures r.1.Ok? ==> r.0.entries == db.entries[k := Entry(Str(IntToString(r.1.value)),
                                          if LiveEntry(db, k, nowMs).Some? then db.entries[k].expireAt else None)]
  {
    var cur: Result<int, Error> :=
      match Lookup(db, k, nowMs)
      case None => Ok(0)
      case Some(ZSet(_)) => Err(WrongType)
      case Some(Str(s)) =>
        match ParseInt64(s)
        case None => Err(NotAnInteger)
        case Some(v) => Ok(v);
    match cur
    case Err(e) => (db, Err(e))
    case Ok(v) =>
      var sum := v + n;
      if sum < Int64Min || sum > Int64Max then (db, Err(Overflow))
      else
        var keep := match LiveEntry(db, k, nowMs) case Some(e) => e.expireAt case None => None;
        (Put(db, k, Entry(Str(IntToString(sum)), keep)), Ok(sum))
  }

  /** SET key value NX [PX ttl]: writes only when `k` is absent or expired; a
      non-positive PX is refused before anything else. */
  function SetNxCmd(db: Db, k: string, v: string, pxMs: Option<int>, nowMs: int): (r: (Db, Result<bool, Error>))
    ensures pxMs.Some? && pxMs.value <= 0 ==> r == (db, Err(InvalidExpire))
    ensures !(pxMs.Some? && pxMs.value <= 0) ==> r.1.Ok?
    ensures r.1 == Ok(true) <==> !(pxMs.Some? && pxMs.value <= 0) && Lookup(db, k, nowMs).None?
    ensures r.1 == Ok(true) ==> r.0.entries == db.entries[k := Entry(Str(v), if pxMs.Some? then Some(nowMs + pxMs.value) else None)]
    ensures r.1 != Ok(true) ==> r.0 == db
  {
    if pxMs.Some? && pxMs.value <= 0 then (db, Err(InvalidExpire))
    else if Lookup(db, k, nowMs).Some? then (db, Ok(false))
    else (Put(db, k, Entry(Str(v), if pxMs.Some? then Some(nowMs + pxMs.value) else None)), Ok(true))
  }

  /** EXPIREAT in milliseconds: on a live key, deletes it when `whenMs` is not in
      the future and otherwise sets its expiry; replies whether the key was live. */
  function ExpireAtCmd(db: Db, k: string, whenMs: int, nowMs: int): (r: (Db, bool))
    ensures r.1 <==> Lookup(db, k, nowMs).Some?
    ensures !r.1 ==> r.0 == db
    ensures r.1 && whenMs <= nowMs ==> r.0.entries == db.entries - {k}
    ensures r.1 && whenMs > nowMs ==> r.0.entries == db.entries[k := Entry(db.entries[k].value, Some(whenMs))]
  {
    match LiveEntry(db, k, nowMs)
    case None => (db, false)
    case Some(e) =>
      if whenMs <= nowMs then (Remove(db, k), true)
      else (Put(db, k, Entry(e.value, Some(whenMs))), true)
  }

  /** DEL k1 k2 …: removes every listed key and counts those that were live. */
  function LiveKeys(db: Db, keys: seq<string>, nowMs: int): (r: set<string>)
    ensures forall k :: k in r <==> k in keys && LiveEntry(db, k, nowMs).Some?
  {
    set k | k in keys && Lookup(db, k, nowMs).Some?
  }

  function DelCmd(db: Db, keys: seq<string>, nowMs: int): (r: (Db, nat))
    ensures r.0.entries == db.entries - (set k | k in keys)
    ensures r.1 == |LiveKeys(db, keys, nowMs)|
    decreases |keys|
  {
    if keys == [] then (db, 0)
    else
      var k0 := keys[0];
      var d1 := Remove(db, k0);
      var rest := DelCmd(d1, keys[1..], nowMs);
      var hit := if Lookup(db, k0, nowMs).Some? then 1 else 0;
      LiveKeysCons(db, keys, nowMs);
      MapMinusUnion(db.entries, {k0}, set k | k in keys[1..]);
      (rest.0, rest.1 + hit)
  }

  lemma MapMinusUnion(m: map<string, Entry>, a: set<string>, b: set<string>)
    ensures (m - a) - b == m - (a + b)
  {
  }

  lemma LiveKeysCons(db: Db, keys: seq<string>, nowMs: int)
    requires keys != []
    ensures var d1 := Remove(db, keys[0]);
      && LiveKeys(db, keys, nowMs) == (if Lookup(db, keys[0], nowMs).Some? then {keys[0]} else {}) + LiveKeys(d1, keys[1..], nowMs)
      && keys[0] !in LiveKeys(d1, keys[1..], nowMs)
      && (set k | k in keys) == {keys[0]} + (set k | k in keys[1..])
  {
    var d1 := Remove(db, keys[0]);
    forall x | x in keys[1..] && x != keys[0]
      ensures Lookup(d1, x, nowMs) == Lookup(db, x, nowMs)
    {
    }
    assert forall x :: x in keys <==> x == keys[0] || x in keys[1..];
  }

  // ---- sorted-set commands ----

  /** ZADD: sets `member`'s score, creating the set if `k` is absent. */
  function ZAddCmd(db: Db, k: string, member: string, score: int, nowMs: int): (r: (Db, Result<(), Error>))
    ensures r.1.Err? <==> Lookup(db, k, nowMs).Some? && Lookup(db, k, nowMs).value.Str?
    ensures r.1.Err? ==> r.0 == db
    ensures r.1.Ok? && Lookup(db, k, nowMs).None? ==> r.0.entries == db.entries[k := Entry(ZSet(map[member := score]), None)]
    ensures r.1.Ok? && Lookup(db, k, nowMs).Some? ==>
      r.0.entries == db.entries[k := Entry(ZSet(db.entries[k].value.scores[member := score]), db.entries[k].expireAt)]
  {
    match LiveEntry(db, k, nowMs)
    case None => (Put(db, k, Entry(ZSet(map[member := score]), None)), Ok(()))
    case Some(Entry(Str(_), _)) => (db, Err(WrongType))
    case Some(Entry(ZSet(m), exp)) => (Put(db, k, Entry(ZSet(m[member := score]), exp)), Ok(()))
  }

  /** The members whose score lies outside [lo, hi]. */
  function OutsideRange(m: map<string, int>, lo: int, hi: int): (r: map<string, int>)
  {
    map x | x in m && !(lo <= m[x] <= hi) :: m[x]
  }

  /** ZREMRANGEBYSCORE with inclusive bounds; a set left empty is deleted. */
  function ZRemRangeByScoreCmd(db: Db, k: string, lo: int, hi: int, nowMs: int): (r: (Db, Result<(), Error>))
    ensures r.1.Err? <==> Lookup(db, k, nowMs).Some? && Lookup(db, k, nowMs).value.Str?
    ensures r.1.Err? || Lookup(db, k, nowMs).None? ==> r.0 == db
    ensures r.1.Ok? && Lookup(db, k, nowMs).Some? ==>
      var rest := OutsideRange(db.entries[k].value.scores, lo, hi);
      r.0.entries == if rest == map[] then db.entries - {k} else db.entries[k := Entry(ZSet(rest), db.entries[k].expireAt)]
  {
    match LiveEntry(db, k, nowMs)
    case None => (db, Ok(()))
    case Some(Entry(Str(_), _)) => (db, Err(WrongType))
    case Some(Entry(ZSet(m), exp)) =>
      var rest := OutsideRange(m, lo, hi);
      if rest == map[] then (Remove(db, k), Ok(())) else (Put(db, k, Entry(ZSet(rest), exp)), Ok(()))
  }

  /** ZCARD: the number of members, 0 when `k` is absent. */
  function ZCardCmd(db: Db, k: string, nowMs: int): (r: Result<nat, Error>)
    ensures r.Err? <==> Lookup(db, k, nowMs).Some? && Lookup(db, k, nowMs).value.Str?
    ensures Lookup(db, k, nowMs).None? ==> r == Ok(0)
    ensures Lookup(db, k, nowMs).Some? && Lookup(db, k, nowMs).value.ZSet? ==> r == Ok(|db.entries[k].value.scores|)
  {
    match Lookup(db, k, nowMs)
    case None => Ok(0)
    case Some(Str(_)) => Err(WrongType)
    case Some(ZSet(m)) => Ok(|m|)
  }

  // ---- scripting ----

  /** The unlock script: deletes `k` and replies 1 when it holds exactly `token`,
      replies 0 otherwise; reading a sorted set aborts the script with an error. */
  function UnlockScript(db: Db, k: string, token: string, nowMs: int): (r: (Db, Result<int, Error>))
    ensures r.1 == Ok(1) <==> Lookup(db, k, nowMs) == Some(Str(token))
    ensures r.1 == Ok(1) ==> r.0.entries == db.entries - {k}
    ensures r.1 != Ok(1) ==> r.0 == db && (r.1 == Ok(0) || r.1 == Err(WrongType))
  {
    match Lookup(db, k, nowMs)
    case None => (db, Ok(0))
    case Some(ZSet(_)) => (db, Err(WrongType))
    case Some(Str(s)) =>
      if s == token then
        var (d, n) := DelCmd(db, [k], nowMs);
        assert LiveKeys(db, [k], nowMs) == {k};
        assert (set x | x in [k]) == {k};
        (d, Ok(n as int))
      else (db, Ok(0))
  }

  // ---- cursor scan ----

  /** The live keys starting with `prefix`, in the order given. */
  function Matching(db: Db, keys: seq<string>, prefix: string, nowMs: int): (r: seq<string>)
    ensures |r| <= |keys|
  {
    if keys == [] then []
    else (if HasPrefix(keys[0], prefix) && Lookup(db, keys[0], nowMs).Some? then [keys[0]] else [])
         + Matching(db, keys[1..], prefix, nowMs)
  }

  /** What a filtered run holds: exactly the live prefixed keys of the run,
      and each once when the run has no repeats. */
  lemma {:induction false} MatchingMembers(db: Db, keys: seq<string>, prefix: string, nowMs: int)
    ensures forall x :: x in Matching(db, keys, prefix, nowMs) <==> x in keys && HasPrefix(x, prefix) && Lookup(db, x, nowMs).Some?
    ensures Distinct(keys) ==> Distinct(Matching(db, keys, prefix, nowMs))
  {
    if keys != [] {
      MatchingMembers(db, keys[1..], prefix, nowMs);
      assert forall x :: x in keys <==> x == keys[0] || x in keys[1..];
      assert Distinct(keys) ==> keys[0] !in keys[1..];
    }
  }

  lemma {:induction false} MatchingAppend(db: Db, a: seq<string>, b: seq<string>, prefix: string, nowMs: int)
    ensures Matching(db, a + b, prefix, nowMs) == Matching(db, a, prefix, nowMs) + Matching(db, b, prefix, nowMs)
  {
    if a == [] {
      assert a + b == b;
    } else {
      var h := if HasPrefix(a[0], prefix) && Lookup(db, a[0], nowMs).Some? then [a[0]] else [];
      assert (a + b)[0] == a[0] && (a + b)[1..] == a[1..] + b;
      assert Matching(db, a + b, prefix, nowMs) == h + Matching(db, a[1..] + b, prefix, nowMs);
      assert Matching(db, a, prefix, nowMs) == h + Matching(db, a[1..], prefix, nowMs);
      MatchingAppend(db, a[1..], b, prefix, nowMs);
    }
  }

  /** Where a scan step starting at `cursor` stops examining the scan order. */
  function ScanEnd(size: nat, cursor: nat, count: nat): (r: nat)
    requires cursor <= size && count > 0
    ensures cursor < r <= size || r == cursor == size
    ensures r == size || r == cursor + count
  {
    if cursor + count < size then cursor + count else size
  }

  /** SCAN cursor MATCH prefix* COUNT count over the store's slot order
      `order`: examines the next `count` slots and returns the matching live
      keys among them, with the cursor to continue from (0 once the whole
      order has been examined); a cursor past the end examines nothing. */
  function ScanCmd(db: Db, order: seq<string>, cursor: nat, prefix: string, count: nat, nowMs: int): (r: (seq<string>, nat))
    requires count > 0
    ensures cursor <= |order| ==>
      var end := ScanEnd(|order|, cursor, count);
      r == (Matching(db, order[cursor..end], prefix, nowMs), if end == |order| then 0 else end)
    ensures cursor > |order| ==> r == ([], 0)
  {
    if cursor > |order| then ([], 0)
    else
      var end := ScanEnd(|order|, cursor, count);
      (Matching(db, order[cursor..end], prefix, nowMs), if end == |order| then 0 else end)
  }
}
