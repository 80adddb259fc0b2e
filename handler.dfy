/**
  The update handler: the rate-limit gate in front of every update, then
  the rendering of the update for the debug log and the persistence of its
  sender and of the message.

  The limiter's clock readings, the fresh object IDs, the encoder's output
  and the repositories' clock readings are parameters. What the handler
  logs and sends is returned, in order, as `effects`; a log record keeps the
  level and the message's leading text, not the formatted arguments.
*/
module Handler {
  import opened Wrappers
  import opened Text
  import opened GoInt
  import opened GoTime
  import opened RedisServer
  import opened Cache
  import opened CacheProps
  import opened Telegram
  import opened Bson
  import opened Entities
  import opened Repo
  import opened UserRepo
  import opened MessageRepo
  import opened RepoList
  import Utils
  import Logx

  datatype LimiterType = FixedWindowLimiter | SlidingWindowLimiter | OtherLimiter(name: string)

  /** The rate-limit settings the handler reads. */
  datatype RedisCfg = RedisCfg(rateLimitMessages: int, rateLimitMs: int, rateLimitType: LimiterType)

  datatype Effect = Logged(level: int, event: string) | Sent(chatId: int, text: string)

  const BanText: string := "You are banned."

  /** The limiter key of a sender. */
  function LimiterKey(fromId: int): (r: string)
    ensures HasPrefix(r, "rl:user:") && HasSuffix(r, ":msg")
  {
    "rl:user:" + IntToString(fromId) + ":msg"
  }

  /** The window: `rateLimitMs` milliseconds as a 64-bit duration, and one
      minute when that is not positive. */
  function RateWindow(rateLimitMs: int): (w: int)
    ensures w > 0
    ensures 0 < rateLimitMs * NsPerMs <= Int64Max ==> w == rateLimitMs * NsPerMs
    ensures Int64Min <= rateLimitMs * NsPerMs <= 0 ==> w == NsPerMinute
  {
    var w := Wrap64(rateLimitMs * NsPerMs);
    if w <= 0 then NsPerMinute else w
  }

  /** What the gate lets through: the update, nothing after a limiter error,
      nothing but the ban reply after a denial. */
  datatype GateResult = Proceed | LimiterFailed(e: Error) | Banned

  /** The gate's reading of a limiter reply: the error first, then the verdict. */
  function Decide(reply: LimitReply): (g: GateResult)
    ensures g.LimiterFailed? <==> reply.err.Some?
    ensures g.LimiterFailed? ==> g.e == reply.err.value
    ensures g == Banned <==> reply.err.None? && !reply.allowed
    ensures g == Proceed <==> reply.err.None? && reply.allowed
  {
    if reply.err.Some? then LimiterFailed(reply.err.value)
    else if !reply.allowed then Banned
    else Proceed
  }

  /** The gate, as one step on the store: skipped without a cache or without
      a positive limit; an unknown limiter type allows without a round trip. */
  function Gate(hasCache: bool, cfg: RedisCfg, db: Db, up: bool, fromId: int, now: int, stamp: int): (r: (Db, GateResult))
    ensures !hasCache || cfg.rateLimitMessages <= 0 || cfg.rateLimitType.OtherLimiter? ==> r == (db, Proceed)
    ensures hasCache && cfg.rateLimitMessages > 0 && cfg.rateLimitType == FixedWindowLimiter ==>
      var s := FixedWindowStep(db, up, LimiterKey(fromId), cfg.rateLimitMessages, RateWindow(cfg.rateLimitMs), now);
      r == (s.0, Decide(s.1))
    ensures hasCache && cfg.rateLimitMessages > 0 && cfg.rateLimitType == SlidingWindowLimiter ==>
      var s := SlidingWindowStep(db, up, LimiterKey(fromId), cfg.rateLimitMessages, RateWindow(cfg.rateLimitMs), now, stamp);
      r == (s.0, Decide(s.1))
  {
    if !hasCache || cfg.rateLimitMessages <= 0 then (db, Proceed)
    else
      var key, limit, window := LimiterKey(fromId), cfg.rateLimitMessages, RateWindow(cfg.rateLimitMs);
      match cfg.rateLimitType
      case FixedWindowLimiter =>
        var (d, reply) := FixedWindowStep(db, up, key, limit, window, now);
        (d, Decide(reply))
      case SlidingWindowLimiter =>
        var (d, reply) := SlidingWindowStep(db, up, key, limit, window, now, stamp);
        (d, Decide(reply))
      case OtherLimiter(_) => (db, Proceed)
  }

  /** An unreachable store stops every update the gate consults it for. */
  lemma UnreachableStoreStops(cfg: RedisCfg, db: Db, fromId: int, now: int, stamp: int)
    requires cfg.rateLimitMessages > 0 && !cfg.rateLimitType.OtherLimiter?
    ensures Gate(true, cfg, db, false, fromId, now, stamp) == (db, LimiterFailed(Unreachable))
  {
  }

  /** The stored keys carry the limiter's own prefix in front of the handler's. */
  lemma GateKeys(fromId: int, windowStart: int)
    ensures FixedWindowKey(LimiterKey(fromId), windowStart)
      == "rl:rl:user:" + IntToString(fromId) + ":msg:" + IntToString(UnixSeconds(windowStart))
    ensures SlidingKey(LimiterKey(fromId)) == "rl:sw:rl:user:" + IntToString(fromId) + ":msg"
  {
    var id, secs := IntToString(fromId), IntToString(UnixSeconds(windowStart));
    assert "rl:" + "rl:user:" == "rl:rl:user:" && "rl:sw:" + "rl:user:" == "rl:sw:rl:user:";
    assert ":msg" + ":" == ":msg:";
    assert FixedWindowKey(LimiterKey(fromId), windowStart) == "rl:" + ("rl:user:" + id + ":msg") + ":" + secs;
    assert SlidingKey(LimiterKey(fromId)) == "rl:sw:" + ("rl:user:" + id + ":msg");
  }

  /** The gate's decisions for successive updates of one sender at the instants `nows`. */
  function RunGate(db: Db, cfg: RedisCfg, fromId: int, nows: seq<int>): (r: (Db, seq<GateResult>))
    ensures |r.1| == |nows|
    decreases |nows|
  {
    if nows == [] then (db, [])
    else
      var (d1, g) := Gate(true, cfg, db, true, fromId, nows[0], 0);
      var (d2, gs) := RunGate(d1, cfg, fromId, nows[1..]);
      (d2, [g] + gs)
  }

  /** The gate with the fixed-window limiter decides as the limiter answers. */
  lemma {:induction false} RunGateFixed(db: Db, cfg: RedisCfg, fromId: int, nows: seq<int>)
    requires cfg.rateLimitMessages > 0 && cfg.rateLimitType == FixedWindowLimiter
    ensures var replies := RunFixed(db, LimiterKey(fromId), cfg.rateLimitMessages, RateWindow(cfg.rateLimitMs), nows).1;
      forall i :: 0 <= i < |nows| ==> RunGate(db, cfg, fromId, nows).1[i] == Decide(replies[i])
    decreases |nows|
  {
    if nows != [] {
      var d1 := FixedWindowStep(db, true, LimiterKey(fromId), cfg.rateLimitMessages, RateWindow(cfg.rateLimitMs), nows[0]).0;
      RunGateFixed(d1, cfg, fromId, nows[1..]);
    }
  }

  /** With the fixed-window limiter and the default one-minute window, a
      sender's updates inside one minute pass while they are among its first
      `limit`, and every later one is banned. */
  lemma GateBansOverBudget(db: Db, cfg: RedisCfg, fromId: int, nows: seq<int>)
    requires cfg.rateLimitMessages > 0 && cfg.rateLimitType == FixedWindowLimiter
    requires Int64Min <= cfg.rateLimitMs * NsPerMs <= 0
    requires nows != [] && |nows| <= Int64Max
    requires forall i :: 0 <= i < |nows| ==> Truncate(nows[i], NsPerMinute) == Truncate(nows[0], NsPerMinute)
    requires FixedWindowKey(LimiterKey(fromId), Truncate(nows[0], NsPerMinute)) !in db.entries
    ensures forall i :: 0 <= i < |nows| ==>
      RunGate(db, cfg, fromId, nows).1[i] == (if i < cfg.rateLimitMessages then Proceed else Banned)
  {
    FixedWindowBudget(db, LimiterKey(fromId), cfg.rateLimitMessages, NsPerMinute, nows);
    RunGateFixed(db, cfg, fromId, nows);
  }

  /** What an update that got through logs: the rendered update, each step's
      error when it failed, and each step's ID. */
  function PersistEffects(userFailed: bool, messageFailed: bool): (effects: seq<Effect>)
    ensures |effects| == 3 + (if userFailed then 1 else 0) + (if messageFailed then 1 else 0)
    ensures effects[0] == Logged(Logx.Debug, "update")
    ensures Logged(Logx.Error, "upsert user") in effects <==> userFailed
    ensures Logged(Logx.Error, "create message") in effects <==> messageFailed
  {
    [Logged(Logx.Debug, "update")]
    + (if userFailed then [Logged(Logx.Error, "upsert user")] else [])
    + [Logged(Logx.Debug, "upsert user id")]
    + (if messageFailed then [Logged(Logx.Error, "create message")] else [])
    + [Logged(Logx.Debug, "created message id")]
  }

  /** The gate as the handler runs it: the limiter chosen by type, its
      error checked before its verdict. */
  method CheckRate(cfg: RedisCfg, cache: CacheClient?, fromId: int, now: int, stamp: int) returns (g: GateResult)
    modifies cache
    ensures var r := Gate(cache != null, cfg, if cache == null then EmptyDb() else old(cache.db),
                          cache != null && old(cache.reachable), fromId, now, stamp);
      && g == r.1
      && (cache != null ==> cache.db == r.0 && cache.reachable == old(cache.reachable))
  {
    if cache == null || cfg.rateLimitMessages <= 0 {
      return Proceed;
    }
    var key := LimiterKey(fromId);
    var limit := cfg.rateLimitMessages;
    var window := Wrap64(cfg.rateLimitMs * NsPerMs);
    if window <= 0 {
      window := NsPerMinute;
    }
    var allowed := true;
    var err: Option<Error> := None;
    match cfg.rateLimitType {
      case FixedWindowLimiter =>
        var remaining, resetAt;
        allowed, remaining, resetAt, err := cache.RateLimitFixedWindow(key, limit, window, now);
      case SlidingWindowLimiter =>
        var remaining, resetAt;
        allowed, remaining, resetAt, err := cache.RateLimitSlidingWindow(key, limit, window, now, stamp);
      case OtherLimiter(_) =>
        allowed := true;
    }
    if err.Some? {
      return LimiterFailed(err.value);
    }
    if !allowed {
      return Banned;
    }
    return Proceed;
  }

  /** Upserting the sender `from` with fresh ID `userId` at `userNow`, after
      the operations `before`: the operations sent by then, and whether the
      upsert failed. */
  function SenderUpsert(col: Server, before: seq<Op>, from: User, userId: ObjectId, userNow: int): (r: (seq<Op>, bool))
    ensures |before| < |r.0| <= |before| + 2 && r.0[..|before|] == before
    ensures r.0[|before|].UpdateOneOp? && r.0[|before|].upsert
  {
    var f, up := TelegramIdFilter(from.id), UpsertUpdate(EntityDoc(NilObjectId, UserFields(from), ZeroTime, ZeroTime), userId, userNow);
    var h := before + [UpdateOneOp(f, up, true)];
    var r := col.updateOne(before, f, up, true);
    (if NeedsLookup(r) then h + [FindOneOp(f, IdProjection)] else h,
     UpsertOutcome(r, col.findOne(h, f, IdProjection)).2.Some?)
  }

  /** Creating the message `msg` with fresh ID `messageId` at `messageNow`,
      after the operations `before`: the operations sent by then, and
      whether the insert failed. */
  function MessageInsert(col: Server, before: seq<Op>, msg: Message, messageId: ObjectId, messageNow: int): (r: (seq<Op>, bool))
    ensures r.0 == before + [InsertOneOp(EntityDoc(messageId, MessageFields(msg), messageNow, messageNow))]
  {
    var doc := EntityDoc(messageId, MessageFields(msg), messageNow, messageNow);
    (before + [InsertOneOp(doc)], InsertOutcome(col.insertOne(before, doc)).1.Some?)
  }

  method UpsertSender(users: UserRepository, from: User, userId: ObjectId, userNow: int) returns (failed: bool)
    modifies users.col
    ensures (users.col.sent, failed) == SenderUpsert(users.col.server, old(users.col.sent), from, userId, userNow)
  {
    var u := new UserEntity(from);
    var created, uid, uerr := users.UpsertByTelegramID(u, userId, userNow);
    failed := uerr.Some?;
  }

  method CreateMessage(messages: MessageRepository, msg: Message, messageId: ObjectId, messageNow: int) returns (failed: bool)
    requires messageId != NilObjectId && messageNow != ZeroTime
    modifies messages.col
    ensures (messages.col.sent, failed) == MessageInsert(messages.col.server, old(messages.col.sent), msg, messageId, messageNow)
  {
    var m := new MessageEntity(msg);
    var mid, merr := messages.Create(m, messageId, messageNow);
    failed := merr.Some?;
  }

  /** Upserts the sender, then creates the message; a failure of either is
      logged and does not stop the other. */
  method Persist(repositoryList: RepositoryList, msg: Message, from: User,
                 userId: ObjectId, userNow: int, messageId: ObjectId, messageNow: int)
    returns (effects: seq<Effect>)
    requires messageId != NilObjectId && messageNow != ZeroTime
    requires repositoryList.userRepository.col != repositoryList.messageRepository.col
    modifies repositoryList.userRepository.col, repositoryList.messageRepository.col
    ensures var ucol, mcol := repositoryList.userRepository.col, repositoryList.messageRepository.col;
      var su := SenderUpsert(ucol.server, old(ucol.sent), from, userId, userNow);
      var mi := MessageInsert(mcol.server, old(mcol.sent), msg, messageId, messageNow);
      ucol.sent == su.0 && mcol.sent == mi.0 && effects == PersistEffects(su.1, mi.1)
  {
    var ucol, mcol := repositoryList.userRepository.col, repositoryList.messageRepository.col;
    var uf := UpsertSender(repositoryList.userRepository, from, userId, userNow);
    ghost var usent := ucol.sent;
    var mf := CreateMessage(repositoryList.messageRepository, msg, messageId, messageNow);
    assert ucol.sent == usent;
    var userLog := if uf then [Logged(Logx.Error, "upsert user")] else [];
    var messageLog := if mf then [Logged(Logx.Error, "create message")] else [];
    effects := [Logged(Logx.Debug, "update")] + userLog + [Logged(Logx.Debug, "upsert user id")]
      + messageLog + [Logged(Logx.Debug, "created message id")];
  }

  /** The handler for one update. `now` and `stamp` are the limiter's clock
      readings, `encoded` the encoder's output for the update, `userId` and
      `userNow` the upsert's fresh ID and clock, `messageId` and `messageNow`
      the insert's. The update must carry a message with a sender: both are
      dereferenced unchecked. */
  method Handle(cfg: RedisCfg, repositoryList: RepositoryList, cache: CacheClient?, update: Update,
                now: int, stamp: int, encoded: Result<seq<Utils.Byte>, string>,
                userId: ObjectId, userNow: int, messageId: ObjectId, messageNow: int)
    returns (effects: seq<Effect>)
    requires update.message.Some? && update.message.value.from.Some?
    requires messageId != NilObjectId && messageNow != ZeroTime
    requires repositoryList.userRepository.col != repositoryList.messageRepository.col
    modifies cache, repositoryList.userRepository.col, repositoryList.messageRepository.col
    ensures var ucol, mcol := repositoryList.userRepository.col, repositoryList.messageRepository.col;
      var msg := update.message.value;
      var from := msg.from.value;
      var g := Gate(cache != null, cfg, if cache == null then EmptyDb() else old(cache.db),
                    cache != null && old(cache.reachable), from.id, now, stamp);
      && (cache != null ==> cache.db == g.0 && cache.reachable == old(cache.reachable))
      && (g.1.LimiterFailed? ==>
            effects == [Logged(Logx.Error, "rate-limit error")] && ucol.sent == old(ucol.sent) && mcol.sent == old(mcol.sent))
      && (g.1 == Banned ==>
            effects == [Sent(msg.chat.id, BanText)] && ucol.sent == old(ucol.sent) && mcol.sent == old(mcol.sent))
      && (g.1 == Proceed && encoded.Err? ==>
            effects == [Logged(Logx.Error, "marshal update")] && ucol.sent == old(ucol.sent) && mcol.sent == old(mcol.sent))
      && (g.1 == Proceed && encoded.Ok? ==>
            var su := SenderUpsert(ucol.server, old(ucol.sent), from, userId, userNow);
            var mi := MessageInsert(mcol.server, old(mcol.sent), msg, messageId, messageNow);
            ucol.sent == su.0 && mcol.sent == mi.0 && effects == PersistEffects(su.1, mi.1))
  {
    var msg := update.message.value;
    var from := msg.from.value;
    var g := CheckRate(cfg, cache, from.id, now, stamp);
    if g.LimiterFailed? {
      return [Logged(Logx.Error, "rate-limit error")];
    }
    if g == Banned {
      return [Sent(msg.chat.id, BanText)];
    }
    var json := Utils.JSON(encoded);
    if json.Err? {
      return [Logged(Logx.Error, "marshal update")];
    }
    effects := Persist(repositoryList, msg, from, userId, userNow, messageId, messageNow);
  }
}
