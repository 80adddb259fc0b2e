/**
  The message repository: create, upsert keyed on chat and message ID,
  lookups, partial update, delete and the paginated list, each as the
  operations it sends to the `messages` collection and the reading of the
  replies. The fresh object ID and the clock are parameters.
*/
module MessageRepo {
  import opened Wrappers
  import opened GoInt
  import opened GoTime
  import opened Bson
  import opened Telegram
  import opened Entities
  import opened Repo

  datatype MessageListOptions = MessageListOptions(
    page: int, perPage: int, chatId: Option<int>, fromId: Option<int>,
    dateFrom: Option<int>, dateTo: Option<int>, textLike: Option<string>)

  /** The date bounds: `$gte` from the lower bound, `$lt` from the (exclusive) upper one. */
  function DateRange(from: Option<int>, to: Option<int>): (r: Doc)
    ensures "$gte" in r <==> from.Some?
    ensures "$lt" in r <==> to.Some?
    ensures "$gte" in r ==> r["$gte"] == Int(from.value)
    ensures "$lt" in r ==> r["$lt"] == Int(to.value)
    ensures r.Keys <= {"$gte", "$lt"}
  {
    var lo: Doc := if from.Some? then map["$gte" := Int(from.value)] else map[];
    if to.Some? then lo["$lt" := Int(to.value)] else lo
  }

  /** The filter of `List`: one condition per option that is set, a date
      range when either bound is set, and a text pattern when it is not empty. */
  function MessageFilter(opt: MessageListOptions): (f: Doc)
    ensures f.Keys <= {"chat.id", "from.id", "date", "text"}
    ensures "chat.id" in f <==> opt.chatId.Some?
    ensures "chat.id" in f ==> f["chat.id"] == Int(opt.chatId.value)
    ensures "from.id" in f <==> opt.fromId.Some?
    ensures "from.id" in f ==> f["from.id"] == Int(opt.fromId.value)
    ensures "date" in f <==> opt.dateFrom.Some? || opt.dateTo.Some?
    ensures "date" in f ==> f["date"] == Sub(DateRange(opt.dateFrom, opt.dateTo))
    ensures "text" in f <==> opt.textLike.Some? && opt.textLike.value != ""
    ensures "text" in f ==> f["text"] == Sub(map["$regex" := Str(opt.textLike.value)])
  {
    var f0: Doc := map[];
    var f1 := if opt.chatId.Some? then f0["chat.id" := Int(opt.chatId.value)] else f0;
    var f2 := if opt.fromId.Some? then f1["from.id" := Int(opt.fromId.value)] else f1;
    var f3 := if opt.dateFrom.Some? || opt.dateTo.Some? then f2["date" := Sub(DateRange(opt.dateFrom, opt.dateTo))] else f2;
    if opt.textLike.Some? && opt.textLike.value != "" then f3["text" := Sub(map["$regex" := Str(opt.textLike.value)])] else f3
  }

  /** Newest first: by date, then by ID, both descending. */
  const MessageSort: seq<(string, int)> := [("date", -1), ("_id", -1)]

  const DefaultPerPage: int := 50

  /** The request `List` sends for `opt`. */
  function MessageListQuery(opt: MessageListOptions): (q: ListQuery)
    requires IsInt64(opt.page) && IsInt64(opt.perPage)
    ensures q.filter == MessageFilter(opt) && q.sort == MessageSort
    ensures q.limit == Paginate(opt.page, opt.perPage, DefaultPerPage).perPage
    ensures 1 <= q.limit <= 1000 && (opt.perPage <= 0 || opt.perPage > 1000 ==> q.limit == 50)
    ensures q.skip == Paginate(opt.page, opt.perPage, DefaultPerPage).skip
  {
    var p := Paginate(opt.page, opt.perPage, DefaultPerPage);
    ListQuery(MessageFilter(opt), MessageSort, p.skip, p.limit)
  }

  /** The key of the upsert: the chat and the message ID. */
  function UpsertFilter(m: Message): (d: Doc)
    ensures d.Keys == {"chat.id", "messageid"} && d["chat.id"] == Int(m.chat.id) && d["messageid"] == Int(m.id)
  {
    map["chat.id" := Int(m.chat.id), "messageid" := Int(m.id)]
  }

  class MessageRepository {
    const col: Collection

    constructor (col: Collection)
      ensures this.col == col
    {
      this.col := col;
    }

    /** Inserts `m`, first giving it an ID and a creation time where they are
        zero and the update time `now`; `m` is changed in place. */
    method Create(m: MessageEntity, newId: ObjectId, now: int) returns (oid: ObjectId, err: Option<RepoError>)
      requires newId != NilObjectId && now != ZeroTime
      modifies m, col
      ensures m.mongoId == DefaultId(old(m.mongoId), newId) && m.createdAt == DefaultTime(old(m.createdAt), now)
      ensures m.updatedAt == now && m.message == old(m.message)
      ensures col.sent == old(col.sent) + [InsertOneOp(m.Encoded())]
      ensures (oid, err) == InsertOutcome(col.server.insertOne(old(col.sent), m.Encoded()))
    {
      if m.mongoId == NilObjectId {
        m.mongoId := newId;
      }
      if m.createdAt == ZeroTime {
        m.createdAt := now;
      }
      m.updatedAt := now;
      var res := col.InsertOne(m.Encoded());
      if res.Err? {
        return NilObjectId, Some(Driver(res.error));
      }
      oid := AsObjectId(res.value);
      err := None;
    }

    /** Updates the message with the same chat and message ID, or inserts it
        with `newId` and creation time `now`; reports whether it was inserted
        and the document's ID. */
    method UpsertByChatAndMessageID(m: MessageEntity, newId: ObjectId, now: int)
      returns (created: bool, oid: ObjectId, err: Option<RepoError>)
      modifies col
      ensures var f, u := UpsertFilter(m.message), UpsertUpdate(m.Encoded(), newId, now);
        var h := old(col.sent) + [UpdateOneOp(f, u, true)];
        var r := col.server.updateOne(old(col.sent), f, u, true);
        && col.sent == (if NeedsLookup(r) then h + [FindOneOp(f, IdProjection)] else h)
        && (created, oid, err) == UpsertOutcome(r, col.server.findOne(h, f, IdProjection))
    {
      var update := UpsertUpdate(m.Encoded(), newId, now);
      var filter := UpsertFilter(m.message);
      var res := col.UpdateOne(filter, update, true);
      if res.Err? {
        return false, NilObjectId, Some(Driver(res.error));
      }
      var up := UpsertedObjectId(res.value);
      if up.Some? {
        return true, up.value, None;
      }
      var found := col.FindOne(filter, IdProjection);
      if found.Err? {
        return false, NilObjectId, Some(Driver(found.error));
      }
      return false, DecodedId(found.value), None;
    }

    method FindByObjectID(id: ObjectId) returns (m: Option<Doc>, err: Option<RepoError>)
      modifies col
      ensures col.sent == old(col.sent) + [FindOneOp(map["_id" := Oid(id)], map[])]
      ensures (m, err) == FindOutcome(col.server.findOne(old(col.sent), map["_id" := Oid(id)], map[]), MessageErrNotFound)
    {
      var res := col.FindOne(map["_id" := Oid(id)], map[]);
      m, err := FindOutcome(res, MessageErrNotFound).0, FindOutcome(res, MessageErrNotFound).1;
    }

    method FindByChatAndMessageID(chatId: int, messageId: int) returns (m: Option<Doc>, err: Option<RepoError>)
      modifies col
      ensures var f := map["chat.id" := Int(chatId), "messageid" := Int(messageId)];
        col.sent == old(col.sent) + [FindOneOp(f, map[])]
        && (m, err) == FindOutcome(col.server.findOne(old(col.sent), f, map[]), MessageErrNotFound)
    {
      var res := col.FindOne(map["chat.id" := Int(chatId), "messageid" := Int(messageId)], map[]);
      m, err := FindOutcome(res, MessageErrNotFound).0, FindOutcome(res, MessageErrNotFound).1;
    }

    /** Sets the fields of `doc` on the message `id`, adding `updatedAt` to
        the caller's map first. */
    method Update(id: ObjectId, doc: DocRef, now: int) returns (err: Option<RepoError>)
      modifies doc, col
      ensures doc.fields == old(doc.fields)["updatedAt" := Time(now)]
      ensures var f, u := map["_id" := Oid(id)], map["$set" := Sub(doc.fields)];
        col.sent == old(col.sent) + [UpdateOneOp(f, u, false)]
        && err == UpdateOutcome(col.server.updateOne(old(col.sent), f, u, false), MessageErrNotFound)
    {
      doc.fields := doc.fields["updatedAt" := Time(now)];
      var res := col.UpdateOne(map["_id" := Oid(id)], map["$set" := Sub(doc.fields)], false);
      err := UpdateOutcome(res, MessageErrNotFound);
    }

    method Delete(id: ObjectId) returns (err: Option<RepoError>)
      modifies col
      ensures col.sent == old(col.sent) + [DeleteOneOp(map["_id" := Oid(id)])]
      ensures err == DeleteOutcome(col.server.deleteOne(old(col.sent), map["_id" := Oid(id)]), MessageErrNotFound)
    {
      var res := col.DeleteOne(map["_id" := Oid(id)]);
      err := DeleteOutcome(res, MessageErrNotFound);
    }

    /** One page of the messages matching `opt`, newest first, and how many
        match in all; an error from either round trip gives nothing. */
    method List(opt: MessageListOptions) returns (out: seq<Doc>, total: int, err: Option<RepoError>)
      requires IsInt64(opt.page) && IsInt64(opt.perPage)
      modifies col
      ensures var q := MessageListQuery(opt);
        var c := col.server.countDocuments(old(col.sent), q.filter);
        var h := old(col.sent) + [CountDocumentsOp(q.filter)];
        var r := col.server.find(h, q.filter, q.sort, q.skip, q.limit);
        && col.sent == (if c.Err? then h else h + [FindOp(q.filter, q.sort, q.skip, q.limit)])
        && (out, total, err) == ListOutcome(c, r)
    {
      var q := MessageListQuery(opt);
      var count := col.CountDocuments(q.filter);
      if count.Err? {
        return [], 0, Some(Driver(count.error));
      }
      var docs := col.Find(q.filter, q.sort, q.skip, q.limit);
      if docs.Err? {
        return [], 0, Some(Driver(docs.error));
      }
      return docs.value, count.value, None;
    }
  }
}
