/**
  The user repository: create, upsert keyed on the Telegram ID, lookups,
  partial update, delete and the paginated list with a username prefix,
  each as the operations it sends to the `users` collection and the reading
  of the replies. The fresh object ID and the clock are parameters.
*/
module UserRepo {
  import opened Wrappers
  import opened GoInt
  import opened GoTime
  import opened Bson
  import opened Telegram
  import opened Entities
  import opened Repo

  datatype UserListOptions = UserListOptions(page: int, perPage: int, usernamePrefix: Option<string>)

  /** The filter of `List`: a username anchored at the start by the prefix,
      unescaped, when the prefix is set and not empty; otherwise none. */
  function UserFilter(opt: UserListOptions): (f: Doc)
    ensures f.Keys <= {"username"}
    ensures "username" in f <==> opt.usernamePrefix.Some? && opt.usernamePrefix.value != ""
    ensures "username" in f ==> f["username"] == Sub(map["$regex" := Str("^" + opt.usernamePrefix.value)])
  {
    if opt.usernamePrefix.Some? && opt.usernamePrefix.value != "" then
      map["username" := Sub(map["$regex" := Str("^" + opt.usernamePrefix.value)])]
    else map[]
  }

  /** Newest first, by creation time. */
  const UserSort: seq<(string, int)> := [("createdAt", -1)]

  const DefaultPerPage: int := 20

  /** The request `List` sends for `opt`. */
  function UserListQuery(opt: UserListOptions): (q: ListQuery)
    requires IsInt64(opt.page) && IsInt64(opt.perPage)
    ensures q.filter == UserFilter(opt) && q.sort == UserSort
    ensures q.limit == Paginate(opt.page, opt.perPage, DefaultPerPage).perPage
    ensures 1 <= q.limit <= 1000 && (opt.perPage <= 0 || opt.perPage > 1000 ==> q.limit == 20)
    ensures q.skip == Paginate(opt.page, opt.perPage, DefaultPerPage).skip
  {
    var p := Paginate(opt.page, opt.perPage, DefaultPerPage);
    ListQuery(UserFilter(opt), UserSort, p.skip, p.limit)
  }

  /** The key of the upsert: the Telegram ID. */
  function TelegramIdFilter(id: int): (d: Doc)
    ensures d.Keys == {"id"} && d["id"] == Int(id)
  {
    map["id" := Int(id)]
  }

  class UserRepository {
    const col: Collection

    constructor (col: Collection)
      ensures this.col == col
    {
      this.col := col;
    }

    /** Inserts `u`, first giving it an ID and a creation time where they are
        zero and the update time `now`; `u` is changed in place. */
    method Create(u: UserEntity, newId: ObjectId, now: int) returns (oid: ObjectId, err: Option<RepoError>)
      requires newId != NilObjectId && now != ZeroTime
      modifies u, col
      ensures u.mongoId == DefaultId(old(u.mongoId), newId) && u.createdAt == DefaultTime(old(u.createdAt), now)
      ensures u.updatedAt == now && u.user == old(u.user)
      ensures col.sent == old(col.sent) + [InsertOneOp(u.Encoded())]
      ensures (oid, err) == InsertOutcome(col.server.insertOne(old(col.sent), u.Encoded()))
    {
      if u.mongoId == NilObjectId {
        u.mongoId := newId;
      }
      if u.createdAt == ZeroTime {
        u.createdAt := now;
      }
      u.updatedAt := now;
      var res := col.InsertOne(u.Encoded());
      if res.Err? {
        return NilObjectId, Some(Driver(res.error));
      }
      oid := AsObjectId(res.value);
      err := None;
    }

    /** Updates the user with the same Telegram ID, or inserts it with `newId`
        and creation time `now`; reports whether it was inserted and the
        document's ID. */
    method UpsertByTelegramID(u: UserEntity, newId: ObjectId, now: int)
      returns (created: bool, oid: ObjectId, err: Option<RepoError>)
      modifies col
      ensures var f, up := TelegramIdFilter(u.user.id), UpsertUpdate(u.Encoded(), newId, now);
        var h := old(col.sent) + [UpdateOneOp(f, up, true)];
        var r := col.server.updateOne(old(col.sent), f, up, true);
        && col.sent == (if NeedsLookup(r) then h + [FindOneOp(f, IdProjection)] else h)
        && (created, oid, err) == UpsertOutcome(r, col.server.findOne(h, f, IdProjection))
    {
      var update := UpsertUpdate(u.Encoded(), newId, now);
      var filter := TelegramIdFilter(u.user.id);
      var res := col.UpdateOne(filter, update, true);
      if res.Err? {
        return false, NilObjectId, Some(Driver(res.error));
      }
      var up := UpsertedObjectId(res.value);
      if up.Some? {
        return true, up.value, None;
      }
      var found := col.FindOne(filter, IdProjection);
      if found.Err? {
        return false, NilObjectId, Some(Driver(found.error));
      }
      return false, DecodedId(found.value), None;
    }

    method FindByObjectID(id: ObjectId) returns (u: Option<Doc>, err: Option<RepoError>)
      modifies col
      ensures col.sent == old(col.sent) + [FindOneOp(map["_id" := Oid(id)], map[])]
      ensures (u, err) == FindOutcome(col.server.findOne(old(col.sent), map["_id" := Oid(id)], map[]), UserErrNotFound)
    {
      var res := col.FindOne(map["_id" := Oid(id)], map[]);
      u, err := FindOutcome(res, UserErrNotFound).0, FindOutcome(res, UserErrNotFound).1;
    }

    method FindByTelegramID(telegramId: int) returns (u: Option<Doc>, err: Option<RepoError>)
      modifies col
      ensures col.sent == old(col.sent) + [FindOneOp(TelegramIdFilter(telegramId), map[])]
      ensures (u, err) == FindOutcome(col.server.findOne(old(col.sent), TelegramIdFilter(telegramId), map[]), UserErrNotFound)
    {
      var res := col.FindOne(TelegramIdFilter(telegramId), map[]);
      u, err := FindOutcome(res, UserErrNotFound).0, FindOutcome(res, UserErrNotFound).1;
    }

    method FindByUsername(username: string) returns (u: Option<Doc>, err: Option<RepoError>)
      modifies col
      ensures col.sent == old(col.sent) + [FindOneOp(map["username" := Str(username)], map[])]
      ensures (u, err) == FindOutcome(col.server.findOne(old(col.sent), map["username" := Str(username)], map[]), UserErrNotFound)
    {
      var res := col.FindOne(map["username" := Str(username)], map[]);
      u, err := FindOutcome(res, UserErrNotFound).0, FindOutcome(res, UserErrNotFound).1;
    }

    /** Sets the fields of `doc` on the user `id`, adding `updatedAt` to the
        caller's map first. */
    method Update(id: ObjectId, doc: DocRef, now: int) returns (err: Option<RepoError>)
      modifies doc, col
      ensures doc.fields == old(doc.fields)["updatedAt" := Time(now)]
      ensures var f, up := map["_id" := Oid(id)], map["$set" := Sub(doc.fields)];
        col.sent == old(col.sent) + [UpdateOneOp(f, up, false)]
        && err == UpdateOutcome(col.server.updateOne(old(col.sent), f, up, false), UserErrNotFound)
    {
      doc.fields := doc.fields["updatedAt" := Time(now)];
      var res := col.UpdateOne(map["_id" := Oid(id)], map["$set" := Sub(doc.fields)], false);
      err := UpdateOutcome(res, UserErrNotFound);
    }

    method Delete(id: ObjectId) returns (err: Option<RepoError>)
      modifies col
      ensures col.sent == old(col.sent) + [DeleteOneOp(map["_id" := Oid(id)])]
      ensures err == DeleteOutcome(col.server.deleteOne(old(col.sent), map["_id" := Oid(id)]), UserErrNotFound)
    {
      var res := col.DeleteOne(map["_id" := Oid(id)]);
      err := DeleteOutcome(res, UserErrNotFound);
    }

    /** One page of the users matching `opt`, newest first, and how many
        match in all; an error from either round trip gives nothing. */
    method List(opt: UserListOptions) returns (out: seq<Doc>, total: int, err: Option<RepoError>)
      requires IsInt64(opt.page) && IsInt64(opt.perPage)
      modifies col
      ensures var q := UserListQuery(opt);
        var c := col.server.countDocuments(old(col.sent), q.filter);
        var h := old(col.sent) + [CountDocumentsOp(q.filter)];
        var r := col.server.find(h, q.filter, q.sort, q.skip, q.limit);
        && col.sent == (if c.Err? then h else h + [FindOp(q.filter, q.sort, q.skip, q.limit)])
        && (out, total, err) == ListOutcome(c, r)
    {
      var q := UserListQuery(opt);
      var count := col.CountDocuments(q.filter);
      if count.Err? {
        return [], 0, Some(Driver(count.error));
      }
      var docs := col.Find(q.filter, q.sort, q.skip, q.limit);
      if docs.Err? {
        return [], 0, Some(Driver(docs.error));
      }
      return docs.value, count.value, None;
    }
  }
}
