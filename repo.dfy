/**
  What the message and user repositories share: the not-found errors, the
  page arithmetic of `List`, the documents of an upsert, and the reading of
  the driver's replies.
*/
module Repo {
  import opened Wrappers
  import opened GoInt
  import opened GoTime
  import opened Bson
  import opened Entities

  datatype RepoError = Driver(cause: DbError) | MessageErrNotFound | UserErrNotFound

  // ---- pages ----

  /** A normalised page request: the page, its size, and the skip and limit sent. */
  datatype Page = Page(page: int, perPage: int, skip: int, limit: int)

  /** `List`'s normalisation: a page at or below 0 is page 1, a size outside
      1..1000 is `defaultPerPage`; the skip `(page-1)*perPage` is a 64-bit product. */
  function Paginate(page: int, perPage: int, defaultPerPage: int): (r: Page)
    requires IsInt64(page) && IsInt64(perPage) && 1 <= defaultPerPage <= 1000
    ensures r.page >= 1 && r.page == (if page <= 0 then 1 else page)
    ensures 1 <= r.perPage <= 1000
    ensures r.perPage == (if 1 <= perPage <= 1000 then perPage else defaultPerPage)
    ensures r.limit == r.perPage && IsInt64(r.skip)
    ensures (r.page - 1) * r.perPage <= Int64Max ==> r.skip == (r.page - 1) * r.perPage && r.skip >= 0
  {
    var p := if page <= 0 then 1 else page;
    var pp := if perPage <= 0 || perPage > 1000 then defaultPerPage else perPage;
    var product := (p - 1) * pp;
    assert 0 <= product by { MulMonotone(p - 1, 0, pp); }
    Page(p, pp, Wrap64(product), pp)
  }

  /** Normalising a normalised request changes nothing. */
  lemma PaginateIdempotent(page: int, perPage: int, defaultPerPage: int)
    requires IsInt64(page) && IsInt64(perPage) && 1 <= defaultPerPage <= 1000
    ensures var r := Paginate(page, perPage, defaultPerPage);
      Paginate(r.page, r.perPage, defaultPerPage) == r
  {
  }

  /** Consecutive pages are adjacent: page `p + 1` starts where page `p` ends,
      so no document is skipped or shown twice. */
  lemma PagesAdjacent(page: int, perPage: int, defaultPerPage: int)
    requires 1 <= page && IsInt64(page + 1) && IsInt64(perPage) && 1 <= defaultPerPage <= 1000
    requires page * 1000 <= Int64Max
    ensures var r, s := Paginate(page, perPage, defaultPerPage), Paginate(page + 1, perPage, defaultPerPage);
      s.skip == r.skip + r.limit && s.limit == r.limit
  {
    var pp := Paginate(page, perPage, defaultPerPage).perPage;
    MulMonotone(page, pp, 1000);
    assert page * pp == (page - 1) * pp + pp;
  }

  lemma MulMonotone(a: nat, b: int, c: int)
    requires b <= c
    ensures a * b <= a * c
  {
    assert a * c - a * b == a * (c - b);
  }

  // ---- documents ----

  /** The `$set` document of an upsert: the entity's document without `_id`
      and `createdAt`, with `updatedAt` set to `now`. */
  function SetDoc(encoded: Doc, now: int): (r: Doc)
    ensures "_id" !in r && "createdAt" !in r
    ensures "updatedAt" in r && r["updatedAt"] == Time(now)
    ensures r.Keys == encoded.Keys - {"_id", "createdAt"} + {"updatedAt"}
    ensures forall k :: k in encoded && k !in {"_id", "createdAt", "updatedAt"} ==> r[k] == encoded[k]
  {
    (encoded - {"_id", "createdAt"})["updatedAt" := Time(now)]
  }

  /** The update document of an upsert: `$set` as above, and `$setOnInsert`
      with a fresh ID and the creation time, both applied only on insert. */
  function UpsertUpdate(encoded: Doc, newId: ObjectId, now: int): (r: Doc)
    ensures r.Keys == {"$set", "$setOnInsert"}
    ensures r["$set"] == Sub(SetDoc(encoded, now))
    ensures r["$setOnInsert"] == Sub(map["_id" := Oid(newId), "createdAt" := Time(now)])
  {
    map["$setOnInsert" := Sub(map["_id" := Oid(newId), "createdAt" := Time(now)]),
        "$set" := Sub(SetDoc(encoded, now))]
  }

  /** Whatever an entity's ID and times are, its `$set` document is its
      payload and the update time, and nothing else. */
  lemma SetDocOfEntity(mongoId: ObjectId, payload: Doc, createdAt: int, updatedAt: int, now: int)
    requires NoReservedKeys(payload)
    ensures SetDoc(EntityDoc(mongoId, payload, createdAt, updatedAt), now) == payload["updatedAt" := Time(now)]
  {
    var d := EntityDoc(mongoId, payload, createdAt, updatedAt);
    var s := SetDoc(d, now);
    assert s.Keys == payload.Keys + {"updatedAt"};
    forall k | k in payload
      ensures s[k] == payload[k]
    {
      assert k !in {"_id", "createdAt", "updatedAt"};
    }
  }

  // ---- the driver's replies ----

  /** A lookup's answer: the document, or not-found for no documents, or the
      driver's error with the zero entity (empty document) beside it. */
  function FindOutcome(r: Result<Doc, DbError>, notFound: RepoError): (out: (Option<Doc>, Option<RepoError>))
    ensures out.1.None? <==> r.Ok?
    ensures r.Ok? ==> out.0 == Some(r.value)
    ensures out.0.None? <==> r == Err(ErrNoDocuments)
    ensures out.0.None? ==> out.1 == Some(notFound)
    ensures r.Err? && r.error != ErrNoDocuments ==> out == (Some(map[]), Some(Driver(r.error)))
  {
    match r
    case Ok(d) => (Some(d), None)
    case Err(ErrNoDocuments) => (None, Some(notFound))
    case Err(e) => (Some(map[]), Some(Driver(e)))
  }

  /** An update by ID: the driver's error, or not-found when nothing matched. */
  function UpdateOutcome(r: Result<UpdateResult, DbError>, notFound: RepoError): (err: Option<RepoError>)
    ensures err.None? <==> r.Ok? && r.value.matched != 0
    ensures r.Err? ==> err == Some(Driver(r.error))
    ensures r.Ok? && r.value.matched == 0 ==> err == Some(notFound)
  {
    match r
    case Err(e) => Some(Driver(e))
    case Ok(res) => if res.matched == 0 then Some(notFound) else None
  }

  /** A delete by ID: the driver's error, or not-found when nothing was deleted. */
  function DeleteOutcome(r: Result<int, DbError>, notFound: RepoError): (err: Option<RepoError>)
    ensures err.None? <==> r.Ok? && r.value != 0
    ensures r.Err? ==> err == Some(Driver(r.error))
    ensures r.Ok? && r.value == 0 ==> err == Some(notFound)
  {
    match r
    case Err(e) => Some(Driver(e))
    case Ok(n) => if n == 0 then Some(notFound) else None
  }

  /** A value read as an object ID: the nil ID when it is not one. */
  function AsObjectId(v: Value): (id: ObjectId)
    ensures v.Oid? ==> id == v.id
    ensures !v.Oid? ==> id == NilObjectId
  {
    if v.Oid? then v.id else NilObjectId
  }

  /** The `_id` decoded from a projected document: nil when it is absent or not an ID. */
  function DecodedId(d: Doc): (id: ObjectId)
    ensures id != NilObjectId ==> "_id" in d && d["_id"] == Oid(id)
  {
    if "_id" in d then AsObjectId(d["_id"]) else NilObjectId
  }

  /** The ID an upsert inserted, when its reply carries one. */
  function UpsertedObjectId(res: UpdateResult): (id: Option<ObjectId>)
    ensures id.Some? <==> res.upsertedId.Some? && res.upsertedId.value.Oid?
    ensures id.Some? ==> res.upsertedId == Some(Oid(id.value))
  {
    match res.upsertedId
    case Some(Oid(x)) => Some(x)
    case _ => None
  }

  /** An upsert's answer from the update reply `r` and, when `r` carries no
      inserted ID, the reply `q` of the lookup of the matched document's ID:
      created with the inserted ID, or updated with the ID found. */
  function UpsertOutcome(r: Result<UpdateResult, DbError>, q: Result<Doc, DbError>): (out: (bool, ObjectId, Option<RepoError>))
    ensures out.0 <==> r.Ok? && UpsertedObjectId(r.value).Some?
    ensures out.0 ==> out == (true, UpsertedObjectId(r.value).value, None)
    ensures r.Err? ==> out == (false, NilObjectId, Some(Driver(r.error)))
    ensures NeedsLookup(r) ==> out == (false, if q.Ok? then DecodedId(q.value) else NilObjectId,
                                        if q.Ok? then None else Some(Driver(q.error)))
  {
    match r
    case Err(e) => (false, NilObjectId, Some(Driver(e)))
    case Ok(res) =>
      match UpsertedObjectId(res)
      case Some(id) => (true, id, None)
      case None =>
        match q
        case Err(e) => (false, NilObjectId, Some(Driver(e)))
        case Ok(d) => (false, DecodedId(d), None)
  }

  /** Whether an upsert has to look the matched document's ID up. */
  predicate NeedsLookup(r: Result<UpdateResult, DbError>) {
    r.Ok? && UpsertedObjectId(r.value).None?
  }

  /** The projection of that lookup: the ID only. */
  const IdProjection: Doc := map["_id" := Int(1)]

  /** A list request: the filter, the sort keys with their directions, the skip and the limit. */
  datatype ListQuery = ListQuery(filter: Doc, sort: seq<(string, int)>, skip: int, limit: int)

  /** A list's answer from the count reply `c` and the find reply `r`. */
  function ListOutcome(c: Result<int, DbError>, r: Result<seq<Doc>, DbError>): (out: (seq<Doc>, int, Option<RepoError>))
    ensures out.2.None? <==> c.Ok? && r.Ok?
    ensures out.2.None? ==> out.0 == r.value && out.1 == c.value
    ensures out.2.Some? ==> out.0 == [] && out.1 == 0
    ensures c.Err? ==> out.2 == Some(Driver(c.error))
    ensures c.Ok? && r.Err? ==> out.2 == Some(Driver(r.error))
  {
    if c.Err? then ([], 0, Some(Driver(c.error)))
    else if r.Err? then ([], 0, Some(Driver(r.error)))
    else (r.value, c.value, None)
  }

  /** The insert's answer: the inserted ID (nil when it is not an ID), or
      the nil ID and the driver's error. */
  function InsertOutcome(r: Result<Value, DbError>): (out: (ObjectId, Option<RepoError>))
    ensures out.1.None? <==> r.Ok?
    ensures r.Ok? ==> out.0 == AsObjectId(r.value)
    ensures r.Err? ==> out == (NilObjectId, Some(Driver(r.error)))
  {
    match r
    case Ok(v) => (AsObjectId(v), None)
    case Err(e) => (NilObjectId, Some(Driver(e)))
  }

  /** `Create`'s defaults: an ID and a creation time only where they are
      zero, and the update time always `now`. */
  function DefaultId(id: ObjectId, newId: ObjectId): (r: ObjectId)
    requires newId != NilObjectId
    ensures r != NilObjectId
    ensures id != NilObjectId ==> r == id
  {
    if id == NilObjectId then newId else id
  }

  function DefaultTime(t: int, now: int): (r: int)
    requires now != ZeroTime
    ensures r != ZeroTime
    ensures t != ZeroTime ==> r == t
  {
    if t == ZeroTime then now else t
  }

  /** Defaulting twice is defaulting once: a created entity keeps its ID and creation time. */
  lemma DefaultsIdempotent(id: ObjectId, t: int, newId: ObjectId, newId': ObjectId, now: int, now': int)
    requires newId != NilObjectId && newId' != NilObjectId && now != ZeroTime && now' != ZeroTime
    ensures DefaultId(DefaultId(id, newId), newId') == DefaultId(id, newId)
    ensures DefaultTime(DefaultTime(t, now), now') == DefaultTime(t, now)
  {
  }
}
