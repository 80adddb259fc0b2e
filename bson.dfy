/**
  Documents and the document store's driver, as the repositories see them.

  A document is a map from field name to value. The collection is an
  oracle: it records every operation sent to it, in order, and answers
  each one with a function of the operations sent before and of the
  operation itself, so any deterministic server behaviour fits.
*/
module Bson {
  import opened Wrappers

  /** An object ID; 0 is the nil ID, which `IsZero` reports. */
  type ObjectId = nat

  const NilObjectId: ObjectId := 0

  datatype Value =
    | Int(i: int)
    | Str(s: string)
    | Bool(b: bool)
    | Time(t: int)
    | Oid(id: ObjectId)
    | Null
    | Sub(doc: map<string, Value>)

  type Doc = map<string, Value>

  /** A driver error; `ErrNoDocuments` is the one a lookup gives when nothing matches. */
  datatype DbError = ErrNoDocuments | DriverFailure(msg: string)

  datatype UpdateResult = UpdateResult(matched: int, upsertedId: Option<Value>)

  /** An operation sent to the collection. An update by ID is an update whose
      filter is `{_id: id}`; `projection` is the empty document when none is set. */
  datatype Op =
    | InsertOneOp(doc: Doc)
    | UpdateOneOp(filter: Doc, update: Doc, upsert: bool)
    | FindOneOp(filter: Doc, projection: Doc)
    | DeleteOneOp(filter: Doc)
    | CountDocumentsOp(filter: Doc)
    | FindOp(filter: Doc, sort: seq<(string, int)>, skip: int, limit: int)

  /** The answers of the server, one function per kind of operation, each
      given the operations sent before. A lookup that finds a document
      answers it; `Find` answers with the decoded cursor. */
  datatype Server = Server(
    insertOne: (seq<Op>, Doc) -> Result<Value, DbError>,
    updateOne: (seq<Op>, Doc, Doc, bool) -> Result<UpdateResult, DbError>,
    findOne: (seq<Op>, Doc, Doc) -> Result<Doc, DbError>,
    deleteOne: (seq<Op>, Doc) -> Result<int, DbError>,
    countDocuments: (seq<Op>, Doc) -> Result<int, DbError>,
    find: (seq<Op>, Doc, seq<(string, int)>, int, int) -> Result<seq<Doc>, DbError>)

  class Collection {
    /** Every operation sent so far, oldest first. */
    var sent: seq<Op>
    const server: Server

    constructor (server: Server)
      ensures sent == [] && this.server == server
    {
      sent := [];
      this.server := server;
    }

    method InsertOne(doc: Doc) returns (r: Result<Value, DbError>)
      modifies this
      ensures sent == old(sent) + [InsertOneOp(doc)]
      ensures r == server.insertOne(old(sent), doc)
    {
      r := server.insertOne(sent, doc);
      sent := sent + [InsertOneOp(doc)];
    }

    method UpdateOne(filter: Doc, update: Doc, upsert: bool) returns (r: Result<UpdateResult, DbError>)
      modifies this
      ensures sent == old(sent) + [UpdateOneOp(filter, update, upsert)]
      ensures r == server.updateOne(old(sent), filter, update, upsert)
    {
      r := server.updateOne(sent, filter, update, upsert);
      sent := sent + [UpdateOneOp(filter, update, upsert)];
    }

    method FindOne(filter: Doc, projection: Doc) returns (r: Result<Doc, DbError>)
      modifies this
      ensures sent == old(sent) + [FindOneOp(filter, projection)]
      ensures r == server.findOne(old(sent), filter, projection)
    {
      r := server.findOne(sent, filter, projection);
      sent := sent + [FindOneOp(filter, projection)];
    }

    method DeleteOne(filter: Doc) returns (r: Result<int, DbError>)
      modifies this
      ensures sent == old(sent) + [DeleteOneOp(filter)]
      ensures r == server.deleteOne(old(sent), filter)
    {
      r := server.deleteOne(sent, filter);
      sent := sent + [DeleteOneOp(filter)];
    }

    method CountDocuments(filter: Doc) returns (r: Result<int, DbError>)
      modifies this
      ensures sent == old(sent) + [CountDocumentsOp(filter)]
      ensures r == server.countDocuments(old(sent), filter)
    {
      r := server.countDocuments(sent, filter);
      sent := sent + [CountDocumentsOp(filter)];
    }

    method Find(filter: Doc, sort: seq<(string, int)>, skip: int, limit: int) returns (r: Result<seq<Doc>, DbError>)
      modifies this
      ensures sent == old(sent) + [FindOp(filter, sort, skip, limit)]
      ensures r == server.find(old(sent), filter, sort, skip, limit)
    {
      r := server.find(sent, filter, sort, skip, limit);
      sent := sent + [FindOp(filter, sort, skip, limit)];
    }
  }

  /** A map the caller shares with the callee, as Go's maps are shared. */
  class DocRef {
    var fields: Doc

    constructor (fields: Doc)
      ensures this.fields == fields
    {
      this.fields := fields;
    }
  }
}
