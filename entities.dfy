/**
  The stored records: a message or a user from the bot API, with its object
  ID and its creation and update times, and their documents. The API's
  fields are encoded at the document's root under their lower-cased Go
  field names; the object ID is left out while it is nil.
*/
module Entities {
  import opened Wrappers
  import opened GoTime
  import opened Bson
  import opened Telegram

  /** The keys the entity itself adds around the encoded payload. */
  predicate NoReservedKeys(d: Doc) {
    "_id" !in d && "createdAt" !in d && "updatedAt" !in d
  }

  function UserFields(u: User): (d: Doc)
    ensures NoReservedKeys(d) && "id" in d && d["id"] == Int(u.id)
  {
    map["id" := Int(u.id), "isbot" := Bool(u.isBot), "firstname" := Str(u.firstName),
        "lastname" := Str(u.lastName), "username" := Str(u.username), "languagecode" := Str(u.languageCode)]
  }

  function MessageFields(m: Message): (d: Doc)
    ensures NoReservedKeys(d) && "id" in d && d["id"] == Int(m.id) && "chat" in d && d["chat"] == Sub(map["id" := Int(m.chat.id)])
  {
    map["id" := Int(m.id),
        "from" := (match m.from case None => Null case Some(u) => Sub(UserFields(u))),
        "chat" := Sub(map["id" := Int(m.chat.id)]),
        "date" := Int(m.date),
        "text" := Str(m.text)]
  }

  /** The document of an entity whose payload encodes as `payload`. */
  function EntityDoc(mongoId: ObjectId, payload: Doc, createdAt: int, updatedAt: int): (d: Doc)
    requires NoReservedKeys(payload)
    ensures "_id" in d <==> mongoId != NilObjectId
    ensures "_id" in d ==> d["_id"] == Oid(mongoId)
    ensures d.Keys == payload.Keys + {"createdAt", "updatedAt"} + (if mongoId == NilObjectId then {} else {"_id"})
    ensures d["createdAt"] == Time(createdAt) && d["updatedAt"] == Time(updatedAt)
    ensures forall k :: k in payload ==> d[k] == payload[k]
  {
    var withId := if mongoId == NilObjectId then payload else payload["_id" := Oid(mongoId)];
    withId["createdAt" := Time(createdAt)]["updatedAt" := Time(updatedAt)]
  }

  class MessageEntity {
    var mongoId: ObjectId
    var message: Message
    var createdAt: int
    var updatedAt: int

    /** `&MessageEntity{Message: msg}`: nil ID and zero times. */
    constructor (message: Message)
      ensures mongoId == NilObjectId && this.message == message && createdAt == ZeroTime && updatedAt == ZeroTime
    {
      mongoId := NilObjectId;
      this.message := message;
      createdAt, updatedAt := ZeroTime, ZeroTime;
    }

    function Encoded(): Doc
      reads this
    {
      EntityDoc(mongoId, MessageFields(message), createdAt, updatedAt)
    }
  }

  class UserEntity {
    var mongoId: ObjectId
    var user: User
    var createdAt: int
    var updatedAt: int

    /** `&UserEntity{User: u}`: nil ID and zero times. */
    constructor (user: User)
      ensures mongoId == NilObjectId && this.user == user && createdAt == ZeroTime && updatedAt == ZeroTime
    {
      mongoId := NilObjectId;
      this.user := user;
      createdAt, updatedAt := ZeroTime, ZeroTime;
    }

    function Encoded(): Doc
      reads this
    {
      EntityDoc(mongoId, UserFields(user), createdAt, updatedAt)
    }
  }
}
