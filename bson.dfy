/** BSON documents as the mapper sees them: string-keyed maps of values. */
module Bson {
  import opened Ints

  datatype Value =
    | BsonString(s: string)
    | BsonBoolean(b: bool)
    | BsonInt32(i: int32)
    | BsonInt64(l: int64)
    /** A native date, as milliseconds since the epoch (java.util.Date). */
    | BsonDate(millis: int64)
    /** The ObjectId MongoDB assigns to `_id`. */
    | BsonObjectId(hex: string)
    /** The event's `data` member in whatever shape the event format writes it; the mapper never looks inside. */
    | Payload(content: seq<bv8>)

  type Document = map<string, Value>

  /** The key MongoDB gives the document's own identifier. */
  const ID_FIELD: string := "_id"
}
