/**
  OccurrentCloudEventMongoDBDocumentMapper: converts a CloudEvent carrying
  the Occurrent stream extensions into the MongoDB document the event store
  keeps, and a stored document back into a CloudEvent.

  The event format and the RFC 3339 formatter are parameters: the mapper
  uses them and does not depend on how they work inside.
*/
module DocumentMapper {
  import opened Wrappers
  import opened Ints
  import opened JavaTime
  import opened TimeRepresentations
  import opened Bson
  import opened CloudEvents
  import opened JsonEventFormat

  /** The two IllegalArgumentExceptions encoding raises under DATE. */
  datatype EncodeError = SubMillisecondTime | NonUtcTime

  /** Decoding fails when the format cannot read the document, or when `getLong` meets a stream version that is no Long. */
  datatype DecodeError = MalformedEvent(cause: FormatError) | StreamVersionNotLong

  /** The stream version that tells encoding not to stamp one. */
  const NO_STREAM_VERSION: int64 := -1

  /**
    The work-around for CloudEvents SDK issue 200: the time goes through
    OffsetDateTime and back to a ZonedDateTime before it is serialised.
  */
  function FixTimestamp(e: CloudEvent): (r: CloudEvent)
    ensures e.time.None? ==> r == e
    ensures e.time.Some? ==> r.time.Some?
    ensures e.time.Some? ==> ToEpochMilli(r.time.value) == ToEpochMilli(e.time.value)
    ensures e.time.Some? ==> r.time.value.subMilliNanos == e.time.value.subMilliNanos
    ensures e.time.Some? ==> r.time.value.offsetSeconds == e.time.value.offsetSeconds
    ensures r.(time := e.time) == e
  {
    if e.time.None? then e
    else e.(time := Some(ToZonedDateTime(OffsetDateTimeFrom(e.time.value))))
  }

  /** The stream id, and the stream version unless it is the sentinel. */
  function StreamMembers(streamId: string, streamVersion: int64): Document {
    map[STREAM_ID := BsonString(streamId)]
    + (if streamVersion != NO_STREAM_VERSION then map[STREAM_VERSION := BsonInt64(streamVersion)] else map[])
  }

  /** The serialised document with the stream id put in and, unless it is the sentinel, the stream version. */
  function Stamped(d: Document, streamId: string, streamVersion: int64): Document {
    var withId := d[STREAM_ID := BsonString(streamId)];
    if streamVersion != NO_STREAM_VERSION then withId[STREAM_VERSION := BsonInt64(streamVersion)] else withId
  }

  /** Stamping overrides the document with the stream members. */
  lemma StampedIsUnion(d: Document, streamId: string, streamVersion: int64)
    ensures Stamped(d, streamId, streamVersion) == d + StreamMembers(streamId, streamVersion)
  {
  }

  /** What `convertToDocument` yields: the document, or the error it raises. */
  function Encoded(ef: EventFormat, timeRepresentation: TimeRepresentation, streamId: string,
                   streamVersion: int64, e: CloudEvent): Result<Document, EncodeError>
  {
    if timeRepresentation == Date && e.time.Some? && !IsMillisecondPrecision(e.time.value) then
      Failure(SubMillisecondTime)
    else if timeRepresentation == Date && e.time.Some? && !IsUtc(e.time.value) then
      Failure(NonUtcTime)
    else
      var eventToUse := if timeRepresentation == Rfc3339String then FixTimestamp(e) else e;
      var stamped := Stamped(Serialize(ef, eventToUse), streamId, streamVersion);
      if timeRepresentation == Date && e.time.Some? then
        Success(stamped[TIME := BsonDate(ToEpochMilli(e.time.value))])
      else
        Success(stamped)
  }

  /**
    The time rules: only DATE raises, and only for an event with a time; the
    precision rule is checked before the UTC rule.
  */
  lemma EncodedTimeErrors(ef: EventFormat, timeRepresentation: TimeRepresentation, streamId: string,
                          streamVersion: int64, e: CloudEvent)
    ensures var r := Encoded(ef, timeRepresentation, streamId, streamVersion, e);
      && (r.Failure? ==> timeRepresentation == Date && e.time.Some?)
      && (timeRepresentation == Date && e.time.Some? && !IsMillisecondPrecision(e.time.value) ==>
            r == Failure(SubMillisecondTime))
      && (timeRepresentation == Date && e.time.Some? && IsMillisecondPrecision(e.time.value) && !IsUtc(e.time.value) ==>
            r == Failure(NonUtcTime))
      && (timeRepresentation == Date && e.time.Some? && IsMillisecondPrecision(e.time.value) && IsUtc(e.time.value) ==>
            r.Success?)
  {
  }

  /**
    An encoded document always carries the stream id; it carries a stream
    version exactly when one other than the sentinel is supplied (or the
    event brought one along as an extension), and then the supplied one.
  */
  lemma EncodedStreamMembers(ef: EventFormat, timeRepresentation: TimeRepresentation, streamId: string,
                             streamVersion: int64, e: CloudEvent)
    requires Encoded(ef, timeRepresentation, streamId, streamVersion, e).Success?
    ensures var d := Encoded(ef, timeRepresentation, streamId, streamVersion, e).value;
      && STREAM_ID in d && d[STREAM_ID] == BsonString(streamId)
      && (STREAM_VERSION in d <==> streamVersion != NO_STREAM_VERSION || STREAM_VERSION in e.extensions)
      && (streamVersion != NO_STREAM_VERSION ==> d[STREAM_VERSION] == BsonInt64(streamVersion))
  {
    assert STREAM_ID !in CONTEXT_ATTRIBUTE_NAMES && STREAM_VERSION !in CONTEXT_ATTRIBUTE_NAMES;
  }

  /**
    The time member: under DATE a valid time becomes a native date of the
    same instant, put over the serialised event with its stream members; otherwise (RFC_3339_STRING, or no time) the document is the
    serialised event with the stream members stamped on it, the time written
    by the format with its instant and offset.
  */
  lemma EncodedTime(ef: EventFormat, timeRepresentation: TimeRepresentation, streamId: string,
                    streamVersion: int64, e: CloudEvent)
    requires Encoded(ef, timeRepresentation, streamId, streamVersion, e).Success?
    ensures var d := Encoded(ef, timeRepresentation, streamId, streamVersion, e).value;
      && (timeRepresentation == Date && e.time.Some? ==>
            TIME in d && d[TIME].BsonDate? && OfInstantUtc(d[TIME].millis) == e.time.value)
      && (timeRepresentation == Date && e.time.Some? ==>
            d == (Serialize(ef, e) + StreamMembers(streamId, streamVersion))[TIME := BsonDate(ToEpochMilli(e.time.value))])
      && (timeRepresentation == Rfc3339String || e.time.None? ==>
            d == Serialize(ef, e) + StreamMembers(streamId, streamVersion))
      && (timeRepresentation == Rfc3339String && e.time.Some? ==>
            TIME in d && d[TIME] == BsonString(ef.writeTime(e.time.value)))
  {
    assert FixTimestamp(e) == e;
    StampedIsUnion(Serialize(ef, e), streamId, streamVersion);
    if timeRepresentation == Date && e.time.Some? {
      NativeDateIsLosslessIff(e.time.value);
    }
    if timeRepresentation == Rfc3339String && e.time.Some? {
      ContextMembersAt(e, ef.writeTime);
      assert TIME !in StreamMembers(streamId, streamVersion);
    }
  }

  /** `convertToDocument`: serialise, then stamp the stream members and, under DATE, the native date. */
  method ConvertToDocument(ef: EventFormat, timeRepresentation: TimeRepresentation, streamId: string,
                           streamVersion: int64, cloudEvent: CloudEvent) returns (r: Result<Document, EncodeError>)
    ensures r == Encoded(ef, timeRepresentation, streamId, streamVersion, cloudEvent)
  {
    var cloudEventToUse := if timeRepresentation == Rfc3339String then FixTimestamp(cloudEvent) else cloudEvent;
    var cloudEventDocument := Serialize(ef, cloudEventToUse);
    cloudEventDocument := cloudEventDocument[STREAM_ID := BsonString(streamId)];
    if streamVersion != NO_STREAM_VERSION {
      cloudEventDocument := cloudEventDocument[STREAM_VERSION := BsonInt64(streamVersion)];
    }
    if timeRepresentation == Date && cloudEvent.time.Some? {
      var time := cloudEvent.time.value;
      if !IsMillisecondPrecision(time) {
        return Failure(SubMillisecondTime);
      } else if !IsUtc(time) {
        return Failure(NonUtcTime);
      }
      cloudEventDocument := cloudEventDocument[TIME := BsonDate(ToEpochMilli(time))];
    }
    r := Success(cloudEventDocument);
  }

  /**
    The copy of a stored document that decoding hands to the event format:
    without `_id`, and under DATE with a native-date time turned into the RFC
    3339 text of that instant in UTC.
  */
  function DocumentToDeserialize(timeRepresentation: TimeRepresentation, rfc3339Format: ZonedDateTime -> string,
                                 doc: Document): (d: Document)
    ensures ID_FIELD !in d
    ensures d.Keys == doc.Keys - {ID_FIELD}
    ensures forall name :: name in d && name != TIME ==> d[name] == doc[name]
    ensures timeRepresentation == Date && TIME in doc && doc[TIME].BsonDate? ==>
      d[TIME] == BsonString(rfc3339Format(OfInstantUtc(doc[TIME].millis)))
    // A time that is no native date, or any time under RFC_3339_STRING, is left as it is
    ensures TIME in doc && !(timeRepresentation == Date && doc[TIME].BsonDate?) ==> d[TIME] == doc[TIME]
  {
    var document := doc - {ID_FIELD};
    if timeRepresentation == Date && TIME in document && document[TIME].BsonDate? then
      document[TIME := BsonString(rfc3339Format(OfInstantUtc(document[TIME].millis)))]
    else
      document
  }

  /** What `convertToCloudEvent` yields for a document that holds a stream version. */
  function Decoded(ef: EventFormat, timeRepresentation: TimeRepresentation, rfc3339Format: ZonedDateTime -> string,
                   doc: Document): Result<CloudEvent, DecodeError>
    requires STREAM_VERSION in doc
  {
    var document := DocumentToDeserialize(timeRepresentation, rfc3339Format, doc);
    match Deserialize(ef, document)
    case Failure(cause) => Failure(MalformedEvent(cause))
    case Success(e) =>
      if document[STREAM_VERSION].BsonInt64? then
        Success(WithExtension(e, STREAM_VERSION, ExtLong(document[STREAM_VERSION].l)))
      else
        Failure(StreamVersionNotLong)
  }

  /**
    Decoding succeeds exactly when the format reads the prepared copy and the
    stored version is a Long; the version then comes back as a Long equal to
    the stored one, and everything else is what the format read.
  */
  lemma DecodedStreamVersion(ef: EventFormat, timeRepresentation: TimeRepresentation,
                             rfc3339Format: ZonedDateTime -> string, doc: Document)
    requires STREAM_VERSION in doc
    ensures var r := Decoded(ef, timeRepresentation, rfc3339Format, doc);
      var read := Deserialize(ef, DocumentToDeserialize(timeRepresentation, rfc3339Format, doc));
      && (r.Success? <==> read.Success? && doc[STREAM_VERSION].BsonInt64?)
      && (r.Success? ==>
            && STREAM_VERSION in r.value.extensions
            && r.value.extensions[STREAM_VERSION] == ExtLong(doc[STREAM_VERSION].l)
            && r.value.(extensions := r.value.extensions - {STREAM_VERSION})
               == read.value.(extensions := read.value.extensions - {STREAM_VERSION}))
  {
    assert STREAM_VERSION != TIME && STREAM_VERSION != ID_FIELD;
  }

  /**
    Under DATE a stored native date reaches the decoded event as the format's
    reading of the UTC RFC 3339 text of that instant; `_id` never reaches the
    format at all.
  */
  lemma DecodedTime(ef: EventFormat, rfc3339Format: ZonedDateTime -> string, doc: Document)
    requires STREAM_VERSION in doc
    requires TIME in doc && doc[TIME].BsonDate?
    requires Decoded(ef, Date, rfc3339Format, doc).Success?
    ensures Decoded(ef, Date, rfc3339Format, doc).value.time == ef.readTime(rfc3339Format(OfInstantUtc(doc[TIME].millis)))
  {
    DeserializeReads(ef, DocumentToDeserialize(Date, rfc3339Format, doc));
  }

  /** `convertToCloudEvent`: copy, drop `_id`, turn a native date back into text, deserialise, widen the version. */
  method ConvertToCloudEvent(ef: EventFormat, timeRepresentation: TimeRepresentation,
                             rfc3339Format: ZonedDateTime -> string, cloudEventDocument: Document)
    returns (r: Result<CloudEvent, DecodeError>)
    requires STREAM_VERSION in cloudEventDocument
    ensures r == Decoded(ef, timeRepresentation, rfc3339Format, cloudEventDocument)
  {
    var document := cloudEventDocument;
    document := document - {ID_FIELD};
    if timeRepresentation == Date {
      if TIME in document && document[TIME].BsonDate? {
        var zonedDateTime := OfInstantUtc(document[TIME].millis);
        var format := rfc3339Format(zonedDateTime);
        document := document[TIME := BsonString(format)];
      }
    }
    var deserialized := Deserialize(ef, document);
    if deserialized.Failure? {
      return Failure(MalformedEvent(deserialized.error));
    }
    var streamVersion := document[STREAM_VERSION];
    if !streamVersion.BsonInt64? {
      return Failure(StreamVersionNotLong);
    }
    r := Success(WithExtension(deserialized.value, STREAM_VERSION, ExtLong(streamVersion.l)));
  }

  /** The event as the store hands it back: with the stream id and the stream version, as a Long, as extensions. */
  function WithStreamExtensions(e: CloudEvent, streamId: string, streamVersion: int64): CloudEvent {
    WithExtension(WithExtension(e, STREAM_ID, ExtString(streamId)), STREAM_VERSION, ExtLong(streamVersion))
  }

  /** The stream members read back as extensions: the id as a String, the version as whatever the JSON reader makes of it. */
  lemma StreamMembersAreExtensions(streamId: string, streamVersion: int64)
    requires streamVersion != NO_STREAM_VERSION
    ensures var sm := StreamMembers(streamId, streamVersion);
      && (forall name :: name in sm ==> ValidExtensionName(name) && ToExtensionValue(sm[name]).Some?)
      && ReadValues(sm) == map[STREAM_ID := ExtString(streamId), STREAM_VERSION := ReadNumber(streamVersion)]
  {
    StreamExtensionNamesAreValid();
    var sm := StreamMembers(streamId, streamVersion);
    assert sm == map[STREAM_ID := BsonString(streamId), STREAM_VERSION := BsonInt64(streamVersion)];
  }

  /** Decoding a document the format reads as `read`, with a Long stream version stored. */
  lemma DecodedOfRead(ef: EventFormat, timeRepresentation: TimeRepresentation, rfc3339Format: ZonedDateTime -> string,
                      doc: Document, read: CloudEvent, streamVersion: int64)
    requires STREAM_VERSION in doc && doc[STREAM_VERSION] == BsonInt64(streamVersion)
    requires Deserialize(ef, DocumentToDeserialize(timeRepresentation, rfc3339Format, doc)) == Success(read)
    ensures Decoded(ef, timeRepresentation, rfc3339Format, doc) == Success(WithExtension(read, STREAM_VERSION, ExtLong(streamVersion)))
  {
    assert STREAM_VERSION != TIME;
  }

  /** Widening the version the reader made of the stream members gives the stream extensions. */
  lemma WidenedStreamExtensions(e: CloudEvent, streamId: string, streamVersion: int64)
    ensures var read := e.(extensions := e.extensions + map[STREAM_ID := ExtString(streamId), STREAM_VERSION := ReadNumber(streamVersion)]);
      WithExtension(read, STREAM_VERSION, ExtLong(streamVersion)) == WithStreamExtensions(e, streamId, streamVersion)
  {
    var x := e.extensions;
    var read := x + map[STREAM_ID := ExtString(streamId), STREAM_VERSION := ReadNumber(streamVersion)];
    assert read[STREAM_VERSION := ExtLong(streamVersion)] == x[STREAM_ID := ExtString(streamId)][STREAM_VERSION := ExtLong(streamVersion)];
  }

  /** Decoding the document that the format writes for `e`, with the stream members stamped on, gives `e` with its stream extensions. */
  lemma DecodeStamped(ef: EventFormat, timeRepresentation: TimeRepresentation, rfc3339Format: ZonedDateTime -> string,
                      timeText: ZonedDateTime -> string, streamId: string, streamVersion: int64, e: CloudEvent)
    requires WellFormed(e)
    requires streamVersion != NO_STREAM_VERSION
    requires e.time.Some? ==> ef.readTime(timeText(e.time.value)) == Some(e.time.value)
    requires var d := ExtensionMembers(e.extensions) + ContextMembers(e, timeText) + StreamMembers(streamId, streamVersion);
      DocumentToDeserialize(timeRepresentation, rfc3339Format, d) == d
    ensures var d := ExtensionMembers(e.extensions) + ContextMembers(e, timeText) + StreamMembers(streamId, streamVersion);
      STREAM_VERSION in d && Decoded(ef, timeRepresentation, rfc3339Format, d) == Success(WithStreamExtensions(e, streamId, streamVersion))
  {
    var sm := StreamMembers(streamId, streamVersion);
    var d := ExtensionMembers(e.extensions) + ContextMembers(e, timeText) + sm;
    StreamMembersAreExtensions(streamId, streamVersion);
    DeserializeMembers(ef, e, timeText, sm);
    assert sm[STREAM_VERSION] == BsonInt64(streamVersion);
    DecodedOfRead(ef, timeRepresentation, rfc3339Format, d, e.(extensions := e.extensions + ReadValues(sm)), streamVersion);
    WidenedStreamExtensions(e, streamId, streamVersion);
  }

  /** Writing the time with another text function changes the time member and nothing else. */
  lemma ContextMembersRetimed(e: CloudEvent, a: ZonedDateTime -> string, b: ZonedDateTime -> string)
    ensures e.time.None? ==> ContextMembers(e, b) == ContextMembers(e, a)
    ensures e.time.Some? ==> ContextMembers(e, b) == ContextMembers(e, a)[TIME := BsonString(b(e.time.value))]
  {
    var ca, cb := ContextMembers(e, a), ContextMembers(e, b);
    assert forall name :: name != TIME ==> ContextMember(e, a, name) == ContextMember(e, b, name);
    if e.time.Some? {
      assert cb.Keys == ca.Keys;
    }
  }

  /** Overwriting a member that the middle document holds and the last one does not. */
  lemma PutThroughUnion(x: Document, y: Document, z: Document, key: string, v: Value, w: Value)
    requires key in y && key !in z
    ensures (x + y + z)[key := v][key := w] == x + y[key := w] + z
  {
  }

  /**
    Under DATE, decoding prepares the encoded document as the format would
    have written it with RFC 3339 text for the time.
  */
  lemma DatePrepared(ef: EventFormat, rfc3339Format: ZonedDateTime -> string, streamId: string,
                     streamVersion: int64, e: CloudEvent)
    requires WellFormed(e)
    requires e.time.Some? ==> IsMillisecondPrecision(e.time.value) && IsUtc(e.time.value)
    ensures Encoded(ef, Date, streamId, streamVersion, e).Success?
    ensures DocumentToDeserialize(Date, rfc3339Format, Encoded(ef, Date, streamId, streamVersion, e).value)
         == ExtensionMembers(e.extensions) + ContextMembers(e, rfc3339Format) + StreamMembers(streamId, streamVersion)
  {
    var encoded := Encoded(ef, Date, streamId, streamVersion, e).value;
    var sm := StreamMembers(streamId, streamVersion);
    var xm := ExtensionMembers(e.extensions);
    StampedIsUnion(Serialize(ef, e), streamId, streamVersion);
    assert Stamped(Serialize(ef, e), streamId, streamVersion) == xm + ContextMembers(e, ef.writeTime) + sm;
    assert ID_FIELD !in e.extensions by {
      IdFieldIsNoExtension(map[ID_FIELD := BsonString("")]);
    }
    assert ID_FIELD !in encoded;
    assert encoded - {ID_FIELD} == encoded;
    ContextMembersRetimed(e, ef.writeTime, rfc3339Format);
    if e.time.Some? {
      var t := e.time.value;
      NativeDateIsLosslessIff(t);
      assert TIME !in sm;
      PutThroughUnion(xm, ContextMembers(e, ef.writeTime), sm, TIME, BsonDate(ToEpochMilli(t)), BsonString(rfc3339Format(t)));
    }
  }

  /** A document that already holds its time as text, and no `_id`, is handed to the format as it is. */
  lemma PreparedIsFixed(rfc3339Format: ZonedDateTime -> string, streamId: string, streamVersion: int64, e: CloudEvent)
    requires WellFormed(e)
    ensures var d := ExtensionMembers(e.extensions) + ContextMembers(e, rfc3339Format) + StreamMembers(streamId, streamVersion);
      DocumentToDeserialize(Date, rfc3339Format, d) == d
  {
    var sm := StreamMembers(streamId, streamVersion);
    var d := ExtensionMembers(e.extensions) + ContextMembers(e, rfc3339Format) + sm;
    assert ID_FIELD !in e.extensions by {
      IdFieldIsNoExtension(map[ID_FIELD := BsonString("")]);
    }
    assert ID_FIELD !in d;
    ContextMembersAt(e, rfc3339Format);
    assert TIME !in sm;
    assert TIME in d ==> d[TIME].BsonString?;
  }

  /**
    Under DATE, a well-formed event whose time (if any) is in UTC with
    millisecond precision encodes without error and decodes back to itself
    plus its stream extensions, provided the RFC 3339 text of its time reads
    back as that time.
  */
  lemma DateRoundTrip(ef: EventFormat, rfc3339Format: ZonedDateTime -> string, streamId: string,
                      streamVersion: int64, e: CloudEvent)
    requires WellFormed(e)
    requires streamVersion != NO_STREAM_VERSION
    requires e.time.Some? ==> IsMillisecondPrecision(e.time.value) && IsUtc(e.time.value)
    requires e.time.Some? ==> ef.readTime(rfc3339Format(e.time.value)) == Some(e.time.value)
    ensures Encoded(ef, Date, streamId, streamVersion, e).Success?
    ensures var d := Encoded(ef, Date, streamId, streamVersion, e).value;
      STREAM_VERSION in d && Decoded(ef, Date, rfc3339Format, d) == Success(WithStreamExtensions(e, streamId, streamVersion))
  {
    DatePrepared(ef, rfc3339Format, streamId, streamVersion, e);
    PreparedIsFixed(rfc3339Format, streamId, streamVersion, e);
    DecodeStamped(ef, Date, rfc3339Format, rfc3339Format, streamId, streamVersion, e);
    EncodedStreamMembers(ef, Date, streamId, streamVersion, e);
  }

  /**
    Under RFC_3339_STRING, a well-formed event encodes without error and
    decodes back to itself plus its stream extensions, provided the format
    reads back the time text it writes.
  */
  lemma Rfc3339StringRoundTrip(ef: EventFormat, rfc3339Format: ZonedDateTime -> string, streamId: string,
                               streamVersion: int64, e: CloudEvent)
    requires WellFormed(e)
    requires streamVersion != NO_STREAM_VERSION
    requires e.time.Some? ==> ef.readTime(ef.writeTime(e.time.value)) == Some(e.time.value)
    ensures Encoded(ef, Rfc3339String, streamId, streamVersion, e).Success?
    ensures var d := Encoded(ef, Rfc3339String, streamId, streamVersion, e).value;
      STREAM_VERSION in d && Decoded(ef, Rfc3339String, rfc3339Format, d) == Success(WithStreamExtensions(e, streamId, streamVersion))
  {
    var encoded := Encoded(ef, Rfc3339String, streamId, streamVersion, e).value;
    StampedIsUnion(Serialize(ef, FixTimestamp(e)), streamId, streamVersion);
    assert encoded == ExtensionMembers(e.extensions) + ContextMembers(e, ef.writeTime) + StreamMembers(streamId, streamVersion);
    assert ID_FIELD !in e.extensions by {
      IdFieldIsNoExtension(map[ID_FIELD := BsonString("")]);
    }
    StreamExtensionNamesAreValid();
    assert DocumentToDeserialize(Rfc3339String, rfc3339Format, encoded) == encoded;
    DecodeStamped(ef, Rfc3339String, rfc3339Format, ef.writeTime, streamId, streamVersion, e);
  }

  /**
    Why decoding widens the version explicitly: the format alone reads a
    stored Long that fits 32 bits back as an Integer.
  */
  lemma DeserializedVersionIsNarrowed(ef: EventFormat, d: Document, streamVersion: int64)
    requires STREAM_VERSION in d && d[STREAM_VERSION] == BsonInt64(streamVersion) && FitsInt32(streamVersion)
    requires Deserialize(ef, d).Success?
    ensures Deserialize(ef, d).value.extensions[STREAM_VERSION] == ExtInteger(streamVersion)
    ensures Deserialize(ef, d).value.extensions[STREAM_VERSION] != ExtLong(streamVersion)
  {
    assert STREAM_VERSION !in CONTEXT_ATTRIBUTE_NAMES;
  }
}
