/**
  The CloudEvents JSON event format, at the level of the BSON document that
  `Document.parse` makes of its output and that `document.toJson()` hands
  back to it.

  Context attributes become top-level members and so do extensions. How a
  time is written as text and read back is the format's own business: an
  EventFormat carries those two functions and nothing else is assumed of
  them.
*/
module JsonEventFormat {
  import opened Wrappers
  import opened Ints
  import opened JavaTime
  import opened Bson
  import opened CloudEvents

  datatype EventFormat = EventFormat(writeTime: ZonedDateTime -> string, readTime: string -> Option<ZonedDateTime>)

  datatype FormatError =
    | UnsupportedSpecVersion
    | MissingAttribute(name: string)
    | MalformedAttribute(name: string)
    | InvalidExtension

  /** `Document.parse` reads an integral JSON number as Int32 when it fits and as Int64 otherwise. */
  function ParsedNumber(n: int64): Value {
    if FitsInt32(n) then BsonInt32(n) else BsonInt64(n)
  }

  /** The JSON reader makes an Integer of a number that fits 32 bits and a Long of any other. */
  function ReadNumber(n: int64): ExtensionValue {
    if FitsInt32(n) then ExtInteger(n) else ExtLong(n)
  }

  /** The member an extension value becomes. */
  function ExtensionMember(v: ExtensionValue): Value {
    match v
    case ExtString(s) => BsonString(s)
    case ExtBoolean(b) => BsonBoolean(b)
    case ExtInteger(i) => BsonInt32(i)
    case ExtLong(l) => ParsedNumber(l)
  }

  /** The extension value a member is read back as; dates, object ids and payloads are not extension values. */
  function ToExtensionValue(v: Value): Option<ExtensionValue> {
    match v
    case BsonString(s) => Some(ExtString(s))
    case BsonBoolean(b) => Some(ExtBoolean(b))
    case BsonInt32(i) => Some(ExtInteger(i))
    case BsonInt64(l) => Some(ReadNumber(l))
    case _ => None
  }

  /** A value that survives the trip through JSON: a Long that would fit an Integer comes back as an Integer. */
  predicate Canonical(v: ExtensionValue) {
    v.ExtLong? ==> !FitsInt32(v.l)
  }

  /** An extension value comes back unchanged from its member exactly when it is canonical. */
  lemma ExtensionMemberRoundTrip(v: ExtensionValue)
    ensures ToExtensionValue(ExtensionMember(v)) == Some(v) <==> Canonical(v)
  {
  }

  /** An event the format can write and read back: well-named, canonical extensions. */
  predicate WellFormed(e: CloudEvent) {
    forall name :: name in e.extensions ==> ValidExtensionName(name) && Canonical(e.extensions[name])
  }

  /** The member a context attribute of `e` becomes, if the attribute is set; the time is written by `timeText`. */
  function ContextMember(e: CloudEvent, timeText: ZonedDateTime -> string, name: string): Option<Value> {
    if name == SPECVERSION then Some(BsonString(SPEC_VERSION_1_0))
    else if name == ID then Some(BsonString(e.id))
    else if name == SOURCE then Some(BsonString(e.source))
    else if name == TYPE then Some(BsonString(e.eventType))
    else if name == DATACONTENTTYPE then StringMember(e.dataContentType)
    else if name == DATASCHEMA then StringMember(e.dataSchema)
    else if name == SUBJECT then StringMember(e.subject)
    else if name == TIME then (if e.time.Some? then Some(BsonString(timeText(e.time.value))) else None)
    else if name == DATA then (if e.data.Some? then Some(Payload(e.data.value)) else None)
    else None
  }

  function StringMember(v: Option<string>): Option<Value> {
    if v.Some? then Some(BsonString(v.value)) else None
  }

  /** The members the context attributes become. */
  function ContextMembers(e: CloudEvent, timeText: ZonedDateTime -> string): (d: Document)
    ensures d.Keys <= CONTEXT_ATTRIBUTE_NAMES
    ensures TIME in d <==> e.time.Some?
  {
    map name | name in CONTEXT_ATTRIBUTE_NAMES && ContextMember(e, timeText, name).Some? ::
      ContextMember(e, timeText, name).value
  }

  function ExtensionMembers(extensions: map<string, ExtensionValue>): (d: Document)
    ensures d.Keys == extensions.Keys
  {
    map name | name in extensions :: ExtensionMember(extensions[name])
  }

  /**
    `eventFormat.serialize(event)` followed by `Document.parse`. Where an
    extension shares a context attribute's name, the attribute wins.
  */
  function Serialize(ef: EventFormat, e: CloudEvent): (d: Document)
    ensures d.Keys == e.extensions.Keys + ContextMembers(e, ef.writeTime).Keys
    ensures ID_FIELD !in d <== ID_FIELD !in e.extensions
  {
    ExtensionMembers(e.extensions) + ContextMembers(e, ef.writeTime)
  }

  function RequiredString(d: Document, name: string): Result<string, FormatError> {
    if name !in d then Failure(MissingAttribute(name))
    else if d[name].BsonString? then Success(d[name].s)
    else Failure(MalformedAttribute(name))
  }

  function ReadOptionalString(d: Document, name: string): Result<Option<string>, FormatError> {
    if name !in d then Success(None)
    else if d[name].BsonString? then Success(Some(d[name].s))
    else Failure(MalformedAttribute(name))
  }

  function ReadTime(ef: EventFormat, d: Document): Result<Option<ZonedDateTime>, FormatError> {
    if TIME !in d then Success(None)
    else if d[TIME].BsonString? && ef.readTime(d[TIME].s).Some? then Success(ef.readTime(d[TIME].s))
    else Failure(MalformedAttribute(TIME))
  }

  function ReadData(d: Document): Result<Option<seq<bv8>>, FormatError> {
    if DATA !in d then Success(None)
    else if d[DATA].Payload? then Success(Some(d[DATA].content))
    else Failure(MalformedAttribute(DATA))
  }

  /** Every member that is not a context attribute is an extension, and must be a valid one. */
  predicate HoldsValidExtensions(d: Document) {
    forall name :: name in d && name !in CONTEXT_ATTRIBUTE_NAMES ==>
      ValidExtensionName(name) && ToExtensionValue(d[name]).Some?
  }

  function ReadExtensions(d: Document): Result<map<string, ExtensionValue>, FormatError> {
    if HoldsValidExtensions(d) then
      Success(map name | name in d && name !in CONTEXT_ATTRIBUTE_NAMES :: ToExtensionValue(d[name]).value)
    else
      Failure(InvalidExtension)
  }

  /** `document.toJson()` followed by `eventFormat.deserialize`. */
  function Deserialize(ef: EventFormat, d: Document): Result<CloudEvent, FormatError> {
    if SPECVERSION !in d then Failure(MissingAttribute(SPECVERSION))
    else if d[SPECVERSION] != BsonString(SPEC_VERSION_1_0) then Failure(UnsupportedSpecVersion)
    else
      var id :- RequiredString(d, ID);
      var source :- RequiredString(d, SOURCE);
      var eventType :- RequiredString(d, TYPE);
      var dataContentType :- ReadOptionalString(d, DATACONTENTTYPE);
      var dataSchema :- ReadOptionalString(d, DATASCHEMA);
      var subject :- ReadOptionalString(d, SUBJECT);
      var time :- ReadTime(ef, d);
      var data :- ReadData(d);
      var extensions :- ReadExtensions(d);
      Success(CloudEvent(id, source, eventType, dataContentType, dataSchema, subject, time, data, extensions))
  }

  /** `_id` is neither a context attribute nor a valid extension name. */
  lemma IdFieldIsNoExtension(d: Document)
    ensures ID_FIELD in d ==> !HoldsValidExtensions(d)
  {
    assert ID_FIELD[0] == '_';
    assert !ValidExtensionName(ID_FIELD);
  }

  /**
    What a successful read promises: the event's id and time are the
    document's, and each member that is no context attribute is a validly
    named extension holding the member's value. In particular a document
    that still holds MongoDB's `_id` is not an event.
  */
  lemma DeserializeReads(ef: EventFormat, d: Document)
    ensures ID_FIELD in d ==> Deserialize(ef, d).Failure?
    ensures var r := Deserialize(ef, d);
      r.Success? ==>
        && ID in d && d[ID] == BsonString(r.value.id)
        && (TIME in d <==> r.value.time.Some?)
        && (TIME in d ==> d[TIME].BsonString? && r.value.time == ef.readTime(d[TIME].s))
        && (forall name :: name in r.value.extensions ==> ValidExtensionName(name))
        && (forall name :: name in d && name !in CONTEXT_ATTRIBUTE_NAMES ==>
              name in r.value.extensions && ToExtensionValue(d[name]) == Some(r.value.extensions[name]))
  {
    IdFieldIsNoExtension(d);
  }

  /** The extension values a set of members is read back as. */
  function ReadValues(members: Document): map<string, ExtensionValue>
    requires forall name :: name in members ==> ToExtensionValue(members[name]).Some?
  {
    map name | name in members :: ToExtensionValue(members[name]).value
  }

  /** Where each context attribute of `e` stands in the members `ContextMembers` gives. */
  lemma ContextMembersAt(e: CloudEvent, timeText: ZonedDateTime -> string)
    ensures var c := ContextMembers(e, timeText);
      && SPECVERSION in c && c[SPECVERSION] == BsonString(SPEC_VERSION_1_0)
      && ID in c && c[ID] == BsonString(e.id)
      && SOURCE in c && c[SOURCE] == BsonString(e.source)
      && TYPE in c && c[TYPE] == BsonString(e.eventType)
      && (DATACONTENTTYPE in c <==> e.dataContentType.Some?)
      && (e.dataContentType.Some? ==> c[DATACONTENTTYPE] == BsonString(e.dataContentType.value))
      && (DATASCHEMA in c <==> e.dataSchema.Some?)
      && (e.dataSchema.Some? ==> c[DATASCHEMA] == BsonString(e.dataSchema.value))
      && (SUBJECT in c <==> e.subject.Some?)
      && (e.subject.Some? ==> c[SUBJECT] == BsonString(e.subject.value))
      && (e.time.Some? ==> c[TIME] == BsonString(timeText(e.time.value)))
      && (DATA in c <==> e.data.Some?)
      && (e.data.Some? ==> c[DATA] == Payload(e.data.value))
  {
  }

  /** A document that agrees with `ContextMembers` on every context attribute yields the event's context attributes. */
  lemma ReadContextAttributes(ef: EventFormat, e: CloudEvent, timeText: ZonedDateTime -> string, d: Document)
    requires e.time.Some? ==> ef.readTime(timeText(e.time.value)) == Some(e.time.value)
    requires forall name :: name in CONTEXT_ATTRIBUTE_NAMES ==>
      (name in d <==> name in ContextMembers(e, timeText)) &&
      (name in d ==> d[name] == ContextMembers(e, timeText)[name])
    ensures SPECVERSION in d && d[SPECVERSION] == BsonString(SPEC_VERSION_1_0)
    ensures RequiredString(d, ID) == Success(e.id)
    ensures RequiredString(d, SOURCE) == Success(e.source)
    ensures RequiredString(d, TYPE) == Success(e.eventType)
    ensures ReadOptionalString(d, DATACONTENTTYPE) == Success(e.dataContentType)
    ensures ReadOptionalString(d, DATASCHEMA) == Success(e.dataSchema)
    ensures ReadOptionalString(d, SUBJECT) == Success(e.subject)
    ensures ReadTime(ef, d) == Success(e.time)
    ensures ReadData(d) == Success(e.data)
  {
    ContextMembersAt(e, timeText);
    var c := ContextMembers(e, timeText);
    assert SPECVERSION in CONTEXT_ATTRIBUTE_NAMES && ID in CONTEXT_ATTRIBUTE_NAMES;
    assert SOURCE in CONTEXT_ATTRIBUTE_NAMES && TYPE in CONTEXT_ATTRIBUTE_NAMES;
    assert DATACONTENTTYPE in CONTEXT_ATTRIBUTE_NAMES && DATASCHEMA in CONTEXT_ATTRIBUTE_NAMES;
    assert SUBJECT in CONTEXT_ATTRIBUTE_NAMES && TIME in CONTEXT_ATTRIBUTE_NAMES && DATA in CONTEXT_ATTRIBUTE_NAMES;
  }

  /** The extensions read from the members of a well-formed event with further extension members laid over them. */
  lemma ReadLaidExtensions(e: CloudEvent, ctx: Document, extra: Document)
    requires WellFormed(e)
    requires ctx.Keys <= CONTEXT_ATTRIBUTE_NAMES
    requires forall name :: name in extra ==> ValidExtensionName(name) && ToExtensionValue(extra[name]).Some?
    ensures ReadExtensions(ExtensionMembers(e.extensions) + ctx + extra) == Success(e.extensions + ReadValues(extra))
  {
    var d := ExtensionMembers(e.extensions) + ctx + extra;
    var expected := e.extensions + ReadValues(extra);
    forall name | name in d && name !in CONTEXT_ATTRIBUTE_NAMES
      ensures ValidExtensionName(name)
      ensures name in expected && ToExtensionValue(d[name]) == Some(expected[name])
    {
      if name !in extra {
        ExtensionMemberRoundTrip(e.extensions[name]);
      }
    }
    var extensions := map name | name in d && name !in CONTEXT_ATTRIBUTE_NAMES :: ToExtensionValue(d[name]).value;
    assert extensions.Keys == expected.Keys;
    assert extensions == expected;
  }

  /**
    Reading back what the format wrote for a well-formed event, with further
    extension members laid over it, gives the event with those extensions
    added, provided the time text in use reads back as the event's time.
  */
  lemma DeserializeMembers(ef: EventFormat, e: CloudEvent, timeText: ZonedDateTime -> string, extra: Document)
    requires WellFormed(e)
    requires e.time.Some? ==> ef.readTime(timeText(e.time.value)) == Some(e.time.value)
    requires forall name :: name in extra ==> ValidExtensionName(name) && ToExtensionValue(extra[name]).Some?
    ensures Deserialize(ef, ExtensionMembers(e.extensions) + ContextMembers(e, timeText) + extra)
         == Success(e.(extensions := e.extensions + ReadValues(extra)))
  {
    var ctx := ContextMembers(e, timeText);
    var d := ExtensionMembers(e.extensions) + ctx + extra;
    forall name | name in CONTEXT_ATTRIBUTE_NAMES
      ensures (name in d <==> name in ctx) && (name in d ==> d[name] == ctx[name])
    {
      assert name !in extra && name !in e.extensions;
    }
    ReadContextAttributes(ef, e, timeText, d);
    ReadLaidExtensions(e, ctx, extra);
  }

  /** The format's own round trip: a well-formed event whose time text reads back comes back unchanged. */
  lemma SerializeDeserialize(ef: EventFormat, e: CloudEvent)
    requires WellFormed(e)
    requires e.time.Some? ==> ef.readTime(ef.writeTime(e.time.value)) == Some(e.time.value)
    ensures Deserialize(ef, Serialize(ef, e)) == Success(e)
  {
    DeserializeMembers(ef, e, ef.writeTime, map[]);
    assert Serialize(ef, e) == ExtensionMembers(e.extensions) + ContextMembers(e, ef.writeTime) + map[];
    assert e.extensions + ReadValues(map[]) == e.extensions;
  }
}
