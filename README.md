# Occurrent MongoDB event codec and event store configuration

This project models two parts of the Occurrent event store for MongoDB.

**The document mapper** (`OccurrentCloudEventMongoDBDocumentMapper`) turns a CloudEvent (CloudEvents 1.0) that carries the Occurrent stream extensions into the MongoDB document the store keeps, and turns a stored document back into a CloudEvent. Encoding does three things:

- It serialises the event with the CloudEvents JSON event format.
- It stamps the `streamid` member, and stamps `streamversion` unless the version is the sentinel `-1`.
- Under the `DATE` time representation, it replaces the RFC 3339 `time` text with a native date. It first insists that the time is whole milliseconds, and then that it is in UTC.

Decoding reverses this:

- It works on a copy of the document and drops `_id`.
- Under `DATE`, it turns a native-date `time` back into the RFC 3339 text of that instant in UTC.
- It deserialises the copy and re-attaches `streamversion` as a Long.

**The configuration** (`EventStoreConfig`) is an immutable value, assembled by a mutable `Builder`. It holds the time representation, the transaction options, whether reads are transactional, and the query-options function.

Modules, one per file:

| file | module | models |
|---|---|---|
| `wrappers.dfy` | `Wrappers` | `Option` and `Result` |
| `ints.dfy` | `Ints` | Java `int` and `long` ranges |
| `java_time.dfy` | `JavaTime` | `ZonedDateTime` as epoch milliseconds, sub-millisecond nanoseconds and a fixed offset; `truncatedTo(MILLIS)`, `withZoneSameInstant`, `toInstant`, `ZonedDateTime.ofInstant(…, UTC)` and `OffsetDateTime.from(…).toZonedDateTime()` |
| `time_representations.dfy` | `TimeRepresentations` | the `RFC_3339_STRING` / `DATE` choice |
| `bson.dfy` | `Bson` | a MongoDB document as a map from member names to BSON values |
| `cloud_events.dfy` | `CloudEvents` | the CloudEvent envelope, its extension values, and the names of the context attributes and stream extensions |
| `json_event_format.dfy` | `JsonEventFormat` | the JSON event format, seen as a document: serialise followed by `Document.parse`, and `toJson` followed by deserialise |
| `document_mapper.dfy` | `DocumentMapper` | `convertToDocument`, `convertToCloudEvent` and `fixTimestamp` |
| `event_store_config.dfy` | `StoreConfig` | `EventStoreConfig`, its constructors, `equals`, and its `Builder` |

Encoding and decoding are each stated twice:

- A specification function (`Encoded`, `Decoded`) says what the result is.
- A method (`ConvertToDocument`, `ConvertToCloudEvent`) performs the same steps as the Java, one `put`/`remove` at a time, and is proved equal to the function.

The properties are lemmas about the specification functions.

The JSON event format is modelled at the level of members:

- Each context attribute becomes the member of that name.
- `time` becomes the text the format writes for it.
- `data` becomes a binary payload.
- Each extension becomes a member whose value matches its type.

A number is parsed as a 32-bit integer when it fits in 32 bits, and as a 64-bit integer otherwise. It is read back as an `Integer` extension when it fits, and as a `Long` extension otherwise. Because of this, decoding must widen the stream version explicitly (`DeserializedVersionIsNarrowed`).

Two things are parameters rather than code: how the format writes and reads a time as text (`EventFormat.writeTime`, `EventFormat.readTime`), and the RFC 3339 formatter decode uses. The round-trip lemmas take the laws they need about these as preconditions.

## Model

| member | source | states |
|---|---|---|
| JavaTime.IsMillisecondPrecision | eventstore/mongodb/common/src/main/java/org/occurrent/eventstore/mongodb/internal/OccurrentCloudEventMongoDBDocumentMapper.java:57 | a time is unchanged by truncation to milliseconds exactly when it has no sub-millisecond nanoseconds |
| JavaTime.IsUtc | eventstore/mongodb/common/src/main/java/org/occurrent/eventstore/mongodb/internal/OccurrentCloudEventMongoDBDocumentMapper.java:62 | a time equals itself moved to UTC at the same instant exactly when its offset is zero |
| JavaTime.OfInstantUtc | eventstore/mongodb/common/src/main/java/org/occurrent/eventstore/mongodb/internal/OccurrentCloudEventMongoDBDocumentMapper.java:85 | the time made from an instant in UTC is in UTC, has millisecond precision, and has that instant |
| JavaTime.NativeDateIsLosslessIff | eventstore/mongodb/common/src/main/java/org/occurrent/eventstore/mongodb/internal/OccurrentCloudEventMongoDBDocumentMapper.java:55-71 | storing a time as a native date and reading it back in UTC gives the same time if and only if the time is in UTC with millisecond precision, which is why encoding demands both |
| CloudEvents.WithExtension | eventstore/mongodb/common/src/main/java/org/occurrent/eventstore/mongodb/internal/OccurrentCloudEventMongoDBDocumentMapper.java:93 | `withExtension` adds or replaces exactly the named extension and leaves every attribute and every other extension as it was |
| CloudEvents.StreamExtensionNamesAreValid | eventstore/mongodb/common/src/main/java/org/occurrent/eventstore/mongodb/internal/OccurrentCloudEventMongoDBDocumentMapper.java:49-53 | the stream id and stream version names are valid CloudEvents extension names, so the reader takes them as extensions |
| JsonEventFormat.ExtensionMemberRoundTrip | eventstore/mongodb/common/src/main/java/org/occurrent/eventstore/mongodb/internal/OccurrentCloudEventMongoDBDocumentMapper.java:92-93 | an extension value comes back unchanged through document and JSON if and only if it is canonical, that is, it is no Long that fits in 32 bits |
| JsonEventFormat.ContextMembers | eventstore/mongodb/common/src/main/java/org/occurrent/eventstore/mongodb/internal/OccurrentCloudEventMongoDBDocumentMapper.java:46-48 | the serialised context attributes are named by context attribute names only, and hold `time` exactly when the event has a time |
| JsonEventFormat.ExtensionMembers | eventstore/mongodb/common/src/main/java/org/occurrent/eventstore/mongodb/internal/OccurrentCloudEventMongoDBDocumentMapper.java:46-48 | every extension, and nothing else, becomes a member of the same name |
| JsonEventFormat.Serialize | eventstore/mongodb/common/src/main/java/org/occurrent/eventstore/mongodb/internal/OccurrentCloudEventMongoDBDocumentMapper.java:46-48 | the parsed serialisation holds exactly the extensions and the present context attributes, and no `_id` unless an extension has that name |
| JsonEventFormat.IdFieldIsNoExtension | eventstore/mongodb/common/src/main/java/org/occurrent/eventstore/mongodb/internal/OccurrentCloudEventMongoDBDocumentMapper.java:79 | in the model, a document that still holds `_id` does not consist of valid extensions, so the modelled reader fails on it unless decoding drops `_id` first |
| JsonEventFormat.DeserializeReads | eventstore/mongodb/common/src/main/java/org/occurrent/eventstore/mongodb/internal/OccurrentCloudEventMongoDBDocumentMapper.java:90-93 | `Deserialize`, the modelled reader, which has no contract of its own: deserialising fails on a document with `_id`; when it succeeds, the id is the `id` member, the time is present exactly when `time` is, and is the format's reading of that text, and every non-attribute member is a valid extension read as its value |
| JsonEventFormat.ContextMembersAt | eventstore/mongodb/common/src/main/java/org/occurrent/eventstore/mongodb/internal/OccurrentCloudEventMongoDBDocumentMapper.java:46-48 | where each context attribute of the event stands in the serialised members: spec version 1.0, the required strings, and each optional attribute exactly when present |
| JsonEventFormat.ReadContextAttributes | eventstore/mongodb/common/src/main/java/org/occurrent/eventstore/mongodb/internal/OccurrentCloudEventMongoDBDocumentMapper.java:90-93 | any document that agrees with an event's serialised context attributes reads back every one of them, provided the time text reads back |
| JsonEventFormat.ReadLaidExtensions | eventstore/mongodb/common/src/main/java/org/occurrent/eventstore/mongodb/internal/OccurrentCloudEventMongoDBDocumentMapper.java:90-93 | a well-formed event's extensions, with extra valid members stamped on, read back as the extensions together with the extra members' values |
| JsonEventFormat.DeserializeMembers | eventstore/mongodb/common/src/main/java/org/occurrent/eventstore/mongodb/internal/OccurrentCloudEventMongoDBDocumentMapper.java:90-93 | deserialising a well-formed event's serialisation, with extra valid members stamped on, gives the event with the extra members as extensions |
| JsonEventFormat.SerializeDeserialize | eventstore/mongodb/common/src/main/java/org/occurrent/eventstore/mongodb/internal/OccurrentCloudEventMongoDBDocumentMapper.java:46-48 | the format alone round-trips every well-formed event whose time text reads back |
| DocumentMapper.FixTimestamp | eventstore/mongodb/common/src/main/java/org/occurrent/eventstore/mongodb/internal/OccurrentCloudEventMongoDBDocumentMapper.java:98-105 | an event without a time is returned as it is; otherwise the time keeps its instant, its nanoseconds and its offset, and nothing else changes |
| DocumentMapper.StampedIsUnion | eventstore/mongodb/common/src/main/java/org/occurrent/eventstore/mongodb/internal/OccurrentCloudEventMongoDBDocumentMapper.java:48-53 | putting the stream members one by one (`Stamped`, the form `Encoded` and `ConvertToDocument` use) equals overriding the document with `StreamMembers`, the form the round-trip lemmas use |
| DocumentMapper.EncodedTimeErrors | eventstore/mongodb/common/src/main/java/org/occurrent/eventstore/mongodb/internal/OccurrentCloudEventMongoDBDocumentMapper.java:55-67 | encoding fails only under DATE for an event with a time; a sub-millisecond time fails with the precision error whatever its offset; a whole-millisecond non-UTC time fails with the UTC error; a whole-millisecond UTC time succeeds, and RFC_3339_STRING never fails |
| DocumentMapper.EncodedStreamMembers | eventstore/mongodb/common/src/main/java/org/occurrent/eventstore/mongodb/internal/OccurrentCloudEventMongoDBDocumentMapper.java:49-53 | the document always holds `streamid` equal to the stream id; it holds `streamversion` exactly when the version is not -1 or the event already had that extension, and then holds the supplied version as a Long |
| DocumentMapper.EncodedTime | eventstore/mongodb/common/src/main/java/org/occurrent/eventstore/mongodb/internal/OccurrentCloudEventMongoDBDocumentMapper.java:55-71 | under DATE a time becomes a native date of the same instant, from which the time is recovered in UTC, put over the serialised event with the stream members; under RFC_3339_STRING, or with no time, the document is the serialised event plus the stream members, and the time is the text the format writes for it |
| DocumentMapper.ConvertToDocument | eventstore/mongodb/common/src/main/java/org/occurrent/eventstore/mongodb/internal/OccurrentCloudEventMongoDBDocumentMapper.java:43-75 | the step-by-step encoding yields exactly `Encoded`, the specification function whose properties the `Encoded…` lemmas and the round trips state |
| DocumentMapper.DocumentToDeserialize | eventstore/mongodb/common/src/main/java/org/occurrent/eventstore/mongodb/internal/OccurrentCloudEventMongoDBDocumentMapper.java:78-89 | the copy handed to the format has no `_id` and every other member; under DATE a native-date time becomes the UTC RFC 3339 text of its instant; a time that is no date, or any time under RFC_3339_STRING, is untouched |
| DocumentMapper.DecodedStreamVersion | eventstore/mongodb/common/src/main/java/org/occurrent/eventstore/mongodb/internal/OccurrentCloudEventMongoDBDocumentMapper.java:93 | decoding succeeds if and only if the format reads the copy and the stored version is a Long; the decoded `streamversion` is then that Long, and the rest of the event is what the format read |
| DocumentMapper.DecodedTime | eventstore/mongodb/common/src/main/java/org/occurrent/eventstore/mongodb/internal/OccurrentCloudEventMongoDBDocumentMapper.java:81-89 | under DATE, the decoded time of a stored native date is the format's reading of the UTC RFC 3339 text of that instant |
| DocumentMapper.ConvertToCloudEvent | eventstore/mongodb/common/src/main/java/org/occurrent/eventstore/mongodb/internal/OccurrentCloudEventMongoDBDocumentMapper.java:77-94 | the step-by-step decoding yields exactly `Decoded`, the specification function whose properties the `Decoded…` lemmas and the round trips state; the input document is a value and is not changed |
| DocumentMapper.StreamMembersAreExtensions | eventstore/mongodb/common/src/main/java/org/occurrent/eventstore/mongodb/internal/OccurrentCloudEventMongoDBDocumentMapper.java:49-53 | the stamped stream members are valid extensions, read back as a String id and a version that the reader narrows when it fits in 32 bits |
| DocumentMapper.DecodeStamped | eventstore/mongodb/common/src/main/java/org/occurrent/eventstore/mongodb/internal/OccurrentCloudEventMongoDBDocumentMapper.java:77-94 | decoding a serialised well-formed event with the stream members stamped on gives the event with `streamid` and a Long `streamversion` |
| DocumentMapper.ContextMembersRetimed | eventstore/mongodb/common/src/main/java/org/occurrent/eventstore/mongodb/internal/OccurrentCloudEventMongoDBDocumentMapper.java:86-87 | writing the time with other text changes the `time` member and nothing else |
| DocumentMapper.DatePrepared | eventstore/mongodb/common/src/main/java/org/occurrent/eventstore/mongodb/internal/OccurrentCloudEventMongoDBDocumentMapper.java:78-87 | under DATE, the copy that decoding prepares from an encoded event is that event serialised with RFC 3339 text for its time |
| DocumentMapper.PreparedIsFixed | eventstore/mongodb/common/src/main/java/org/occurrent/eventstore/mongodb/internal/OccurrentCloudEventMongoDBDocumentMapper.java:78-89 | a document with textual time and no `_id` is handed to the format as it is |
| DocumentMapper.DateRoundTrip | eventstore/mongodb/common/src/main/java/org/occurrent/eventstore/mongodb/internal/OccurrentCloudEventMongoDBDocumentMapper.java:43-94 | under DATE a well-formed event with a UTC whole-millisecond time (or none) encodes, and decodes back to itself with its stream extensions, given that the RFC 3339 text of the time reads back |
| DocumentMapper.Rfc3339StringRoundTrip | eventstore/mongodb/common/src/main/java/org/occurrent/eventstore/mongodb/internal/OccurrentCloudEventMongoDBDocumentMapper.java:43-94 | under RFC_3339_STRING every well-formed event encodes, and decodes back to itself with its stream extensions, given that the format reads back the time text it writes |
| DocumentMapper.DeserializedVersionIsNarrowed | eventstore/mongodb/common/src/main/java/org/occurrent/eventstore/mongodb/internal/OccurrentCloudEventMongoDBDocumentMapper.java:92-93 | without the explicit `getLong` widening, a stored Long version that fits in 32 bits would come back as an Integer, not as a Long |
| StoreConfig.Create | eventstore/mongodb/native/src/main/java/org/occurrent/eventstore/mongodb/nativedriver/EventStoreConfig.java:68-78 | construction fails if and only if the time representation is null; otherwise it keeps the time representation and the flag, replaces null transaction options by the defaults and a null query-options function by the identity, and keeps the non-null ones |
| StoreConfig.OfTimeRepresentationAndTransactionOptions | eventstore/mongodb/native/src/main/java/org/occurrent/eventstore/mongodb/nativedriver/EventStoreConfig.java:64-66 | the two-argument constructor enables transactional reads and uses identity query options, with the given or default transaction options |
| StoreConfig.OfTimeRepresentation | eventstore/mongodb/native/src/main/java/org/occurrent/eventstore/mongodb/nativedriver/EventStoreConfig.java:50-52 | the one-argument constructor gives default transaction options, transactional reads, identity query options, and the given time representation, and fails on null |
| StoreConfig.Equals | eventstore/mongodb/native/src/main/java/org/occurrent/eventstore/mongodb/nativedriver/EventStoreConfig.java:81-86 | `equals` holds exactly when the other object is a config with the same four fields |
| StoreConfig.EqualsIsEquivalence | eventstore/mongodb/native/src/main/java/org/occurrent/eventstore/mongodb/nativedriver/EventStoreConfig.java:81-86 | `equals` is reflexive, symmetric and transitive, and false for null |
| StoreConfig.CreateFromFields | eventstore/mongodb/native/src/main/java/org/occurrent/eventstore/mongodb/nativedriver/EventStoreConfig.java:68-78 | constructing from a config's own fields gives that config back |
| StoreConfig.ExplicitDefaultsAreNull | eventstore/mongodb/native/src/main/java/org/occurrent/eventstore/mongodb/nativedriver/EventStoreConfig.java:70-77 | passing the default transaction options and the identity query options is the same as passing null |
| StoreConfig.Builder.constructor | eventstore/mongodb/native/src/main/java/org/occurrent/eventstore/mongodb/nativedriver/EventStoreConfig.java:103-107 | a fresh builder has no transaction options and no time representation, transactional reads on, and identity query options |
| StoreConfig.Builder.SetTransactionOptions | eventstore/mongodb/native/src/main/java/org/occurrent/eventstore/mongodb/nativedriver/EventStoreConfig.java:113-116 | sets the transaction options, leaves the other fields alone, and returns the same builder |
| StoreConfig.Builder.SetTimeRepresentation | eventstore/mongodb/native/src/main/java/org/occurrent/eventstore/mongodb/nativedriver/EventStoreConfig.java:122-125 | sets the time representation, leaves the other fields alone, and returns the same builder |
| StoreConfig.Builder.SetTransactionalReads | eventstore/mongodb/native/src/main/java/org/occurrent/eventstore/mongodb/nativedriver/EventStoreConfig.java:180-183 | sets the transactional-reads flag, leaves the other fields alone, and returns the same builder |
| StoreConfig.Builder.SetQueryOptions | eventstore/mongodb/native/src/main/java/org/occurrent/eventstore/mongodb/nativedriver/EventStoreConfig.java:195-198 | sets the query-options function, leaves the other fields alone, and returns the same builder |
| StoreConfig.Builder.Build | eventstore/mongodb/native/src/main/java/org/occurrent/eventstore/mongodb/nativedriver/EventStoreConfig.java:200-201 | building is the four-argument constructor applied to the fields: it fails exactly when no time representation is set, and carries the time representation and the flag over unchanged |
| StoreConfig.BuildFreshBuilder | eventstore/mongodb/native/src/main/java/org/occurrent/eventstore/mongodb/nativedriver/EventStoreConfig.java:104-107 | a builder never given a time representation cannot build |
| StoreConfig.BuildWithTimeRepresentation | eventstore/mongodb/native/src/main/java/org/occurrent/eventstore/mongodb/nativedriver/EventStoreConfig.java:200-201 | a builder given only a time representation builds what the one-argument constructor makes |
| StoreConfig.BuildFromConfig | eventstore/mongodb/native/src/main/java/org/occurrent/eventstore/mongodb/nativedriver/EventStoreConfig.java:103-202 | setting every builder field from a config builds that config back |

## Left out

- `EventStoreConfig.toString` and `hashCode`: string formatting and `Objects.hash`, which are library code with no logic of the class.
- `TransactionOptions` and the query-options function: opaque driver values, modelled only by equality and a default (all settings unset, and the identity function). What the driver does with them is not modelled.
- Region time zones (`ZoneId` rules) are not modelled. A time carries a fixed offset, so `fixTimestamp`'s trip through `OffsetDateTime` gives back an equal value. The model proves that it keeps the instant, the nanoseconds and the offset; the SDK issue it works around is not modelled.
- Instants beyond the range of `long` milliseconds are not modelled: a time is epoch milliseconds in `long` range plus sub-millisecond nanoseconds.
- How the CloudEvents JSON format writes and reads a time as text, and the RFC 3339 formatter, are parameters. The round trips are proved under the stated read-back laws, not for the library's actual formatter.
- The byte and string steps (`serialize` to bytes, UTF-8 decoding, `Document.parse`, `toJson`, `getBytes`) are folded into the document-level format. JSON escaping and byte-level encoding are not modelled.
- `data` is modelled as a binary payload member. The `data_base64` encoding, JSON-valued data and the URI and timestamp types of `source` and `dataschema` are not modelled; those attributes are strings.
- Extension values other than String, Boolean, Integer and Long (other numbers such as `Double`, and URI, timestamp and binary values) cannot be represented. The round-trip lemmas `DocumentMapper.DateRoundTrip` and `DocumentMapper.Rfc3339StringRoundTrip` therefore cover only events whose extensions are of those four kinds.
- Extension members whose values are objects or arrays, and members whose names are not valid extension names (such as `_id`), are rejected by the modelled reader. The reader of the real library is not modelled, so both are choices of the model.
- `DocumentMapper.ConvertToCloudEvent`: requires the document to hold `streamversion`; what the Java does when `streamversion` is missing is not modelled. A `streamversion` member that is not a Long is modelled as the `StreamVersionNotLong` error rather than a `ClassCastException`.
- `OccurrentCloudEventExtension` and `TimeRepresentation` are not modelled; the extension names `streamid` and `streamversion` are assumed lower-case, as CloudEvents extension names must be.
- Exceptions are results: the two `IllegalArgumentException`s of encoding, the format's parse failures and the constructor's `NullPointerException` are error values.
- `EventChangeStreaming` (Spring lifecycle glue around a reactive change-stream subscription), the stream store, the position store and the change subscriber are not part of the core modelled here.
