/**
  A CloudEvent (CloudEvents 1.0) with the attributes the store keeps, and
  the two Occurrent extensions that place an event in a stream.
*/
module CloudEvents {
  import opened Wrappers
  import opened Ints
  import opened JavaTime

  const SPEC_VERSION_1_0: string := "1.0"

  // Context attribute names of CloudEvents 1.0
  const SPECVERSION: string := "specversion"
  const ID: string := "id"
  const SOURCE: string := "source"
  const TYPE: string := "type"
  const DATACONTENTTYPE: string := "datacontenttype"
  const DATASCHEMA: string := "dataschema"
  const SUBJECT: string := "subject"
  const TIME: string := "time"
  const DATA: string := "data"

  const CONTEXT_ATTRIBUTE_NAMES: set<string> :=
    {SPECVERSION, ID, SOURCE, TYPE, DATACONTENTTYPE, DATASCHEMA, SUBJECT, TIME, DATA}

  // The Occurrent extensions (OccurrentCloudEventExtension)
  const STREAM_ID: string := "streamid"
  const STREAM_VERSION: string := "streamversion"

  /** The extension values this model represents: String, Boolean, Integer and Long (the kinds the stream extensions use). */
  datatype ExtensionValue =
    | ExtString(s: string)
    | ExtBoolean(b: bool)
    | ExtInteger(i: int32)
    | ExtLong(l: int64)

  datatype CloudEvent = CloudEvent(
    id: string,
    source: string,
    eventType: string,
    dataContentType: Option<string>,
    dataSchema: Option<string>,
    subject: Option<string>,
    time: Option<ZonedDateTime>,
    data: Option<seq<bv8>>,
    extensions: map<string, ExtensionValue>)

  predicate IsLowerAlphanumeric(c: char) {
    'a' <= c <= 'z' || '0' <= c <= '9'
  }

  /** CloudEvents 1.0: an extension name is non-empty lower-case letters and digits, and is no context attribute's name. */
  predicate ValidExtensionName(name: string) {
    && |name| > 0
    && (forall i :: 0 <= i < |name| ==> IsLowerAlphanumeric(name[i]))
    && name !in CONTEXT_ATTRIBUTE_NAMES
  }

  /** `CloudEventBuilder.v1(e).withExtension(name, value).build()`. */
  function WithExtension(e: CloudEvent, name: string, value: ExtensionValue): (r: CloudEvent)
    ensures r.extensions.Keys == e.extensions.Keys + {name}
    ensures r.extensions[name] == value
    ensures forall n :: n in e.extensions && n != name ==> r.extensions[n] == e.extensions[n]
    ensures r.(extensions := e.extensions) == e
  {
    e.(extensions := e.extensions[name := value])
  }

  lemma StreamExtensionNamesAreValid()
    ensures ValidExtensionName(STREAM_ID) && ValidExtensionName(STREAM_VERSION)
  {
    assert STREAM_ID == ['s', 't', 'r', 'e', 'a', 'm', 'i', 'd'];
    assert STREAM_VERSION == ['s', 't', 'r', 'e', 'a', 'm', 'v', 'e', 'r', 's', 'i', 'o', 'n'];
  }
}
