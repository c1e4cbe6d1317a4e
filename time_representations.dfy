/** How the event store keeps the CloudEvent `time` attribute in MongoDB. */
module TimeRepresentations {

  /** RFC_3339_STRING keeps the text form; DATE stores a native date so that time queries work. */
  datatype TimeRepresentation = Rfc3339String | Date
}
