/**
  The part of java.time that the document mapper relies on.

  A ZonedDateTime is kept as its instant (milliseconds since the epoch plus
  the nanoseconds below the millisecond) and the UTC offset in effect. Only
  fixed-offset zones are modelled; named region zones are not.
*/
module JavaTime {
  import opened Ints

  const NANOS_PER_MILLI: int := 1_000_000
  const MILLIS_PER_SECOND: int := 1000
  /** ZoneOffset.MAX and ZoneOffset.MIN are +18:00 and -18:00. */
  const MAX_OFFSET_SECONDS: int := 18 * 3600

  type SubMilliNanos = n: int | 0 <= n < NANOS_PER_MILLI
  type OffsetSeconds = s: int | -MAX_OFFSET_SECONDS <= s <= MAX_OFFSET_SECONDS

  /** ZoneOffset.UTC. */
  const UTC: OffsetSeconds := 0

  datatype ZonedDateTime = ZonedDateTime(epochMillis: int64, subMilliNanos: SubMilliNanos, offsetSeconds: OffsetSeconds)

  /** An OffsetDateTime: the local date-time (as milliseconds since the local epoch) and its offset. */
  datatype OffsetDateTime = OffsetDateTime(localMillis: int, subMilliNanos: SubMilliNanos, offsetSeconds: OffsetSeconds)

  /** `time.truncatedTo(ChronoUnit.MILLIS)`: drops what lies below the millisecond, keeps the zone. */
  function TruncatedToMillis(t: ZonedDateTime): ZonedDateTime {
    t.(subMilliNanos := 0)
  }

  /** `time.withZoneSameInstant(zone)`: the same instant seen from another fixed offset. */
  function WithZoneSameInstant(t: ZonedDateTime, zone: OffsetSeconds): ZonedDateTime {
    t.(offsetSeconds := zone)
  }

  /** The mapper's precision test `time.truncatedTo(MILLIS).equals(time)`: true exactly for whole milliseconds. */
  function IsMillisecondPrecision(t: ZonedDateTime): (b: bool)
    ensures b <==> t.subMilliNanos == 0
  {
    TruncatedToMillis(t) == t
  }

  /** The mapper's zone test `time.equals(time.withZoneSameInstant(UTC))`: true exactly when the offset is UTC. */
  function IsUtc(t: ZonedDateTime): (b: bool)
    ensures b <==> t.offsetSeconds == UTC
  {
    t == WithZoneSameInstant(t, UTC)
  }

  /** `Date.from(time.toInstant()).getTime()`: the instant in whole milliseconds (anything finer is dropped). */
  function ToEpochMilli(t: ZonedDateTime): int64 {
    t.epochMillis
  }

  /** `ZonedDateTime.ofInstant(date.toInstant(), UTC)`. */
  function OfInstantUtc(millis: int64): (t: ZonedDateTime)
    ensures IsMillisecondPrecision(t) && IsUtc(t) && ToEpochMilli(t) == millis
  {
    ZonedDateTime(millis, 0, UTC)
  }

  /** `OffsetDateTime.from(time)`: the local date-time at the time's offset. */
  function OffsetDateTimeFrom(t: ZonedDateTime): OffsetDateTime {
    OffsetDateTime(t.epochMillis + t.offsetSeconds * MILLIS_PER_SECOND, t.subMilliNanos, t.offsetSeconds)
  }

  /** `offsetDateTime.toZonedDateTime()`, for a local date-time whose instant fits the model's range. */
  function ToZonedDateTime(o: OffsetDateTime): ZonedDateTime
    requires INT64_MIN <= o.localMillis - o.offsetSeconds * MILLIS_PER_SECOND <= INT64_MAX
  {
    ZonedDateTime(o.localMillis - o.offsetSeconds * MILLIS_PER_SECOND, o.subMilliNanos, o.offsetSeconds)
  }

  /**
    Storing a time as a native date (its epoch milliseconds) and reading it
    back at UTC gives the same time exactly when the time has millisecond
    precision and is in UTC: the two rules the mapper enforces under DATE.
  */
  lemma NativeDateIsLosslessIff(t: ZonedDateTime)
    ensures OfInstantUtc(ToEpochMilli(t)) == t <==> IsMillisecondPrecision(t) && IsUtc(t)
  {
  }
}
