/**
 * Timestamp resolution for one event: the client's wire timestamp when it is
 * present and converts, the receipt time otherwise, presented in UTC.
 */
module Timestamps {
  import opened Wrappers
  import opened Errors

  /** The protocol's wire timestamp: seconds and nanoseconds since the Unix epoch. */
  datatype WireTimestamp = WireTimestamp(seconds: int, nanos: int)

  /** The location a time value is presented in. */
  datatype Zone = UTC | Local | Named(name: string)

  /** A time value: an instant, in nanoseconds since the Unix epoch, and the zone it is shown in. */
  datatype Time = Time(unixNanos: int, zone: Zone)

  /** The library conversion of a wire timestamp; it may reject the timestamp with a message. */
  type Converter = WireTimestamp -> Result<Time, string>

  /** Two time values denote the same instant whatever zone they are shown in. */
  predicate SameInstant(a: Time, b: Time) {
    a.unixNanos == b.unixNanos
  }

  /** Presenting a time value in UTC moves it to the UTC zone and keeps its instant. */
  function InUTC(t: Time): (u: Time)
    ensures SameInstant(u, t) && u.zone == UTC
  {
    t.(zone := UTC)
  }

  /**
   * The instant `post` hands to the sink: the converted wire timestamp when
   * there is one, the current time `now` when there is none, in either case
   * presented in UTC. A wire timestamp that does not convert is an error and
   * no instant is produced.
   */
  function DeliveryTime(convert: Converter, ts: Option<WireTimestamp>, now: Time): (r: Result<Time, Error>)
    ensures r.Err? <==> ts.Some? && convert(ts.value).Err?
    ensures r.Err? ==> r.error == TimestampError(convert(ts.value).error)
    ensures r.Ok? ==> r.value.zone == UTC
    ensures r.Ok? && ts.Some? ==> SameInstant(r.value, convert(ts.value).value)
    ensures ts.None? ==> r.Ok? && SameInstant(r.value, now)
  {
    match ts
    case None => Ok(InUTC(now))
    case Some(w) =>
      match convert(w)
      case Err(msg) => Err(TimestampError(msg))
      case Ok(t) => Ok(InUTC(t))
  }

  /** A present wire timestamp takes precedence: the clock reading plays no part. */
  lemma ClientTimestampIgnoresClock(convert: Converter, w: WireTimestamp, now1: Time, now2: Time)
    ensures DeliveryTime(convert, Some(w), now1) == DeliveryTime(convert, Some(w), now2)
  {
  }
}
