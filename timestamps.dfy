/** The two time representations the service converts between: the wire type
    google.protobuf.Timestamp and the storage-side time value, with the two
    conversions of the Go protobuf helper package (ptypes.Timestamp turns a
    wire timestamp into a time value, ptypes.TimestampProto the reverse). Both
    conversions validate against the range documented for
    google.protobuf.Timestamp. */
module Timestamps {
  import opened Results

  /** 0001-01-01T00:00:00Z in seconds since the Unix epoch: the earliest valid second. */
  const MinValidSeconds: int := -62135596800
  /** 10000-01-01T00:00:00Z: the first second past the valid range
      (9999-12-31T23:59:59Z is the last valid second). */
  const MaxValidSeconds: int := 253402300800
  const NanosPerSecond: int := 1_000_000_000

  /** google.protobuf.Timestamp: seconds since the epoch and a nanosecond part,
      both as sent by the caller, so either may be out of range. */
  datatype Timestamp = Timestamp(seconds: int, nanos: int)

  /** A time value always has its nanosecond part normalised into one second. */
  type Nanosecond = n: int | 0 <= n < 1_000_000_000

  /** The storage-side time value (Go's time.Time), as seconds since the epoch
      plus the nanosecond within that second. */
  datatype Time = Time(unix: int, nanosecond: Nanosecond)

  /** The reasons the validation of a Timestamp can give, in the order it checks them. */
  datatype TimestampError = NilTimestamp | BeforeMinimum | AfterMaximum | NanosOutOfRange

  /** The validity range of google.protobuf.Timestamp. */
  predicate Valid(ts: Timestamp)
  {
    MinValidSeconds <= ts.seconds < MaxValidSeconds && 0 <= ts.nanos < NanosPerSecond
  }

  /** Validation of a possibly absent (nil) wire timestamp; None means valid. */
  function Validate(ts: Option<Timestamp>): (r: Option<TimestampError>)
    ensures r.None? <==> ts.Some? && Valid(ts.value)
    ensures r == Some(NilTimestamp) <==> ts.None?
  {
    if ts.None? then Some(NilTimestamp)
    else if ts.value.seconds < MinValidSeconds then Some(BeforeMinimum)
    else if ts.value.seconds >= MaxValidSeconds then Some(AfterMaximum)
    else if ts.value.nanos < 0 || ts.value.nanos >= NanosPerSecond then Some(NanosOutOfRange)
    else None
  }

  /** ptypes.Timestamp: a wire timestamp becomes a time value exactly when it
      is present and valid, and then denotes the same instant. */
  function ToTime(ts: Option<Timestamp>): (r: Result<Time, TimestampError>)
    ensures r.Ok? <==> ts.Some? && Valid(ts.value)
    ensures r.Ok? ==> r.value.unix == ts.value.seconds && r.value.nanosecond == ts.value.nanos
    ensures r.Err? ==> Validate(ts) == Some(r.error)
  {
    match Validate(ts)
    case Some(why) => Err(why)
    case None => Ok(Time(ts.value.seconds, ts.value.nanos))
  }

  /** ptypes.TimestampProto: a time value becomes a wire timestamp exactly when
      its second lies in the valid range; converting that timestamp back gives
      the same time value. */
  function FromTime(t: Time): (r: Result<Timestamp, TimestampError>)
    ensures r.Ok? <==> MinValidSeconds <= t.unix < MaxValidSeconds
    ensures r.Ok? ==> Valid(r.value) && ToTime(Some(r.value)) == Ok(t)
    ensures r.Err? ==> r.error == BeforeMinimum || r.error == AfterMaximum
  {
    var ts := Timestamp(t.unix, t.nanosecond);
    match Validate(Some(ts))
    case Some(why) => Err(why)
    case None => Ok(ts)
  }

  /** Wire to storage and back is the identity on valid timestamps. */
  lemma WireRoundTrip(ts: Timestamp)
    requires Valid(ts)
    ensures ToTime(Some(ts)).Ok? && FromTime(ToTime(Some(ts)).value) == Ok(ts)
  {
  }
}
