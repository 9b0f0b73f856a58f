/** The part of Python's `datetime` the tide code uses. A datetime is its wall-clock
    reading, counted in microseconds from a fixed midnight, plus the UTC offset (also in
    microseconds) when it is timezone-aware. `fromisoformat` and `isoformat` are not
    modelled as text algorithms: they are the two functions of a `Calendar` value that the
    operations take as a parameter. */
module PyDateTime {
  import opened Wrappers

  const MicrosPerMinute: int := 60_000_000
  const MicrosPerHour: int := 3_600_000_000
  const MicrosPerDay: int := 86_400_000_000

  datatype DateTime = DateTime(wallMicros: int, utcOffset: Option<int>)

  /** `dt.hour` */
  function HourOf(d: DateTime): (h: int)
    ensures 0 <= h < 24
  {
    (d.wallMicros / MicrosPerHour) % 24
  }

  /** `dt.minute` */
  function MinuteOf(d: DateTime): (m: int)
    ensures 0 <= m < 60
  {
    (d.wallMicros / MicrosPerMinute) % 60
  }

  /** `dt + timedelta(microseconds=delta)`: wall-clock arithmetic, offset unchanged. */
  function Plus(d: DateTime, delta: int): (r: DateTime)
    ensures r.utcOffset == d.utcOffset
    ensures r.wallMicros - d.wallMicros == delta
  {
    DateTime(d.wallMicros + delta, d.utcOffset)
  }

  /** `datetime.now(timezone.utc)` for a clock reading of `micros`. */
  function UtcNow(micros: int): (d: DateTime)
    ensures d.utcOffset == Some(0) && d.wallMicros == micros
  {
    DateTime(micros, Some(0))
  }

  /** Python's `t > u`: for two aware datetimes, a comparison of the instants they denote;
      comparing an aware with a naive datetime raises TypeError, here None. */
  function IsLater(t: DateTime, u: DateTime): (r: Option<bool>)
    ensures r.Some? <==> (t.utcOffset.Some? == u.utcOffset.Some?)
    ensures t.utcOffset.Some? && u.utcOffset.Some? ==>
      r == Some(t.wallMicros - t.utcOffset.value > u.wallMicros - u.utcOffset.value)
    ensures t.utcOffset.None? && u.utcOffset.None? ==> r == Some(t.wallMicros > u.wallMicros)
  {
    match (t.utcOffset, u.utcOffset)
    case (Some(ot), Some(ou)) => Some(t.wallMicros - ot > u.wallMicros - ou)
    case (None, None) => Some(t.wallMicros > u.wallMicros)
    case _ => None
  }

  /** `datetime.fromisoformat` (None where it raises) and `datetime.isoformat`. */
  datatype Calendar = Calendar(fromIso: string -> Option<DateTime>, isoFormat: DateTime -> string)

  /** `fromisoformat(isoformat(d)) == d`, the inverse property Python documents. */
  ghost predicate IsoRoundTrips(cal: Calendar)
  {
    forall d :: cal.fromIso(cal.isoFormat(d)) == Some(d)
  }
}
