/**
 * The ISO 8601 date-time strings the language model passes as
 * `start_time`, in structured form: a calendar date, a wall-clock minute
 * and what follows the time. `new Date(s).getTime()` becomes `Instant`.
 */
module IsoTime {
  import opened Wrappers
  import opened Domain

  /**
   * What follows the time of day: nothing, `Z`, `+hh:mm`, `-hh:mm`, or
   * `-hh:mm` with a `Z` appended after it. Offsets are in minutes.
   */
  datatype Zone = NoZone | Zulu | Plus(offset: int) | Minus(offset: int) | MinusZ(offset: int)

  /** `date` is a day number, `clock` the minutes after midnight written in the string. */
  datatype StartTime = StartTime(date: int, clock: int, zone: Zone)

  /** `s.endsWith('Z')` */
  predicate EndsWithZ(z: Zone) {
    z.Zulu? || z.MinusZ?
  }

  /** `s.includes('+')`: only an east-of-UTC offset writes a plus sign. */
  predicate HasPlus(z: Zone) {
    z.Plus?
  }

  /** `s + 'Z'`, for a string that does not end in `Z` and holds no `+`. */
  function AppendZ(z: Zone): (r: Zone)
    requires !EndsWithZ(z) && !HasPlus(z)
    ensures EndsWithZ(r)
  {
    match z
    case NoZone => Zulu
    case Minus(o) => MinusZ(o)
  }

  /** The normalisation before booking: append `Z` unless the string ends in `Z` or holds a `+`. */
  function Normalize(t: StartTime): (r: StartTime)
    ensures r.date == t.date && r.clock == t.clock
    ensures EndsWithZ(r.zone) || HasPlus(r.zone)
  {
    if EndsWithZ(t.zone) || HasPlus(t.zone) then t else t.(zone := AppendZ(t.zone))
  }

  /** Normalising twice is normalising once, and a string with `Z` or `+` is left alone. */
  lemma NormalizeIdempotent(t: StartTime)
    ensures Normalize(Normalize(t)) == Normalize(t)
    ensures (EndsWithZ(t.zone) || HasPlus(t.zone)) <==> Normalize(t) == t
  {
  }

  /**
   * `new Date(s).getTime()` in minutes: a string without a zone is read in
   * the runtime's local time, `localOffset` minutes east of UTC; an offset
   * followed by `Z` is not a date-time and gives an invalid date.
   */
  function Instant(t: StartTime, localOffset: int): (r: Option<int>)
    ensures t.zone.MinusZ? <==> r.None?
    ensures t.zone.Zulu? ==> r == Some(DayStart(t.date) + t.clock)
    ensures t.zone.Plus? ==> r == Some(DayStart(t.date) + t.clock - t.zone.offset)
  {
    var wall := DayStart(t.date) + t.clock;
    match t.zone
    case NoZone => Some(wall - localOffset)
    case Zulu => Some(wall)
    case Plus(o) => Some(wall - o)
    case Minus(o) => Some(wall + o)
    case MinusZ(_) => None
  }

  /** After normalisation the runtime's own time zone no longer matters. */
  lemma NormalizedInstantIsAbsolute(t: StartTime, offset1: int, offset2: int)
    ensures Instant(Normalize(t), offset1) == Instant(Normalize(t), offset2)
  {
  }

  /**
   * A UTC time of day read back: a `Z` string (or one without a zone, once
   * normalised) whose clock is a minute of the day lands on its own date at
   * that minute.
   */
  lemma ZuluInstant(t: StartTime, localOffset: int)
    requires t.zone.Zulu? || t.zone.NoZone?
    requires 0 <= t.clock < MinutesPerDay
    ensures
      var i := Instant(Normalize(t), localOffset);
      i.Some? && UtcDay(i.value) == t.date && MinuteOfDay(i.value) == t.clock
  {
    InstantOfDay(t.date, t.clock);
  }
}
