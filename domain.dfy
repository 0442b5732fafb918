/**
 * The records of the booking database (tenants' services, staff schedules,
 * appointments, boss profiles, staff profiles), the model's clock, and the
 * JavaScript fall-back operators the application applies to their fields.
 *
 * Instants are whole minutes since 1970-01-01T00:00 UTC. A calendar date is
 * a day number counted from that same midnight.
 */
module Domain {
  import opened Wrappers
  import opened Text

  const MinutesPerDay := 1440

  /** The UTC midnight that starts day `day` (`new Date('YYYY-MM-DDT00:00:00.000Z')`). */
  function DayStart(day: int): int { day * MinutesPerDay }

  /** The UTC calendar day an instant falls on. */
  function UtcDay(t: int): int { t / MinutesPerDay }

  /** The UTC wall-clock minute of an instant, in [0, 1440). */
  function MinuteOfDay(t: int): (m: int)
    ensures 0 <= m < MinutesPerDay
  {
    t % MinutesPerDay
  }

  /** `getUTCDay()`: 0 = Sunday … 6 = Saturday; day 0 was a Thursday. */
  function Weekday(day: int): (w: int)
    ensures 0 <= w < 7
  {
    (day + 4) % 7
  }

  /** A minute `m` of day `day` is the instant `DayStart(day) + m`, and back. */
  lemma InstantOfDay(day: int, m: int)
    requires 0 <= m < MinutesPerDay
    ensures UtcDay(DayStart(day) + m) == day
    ensures MinuteOfDay(DayStart(day) + m) == m
  {
    assert DayStart(day) + m == day * MinutesPerDay + m;
  }

  /** Every instant is its day's midnight plus its minute of the day. */
  lemma DaySplit(t: int)
    ensures DayStart(UtcDay(t)) + MinuteOfDay(t) == t
  {
  }

  // ------------------------------------------------- JavaScript fall-backs

  /** A string value as JavaScript tests it: present and non-empty. */
  predicate TruthyString(o: Option<string>) {
    o.Some? && o.value != ""
  }

  /** `a || b` on strings: `b` unless `a` is present and non-empty. */
  function StringOr(a: Option<string>, b: string): (r: string)
    ensures TruthyString(a) ==> r == a.value
    ensures !TruthyString(a) ==> r == b
  {
    if TruthyString(a) then a.value else b
  }

  /** `a || b` on optional strings, as the tenant-id fall-backs use it. */
  function OptionStringOr(a: Option<string>, b: Option<string>): (r: Option<string>)
    ensures TruthyString(a) ==> r == a
    ensures !TruthyString(a) ==> r == b
  {
    if TruthyString(a) then a else b
  }

  /** `a || b` on numbers: `b` unless `a` is present and non-zero. */
  function NumberOr(a: Option<int>, b: int): (r: int)
    ensures a.Some? && a.value != 0 ==> r == a.value
    ensures (a.None? || a.value == 0) ==> r == b
  {
    if a.Some? && a.value != 0 then a.value else b
  }

  // ----------------------------------------------------------- records

  datatype AppointmentStatus = Confirmed | Cancelled | NoShow | Completed

  /** A row of `appointments`; `start` and `end` are instants. */
  datatype Appointment = Appointment(
    id: string,
    tenantId: string,
    staffId: string,
    serviceId: string,
    clientName: string,
    clientPhone: string,
    start: int,
    end: int,
    status: AppointmentStatus,
    bookedVia: string)

  /** A row of `services`. Prices are whole currency units. */
  datatype Service = Service(
    id: string,
    tenantId: string,
    name: string,
    description: Option<string>,
    durationMinutes: int,
    price: int,
    bufferMinutes: Option<int>,
    color: string,
    isActive: bool)

  /** A value of a `time` column read as minutes after midnight (00:00 to 24:00). */
  type ClockMinute = m: int | 0 <= m <= MinutesPerDay

  /** A row of `staff_schedules`: one staff member's hours on one weekday. */
  datatype StaffSchedule = StaffSchedule(
    staffId: string,
    tenantId: string,
    dayOfWeek: int,
    startTime: ClockMinute,
    endTime: ClockMinute,
    isWorking: bool)

  /** A row of `boss_profiles`. */
  datatype BossProfile = BossProfile(
    id: string,
    tenantId: string,
    userId: string,
    bossName: string,
    bossCode: string,
    isActive: bool)

  /** A row of `profiles` (a staff member or an admin). */
  datatype Profile = Profile(
    id: string,
    tenantId: Option<string>,
    fullName: string,
    email: Option<string>,
    phone: Option<string>,
    role: string,
    isActive: bool)

  /** The database tables the core reads, each in the order the query returns it. */
  datatype Store = Store(
    services: seq<Service>,
    schedules: seq<StaffSchedule>,
    appointments: seq<Appointment>,
    bosses: seq<BossProfile>,
    profiles: seq<Profile>)

  /** What the database answers to a write: the id of the row written, or an error message. */
  datatype WriteReply = Saved(id: string) | Failed(message: string)

  /** The object a write action returns: `{ success: true }` or `{ error }`. */
  datatype Response = Success | Failure(error: string)

  /**
   * A case-insensitive substring test on a service name: the JavaScript
   * `name.toLowerCase().includes(query.toLowerCase())`. (The database's
   * `ILIKE` search is `SqlLike.ILike`; the two agree on queries without
   * pattern characters.)
   */
  predicate NameMatches(name: string, query: string) {
    Contains(Lower(name), Lower(query))
  }
}
