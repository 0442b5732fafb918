/**
 * Slot availability for one service on one date (`getAvailableSlots`).
 *
 * The day's working rows are laid over a 30-minute grid that starts at the
 * earliest row start and stops before the latest row end (never past the
 * end of the day). A grid instant is offered when some row, taken in the
 * order the store returns them, covers the whole service duration and its
 * staff member has no overlapping booking that was not cancelled; the
 * first such row names the staff member recorded for that label.
 *
 * Slot labels are the UTC minute of the day: the rendered `h:mm AM/PM`
 * string is a one-to-one function of it.
 */
module Availability {
  import opened Wrappers
  import opened Seqs
  import opened Domain
  import opened SqlLike

  /** Minutes between two candidate slot starts. */
  const SlotStep := 30

  /** The duration assumed for a service whose `duration_minutes` is 0. */
  const DefaultDuration := 60

  /** A booked interval [start, end) of one staff member. */
  datatype Interval = Interval(start: int, end: int)

  /** `service.duration_minutes || 60` */
  function Duration(minutes: int): int {
    if minutes != 0 then minutes else DefaultDuration
  }

  // ------------------------------------------------------ store queries

  /**
   * A service the query selects: this tenant's, whose name matches the
   * filter `ilike('name', '%query%')`, PostgREST reading each `*` as `%`.
   */
  predicate Serves(s: Service, tenant: string, query: string) {
    s.tenantId == tenant && ILike(s.name, StarAsPercent(ContainsPattern(query)))
  }

  function ServesQuery(tenant: string, query: string): Service -> bool {
    s => Serves(s, tenant, query)
  }

  /** The service query (`limit(1)`): the first service it selects. */
  function FindService(services: seq<Service>, tenant: string, query: string): Option<nat> {
    FirstIndex(services, ServesQuery(tenant, query))
  }

  /**
   * A query without `%`, `_`, backslash or `*` selects exactly the
   * tenant's services whose lower-cased name contains the lower-cased query.
   */
  lemma LiteralQuerySelects(services: seq<Service>, tenant: string, query: string)
    requires Literal(query) && NoStar(query)
    ensures FindService(services, tenant, query)
         == FirstIndex(services, (s: Service) => s.tenantId == tenant && NameMatches(s.name, query))
  {
    StarlessUnchanged(query);
    forall i | 0 <= i < |services| {
      ILikeLiteral(services[i].name, query);
    }
    FirstIndexAgree(services, ServesQuery(tenant, query), (s: Service) => s.tenantId == tenant && NameMatches(s.name, query));
  }

  /** The query `%` selects the tenant's first service, whatever its name. */
  lemma PercentQuerySelectsAny(services: seq<Service>, tenant: string)
    ensures FindService(services, tenant, "%") == FirstIndex(services, (s: Service) => s.tenantId == tenant)
  {
    assert NoStar("%");
    StarlessUnchanged("%");
    forall i | 0 <= i < |services| {
      PercentMatchesAll(services[i].name);
    }
    FirstIndexAgree(services, ServesQuery(tenant, "%"), (s: Service) => s.tenantId == tenant);
  }

  /** So does the query `*`, which PostgREST turns into `%`. */
  lemma StarQuerySelectsAny(services: seq<Service>, tenant: string)
    ensures FindService(services, tenant, "*") == FirstIndex(services, (s: Service) => s.tenantId == tenant)
  {
    StarIsPercent();
    forall i | 0 <= i < |services| {
      PercentMatchesAll(services[i].name);
    }
    FirstIndexAgree(services, ServesQuery(tenant, "*"), (s: Service) => s.tenantId == tenant);
  }

  /** A schedule row the day's query returns. */
  predicate OnShift(row: StaffSchedule, tenant: string, weekday: int) {
    row.tenantId == tenant && row.dayOfWeek == weekday && row.isWorking
  }

  function OnShiftOf(tenant: string, weekday: int): StaffSchedule -> bool {
    row => OnShift(row, tenant, weekday)
  }

  /** The working rows of the tenant on the weekday of `day`. */
  function Shifts(schedules: seq<StaffSchedule>, tenant: string, day: int): seq<StaffSchedule> {
    Filter(schedules, OnShiftOf(tenant, Weekday(day)))
  }

  /** An appointment the day's query returns: this tenant's, not cancelled, starting on `day`. */
  predicate Blocks(a: Appointment, tenant: string, day: int) {
    a.tenantId == tenant && a.status != Cancelled && DayStart(day) <= a.start < DayStart(day + 1)
  }

  function BlocksOn(tenant: string, day: int): Appointment -> bool {
    a => Blocks(a, tenant, day)
  }

  function DayAppointments(apts: seq<Appointment>, tenant: string, day: int): seq<Appointment> {
    Filter(apts, BlocksOn(tenant, day))
  }

  // ---------------------------------------------------------- busy map

  /** The intervals of `staff`'s appointments, in the order the list holds them. */
  function BusyOf(apts: seq<Appointment>, staff: string): seq<Interval>
    decreases |apts|
  {
    if apts == [] then []
    else
      var a := apts[|apts| - 1];
      BusyOf(apts[..|apts| - 1], staff) + (if a.staffId == staff then [Interval(a.start, a.end)] else [])
  }

  /** `busyMap` after the `forEach`: each appointment pushed onto its staff member's list. */
  function BusyMap(apts: seq<Appointment>): map<string, seq<Interval>>
    decreases |apts|
  {
    if apts == [] then map[]
    else
      var a := apts[|apts| - 1];
      var m := BusyMap(apts[..|apts| - 1]);
      m[a.staffId := Lookup(m, a.staffId) + [Interval(a.start, a.end)]]
  }

  /** `busyMap[id] || []` */
  function Lookup(busy: map<string, seq<Interval>>, staff: string): seq<Interval> {
    if staff in busy then busy[staff] else []
  }

  /** The overlap test `t < b.end && e > b.start`. */
  predicate Overlaps(b: Interval, t: int, e: int) {
    t < b.end && e > b.start
  }

  /** `busyList.some(...)` */
  predicate AnyOverlap(list: seq<Interval>, t: int, e: int) {
    exists k :: 0 <= k < |list| && Overlaps(list[k], t, e)
  }

  /** An appointment of `staff` in `apts` overlaps [t, e). */
  predicate Clashes(apts: seq<Appointment>, staff: string, t: int, e: int) {
    exists i :: 0 <= i < |apts| && apts[i].staffId == staff && Overlaps(Interval(apts[i].start, apts[i].end), t, e)
  }

  /** Looking a staff member up in the busy map gives exactly that member's intervals. */
  lemma {:induction false} LookupBusyMap(apts: seq<Appointment>, staff: string)
    ensures Lookup(BusyMap(apts), staff) == BusyOf(apts, staff)
    decreases |apts|
  {
    if apts != [] {
      LookupBusyMap(apts[..|apts| - 1], staff);
    }
  }

  /** A staff member's busy list overlaps [t, e) exactly when one of that member's appointments does. */
  lemma {:induction false} BusyOfOverlap(apts: seq<Appointment>, staff: string, t: int, e: int)
    ensures AnyOverlap(BusyOf(apts, staff), t, e) <==> Clashes(apts, staff, t, e)
    decreases |apts|
  {
    if apts != [] {
      var init := apts[..|apts| - 1];
      var a := apts[|apts| - 1];
      var tail := if a.staffId == staff then [Interval(a.start, a.end)] else [];
      BusyOfOverlap(init, staff, t, e);
      var list := BusyOf(apts, staff);
      assert list == BusyOf(init, staff) + tail;
      if AnyOverlap(list, t, e) {
        var k :| 0 <= k < |list| && Overlaps(list[k], t, e);
        if k < |BusyOf(init, staff)| {
          assert Overlaps(BusyOf(init, staff)[k], t, e);
          var i :| 0 <= i < |init| && init[i].staffId == staff && Overlaps(Interval(init[i].start, init[i].end), t, e);
          assert apts[i] == init[i];
        } else {
          assert apts[|apts| - 1].staffId == staff;
        }
      }
      if Clashes(apts, staff, t, e) {
        var i :| 0 <= i < |apts| && apts[i].staffId == staff && Overlaps(Interval(apts[i].start, apts[i].end), t, e);
        if i < |init| {
          assert init[i] == apts[i];
          var k :| 0 <= k < |BusyOf(init, staff)| && Overlaps(BusyOf(init, staff)[k], t, e);
          assert list[k] == BusyOf(init, staff)[k];
        } else {
          assert list[|list| - 1] == Interval(a.start, a.end);
        }
      }
    }
  }

  /** Fills the busy map, one appointment at a time, as the `forEach` does. */
  method BuildBusyMap(apts: seq<Appointment>) returns (busy: map<string, seq<Interval>>)
    ensures busy == BusyMap(apts)
  {
    busy := map[];
    for i := 0 to |apts|
      invariant busy == BusyMap(apts[..i])
    {
      var a := apts[i];
      if a.staffId !in busy {
        busy := busy[a.staffId := []];
      }
      busy := busy[a.staffId := busy[a.staffId] + [Interval(a.start, a.end)]];
      assert apts[..i + 1][..i] == apts[..i];
    }
    assert apts[..|apts|] == apts;
  }

  // --------------------------------------------------------- day bounds

  /** `minStart`: the earliest row start, or 24:00 when there are no rows. */
  function MinStart(rows: seq<StaffSchedule>): (m: int)
    ensures 0 <= m <= MinutesPerDay
    ensures forall i :: 0 <= i < |rows| ==> m <= rows[i].startTime
    ensures m == MinutesPerDay || exists i :: 0 <= i < |rows| && rows[i].startTime == m
    decreases |rows|
  {
    if rows == [] then MinutesPerDay
    else
      var m := MinStart(rows[..|rows| - 1]);
      var s := rows[|rows| - 1].startTime;
      if s < m then s else m
  }

  /** `maxEnd`: the latest row end, or 00:00 when there are no rows. */
  function MaxEnd(rows: seq<StaffSchedule>): (m: int)
    ensures 0 <= m <= MinutesPerDay
    ensures forall i :: 0 <= i < |rows| ==> rows[i].endTime <= m
    ensures m == 0 || exists i :: 0 <= i < |rows| && rows[i].endTime == m
    decreases |rows|
  {
    if rows == [] then 0
    else
      var m := MaxEnd(rows[..|rows| - 1]);
      var e := rows[|rows| - 1].endTime;
      if e > m then e else m
  }

  /** Scans the rows for the global opening and closing minute. */
  method DayBounds(rows: seq<StaffSchedule>) returns (minStart: int, maxEnd: int)
    ensures minStart == MinStart(rows) && maxEnd == MaxEnd(rows)
  {
    minStart, maxEnd := MinutesPerDay, 0;
    for i := 0 to |rows|
      invariant minStart == MinStart(rows[..i]) && maxEnd == MaxEnd(rows[..i])
    {
      assert rows[..i + 1][..i] == rows[..i];
      var s := rows[i];
      if s.startTime < minStart {
        minStart := s.startTime;
      }
      if s.endTime > maxEnd {
        maxEnd := s.endTime;
      }
    }
    assert rows[..|rows|] == rows;
  }

  // --------------------------------------------------------------- grid

  /** What the grid loop consults: the day's rows, the busy map, the date and the duration. */
  datatype Grid = Grid(rows: seq<StaffSchedule>, busy: map<string, seq<Interval>>, day: int, duration: int)

  /** The `find` callback: the row covers [t, t + duration) and its staff is free then. */
  predicate Fits(g: Grid, row: StaffSchedule, t: int) {
    !(t < DayStart(g.day) + row.startTime || t + g.duration > DayStart(g.day) + row.endTime)
      && !AnyOverlap(Lookup(g.busy, row.staffId), t, t + g.duration)
  }

  /** The first row at or after `from` that fits at `t`; `FirstFitSpec` says which. */
  function FirstFit(g: Grid, t: int, from: nat): (r: Option<nat>)
    requires from <= |g.rows|
    ensures r.Some? ==> from <= r.value < |g.rows|
    decreases |g.rows| - from
  {
    if from == |g.rows| then None
    else if Fits(g, g.rows[from], t) then Some(from)
    else FirstFit(g, t, from + 1)
  }

  /** `find`: the row found fits and every row before it fails; without one, every row fails. */
  lemma {:induction false} FirstFitSpec(g: Grid, t: int, from: nat)
    requires from <= |g.rows|
    ensures var r := FirstFit(g, t, from);
      && (r.Some? ==> Fits(g, g.rows[r.value], t) && forall j :: from <= j < r.value ==> !Fits(g, g.rows[j], t))
      && (r.None? ==> forall j :: from <= j < |g.rows| ==> !Fits(g, g.rows[j], t))
    decreases |g.rows| - from
  {
    if from < |g.rows| && !Fits(g, g.rows[from], t) {
      FirstFitSpec(g, t, from + 1);
    }
  }

  /** `schedules.find(...)` at grid instant `t`. */
  function FreeRow(g: Grid, t: int): Option<nat> {
    FirstFit(g, t, 0)
  }

  /** The accumulated `availableSlots` and `foundStaff`. */
  datatype Slots = Slots(labels: seq<int>, staffMap: map<int, string>)

  /** One iteration of the grid loop at instant `t`. */
  function Visit(g: Grid, t: int, acc: Slots): Slots {
    match FreeRow(g, t)
    case None => acc
    case Some(i) =>
      var key := MinuteOfDay(t);
      if key in acc.labels then acc
      else Slots(acc.labels + [key], acc.staffMap[key := g.rows[i].staffId])
  }

  /** The grid loop from `t` (inclusive) to `close` (exclusive). */
  function Scan(g: Grid, t: int, close: int, acc: Slots): Slots
    decreases close - t
  {
    if t >= close then acc else Scan(g, t + SlotStep, close, Visit(g, t, acc))
  }

  /** The loop over the 30-minute grid, pushing each new label with its first free staff member. */
  method ScanGrid(g: Grid, open: int, close: int) returns (acc: Slots)
    ensures acc == Scan(g, open, close, Slots([], map[]))
  {
    var labels: seq<int>, staffMap: map<int, string> := [], map[];
    var time := open;
    while time < close
      invariant Scan(g, time, close, Slots(labels, staffMap)) == Scan(g, open, close, Slots([], map[]))
      decreases close - time
    {
      var free := FreeRow(g, time);
      if free.Some? {
        var key := MinuteOfDay(time);
        if key !in labels {
          labels := labels + [key];
          staffMap := staffMap[key := g.rows[free.value].staffId];
        }
      }
      time := time + SlotStep;
    }
    acc := Slots(labels, staffMap);
  }

  // -------------------------------------------------------------- result

  /** The object `getAvailableSlots` returns, one variant per return statement. */
  datatype SlotsResult =
    | NoTenant
    | ServiceNotFound(query: string)
    | NoStaffWorking(day: int)
    | ClosedDay(day: int)
    | Open(day: int, slots: seq<int>, serviceId: string, staffMap: map<int, string>)
  {
    /** The `error` field. */
    function Error(): Option<string> {
      match this
      case NoTenant => Some("No tenant")
      case ServiceNotFound(q) => Some("Service \"" + q + "\" not found")
      case NoStaffWorking(_) => Some("No staff working on this day")
      case _ => None
    }

    /** The `available_slots` field, empty where the result has none. */
    function AvailableSlots(): seq<int> {
      if Open? then slots else []
    }

    /** `staff_map[label]`, absent where the result has no map. */
    function StaffAt(key: int): Option<string> {
      if Open? && key in staffMap then Some(staffMap[key]) else None
    }
  }

  /** `tenantId || getCurrentTenantId()` */
  function Tenant(tenantArg: Option<string>, session: Option<string>): Option<string> {
    OptionStringOr(tenantArg, session)
  }

  /** The grid for `service` on `day`. */
  function GridFor(store: Store, tenant: string, day: int, service: Service): Grid {
    Grid(Shifts(store.schedules, tenant, day),
         BusyMap(DayAppointments(store.appointments, tenant, day)),
         day, Duration(service.durationMinutes))
  }

  /** `Math.min(base + maxEnd, base + 24h)` */
  function GridClose(day: int, maxEnd: int): int {
    var capped := if maxEnd < MinutesPerDay then maxEnd else MinutesPerDay;
    DayStart(day) + capped
  }

  /** The result on a day whose rows open before they close: the grid loop's output. */
  function OpenDay(g: Grid, serviceId: string): SlotsResult {
    var acc := Scan(g, DayStart(g.day) + MinStart(g.rows), GridClose(g.day, MaxEnd(g.rows)), Slots([], map[]));
    Open(g.day, acc.labels, serviceId, acc.staffMap)
  }

  /** The result once the tenant and the service are known. */
  function ForService(store: Store, tenant: string, day: int, service: Service): SlotsResult {
    var g := GridFor(store, tenant, day, service);
    if g.rows == [] then NoStaffWorking(day)
    else if MinStart(g.rows) >= MaxEnd(g.rows) then ClosedDay(day)
    else OpenDay(g, service.id)
  }

  /** The result of `getAvailableSlots(date, query, tenantArg)` against `store`. */
  function SlotsFor(store: Store, tenantArg: Option<string>, session: Option<string>, day: int, query: string): SlotsResult {
    var tenant := Tenant(tenantArg, session);
    if !TruthyString(tenant) then NoTenant
    else match FindService(store.services, tenant.value, query)
      case None => ServiceNotFound(query)
      case Some(k) => ForService(store, tenant.value, day, store.services[k])
  }

  /** `getAvailableSlots`, step by step. */
  method GetAvailableSlots(store: Store, tenantArg: Option<string>, session: Option<string>, day: int, query: string)
    returns (r: SlotsResult)
    ensures r == SlotsFor(store, tenantArg, session, day, query)
  {
    var tenant := Tenant(tenantArg, session);
    if !TruthyString(tenant) {
      return NoTenant;
    }
    var k := FindService(store.services, tenant.value, query);
    if k.None? {
      return ServiceNotFound(query);
    }
    var service := store.services[k.value];
    var duration := Duration(service.durationMinutes);
    var rows := Shifts(store.schedules, tenant.value, day);
    if rows == [] {
      return NoStaffWorking(day);
    }
    var busy := BuildBusyMap(DayAppointments(store.appointments, tenant.value, day));
    var minStart, maxEnd := DayBounds(rows);
    if minStart >= maxEnd {
      return ClosedDay(day);
    }
    var base := DayStart(day);
    var open := base + minStart;
    var close := if base + maxEnd < base + MinutesPerDay then base + maxEnd else base + MinutesPerDay;
    var g := Grid(rows, busy, day, duration);
    assert g == GridFor(store, tenant.value, day, service);
    assert open == DayStart(g.day) + MinStart(g.rows);
    assert close == GridClose(g.day, MaxEnd(g.rows));
    var acc := ScanGrid(g, open, close);
    r := Open(day, acc.labels, service.id, acc.staffMap);
    OpenDayIs(g, open, close, service.id, acc);
    SlotsForService(store, tenantArg, session, day, query, tenant.value, k.value);
    ForServiceOpen(store, tenant.value, day, service);
  }

  lemma OpenDayIs(g: Grid, open: int, close: int, serviceId: string, acc: Slots)
    requires open == DayStart(g.day) + MinStart(g.rows)
    requires close == GridClose(g.day, MaxEnd(g.rows))
    requires acc == Scan(g, open, close, Slots([], map[]))
    ensures Open(g.day, acc.labels, serviceId, acc.staffMap) == OpenDay(g, serviceId)
  {
    var acc' := Scan(g, DayStart(g.day) + MinStart(g.rows), GridClose(g.day, MaxEnd(g.rows)), Slots([], map[]));
    assert acc' == acc;
  }

  // ------------------------------------------------------ grid invariant

  /** `m` is a grid minute: at or after `lo`, a whole number of steps from it. */
  predicate OnGrid(lo: int, m: int) {
    lo <= m && (m - lo) % SlotStep == 0
  }

  /** The staff member the grid offers at minute `m` of its day. */
  function SlotStaff(g: Grid, m: int): Option<string> {
    match FreeRow(g, DayStart(g.day) + m)
    case None => None
    case Some(i) => Some(g.rows[i].staffId)
  }

  predicate Offerable(g: Grid, m: int) {
    SlotStaff(g, m).Some?
  }

  /**
   * What the grid loop has built once it reaches minute `m`: ascending
   * grid labels below `m` and `hi`, exactly the map's keys, each mapped to
   * the grid's first free staff member, and every offerable grid minute
   * below `m` and `hi` among them.
   */
  ghost predicate ScanInv(g: Grid, lo: int, hi: int, m: int, acc: Slots) {
    && (forall i :: 0 <= i < |acc.labels| ==> OnGrid(lo, acc.labels[i]) && acc.labels[i] < m && acc.labels[i] < hi)
    && (forall i, j :: 0 <= i < j < |acc.labels| ==> acc.labels[i] < acc.labels[j])
    && (forall k :: k in acc.staffMap <==> k in acc.labels)
    && (forall i :: 0 <= i < |acc.labels| ==> SlotStaff(g, acc.labels[i]) == Some(acc.staffMap[acc.labels[i]]))
    && (forall x :: OnGrid(lo, x) && x < m && x < hi && Offerable(g, x) ==> x in acc.staffMap)
  }

  /** Two grid minutes less than a step apart are the same minute. */
  lemma GridGap(lo: int, m: int, x: int)
    requires OnGrid(lo, m) && OnGrid(lo, x) && m <= x < m + SlotStep
    ensures x == m
  {
    var a, b := (m - lo) / SlotStep, (x - lo) / SlotStep;
    assert m - lo == SlotStep * a;
    assert x - lo == SlotStep * b;
  }

  /** One iteration of the grid loop keeps `ScanInv`, one step further on. */
  lemma VisitKeeps(g: Grid, lo: int, hi: int, m: int, acc: Slots)
    requires 0 <= lo && hi <= MinutesPerDay
    requires OnGrid(lo, m) && m < hi
    requires ScanInv(g, lo, hi, m, acc)
    ensures ScanInv(g, lo, hi, m + SlotStep, Visit(g, DayStart(g.day) + m, acc))
  {
    InstantOfDay(g.day, m);
    forall x | OnGrid(lo, x) && m <= x < m + SlotStep
      ensures x == m
    {
      GridGap(lo, m, x);
    }
    if FreeRow(g, DayStart(g.day) + m).None? {
      assert !Offerable(g, m);
    } else {
      VisitAdds(g, lo, hi, m, acc);
    }
  }

  /** A grid minute with a free row is appended, and nothing already there changes. */
  lemma VisitAdds(g: Grid, lo: int, hi: int, m: int, acc: Slots)
    requires 0 <= lo && hi <= MinutesPerDay
    requires OnGrid(lo, m) && m < hi
    requires ScanInv(g, lo, hi, m, acc)
    requires FreeRow(g, DayStart(g.day) + m).Some?
    requires forall x :: OnGrid(lo, x) && m <= x < m + SlotStep ==> x == m
    ensures ScanInv(g, lo, hi, m + SlotStep, Visit(g, DayStart(g.day) + m, acc))
  {
    InstantOfDay(g.day, m);
    var i := FreeRow(g, DayStart(g.day) + m).value;
    var next := Visit(g, DayStart(g.day) + m, acc);
    assert m !in acc.labels;
    assert next == Slots(acc.labels + [m], acc.staffMap[m := g.rows[i].staffId]);
    assert SlotStaff(g, m) == Some(g.rows[i].staffId);
    forall k | 0 <= k < |acc.labels|
      ensures next.staffMap[acc.labels[k]] == acc.staffMap[acc.labels[k]]
    {
      assert acc.labels[k] != m;
    }
  }

  /** The grid loop, run from minute `m` to `hi`, ends in `ScanInv` at `hi`. */
  lemma {:induction false} ScanKeeps(g: Grid, lo: int, hi: int, m: int, acc: Slots)
    requires 0 <= lo && hi <= MinutesPerDay
    requires OnGrid(lo, m)
    requires ScanInv(g, lo, hi, m, acc)
    ensures ScanInv(g, lo, hi, hi, Scan(g, DayStart(g.day) + m, DayStart(g.day) + hi, acc))
    decreases hi - m
  {
    if m < hi {
      VisitKeeps(g, lo, hi, m, acc);
      assert DayStart(g.day) + m + SlotStep == DayStart(g.day) + (m + SlotStep);
      OnGridNext(lo, m);
      ScanKeeps(g, lo, hi, m + SlotStep, Visit(g, DayStart(g.day) + m, acc));
    }
  }

  /** The grid point after a grid point is on the grid. */
  lemma OnGridNext(lo: int, m: int)
    requires OnGrid(lo, m)
    ensures OnGrid(lo, m + SlotStep)
  {
    assert (m + SlotStep - lo) % SlotStep == (m - lo) % SlotStep;
  }

  /** The whole grid loop of an open day ends in `ScanInv` at the latest row end. */
  lemma OpenDayInv(g: Grid, serviceId: string)
    requires MinStart(g.rows) < MaxEnd(g.rows)
    ensures
      var r := OpenDay(g, serviceId);
      ScanInv(g, MinStart(g.rows), MaxEnd(g.rows), MaxEnd(g.rows), Slots(r.slots, r.staffMap))
  {
    var lo, hi := MinStart(g.rows), MaxEnd(g.rows);
    assert GridClose(g.day, hi) == DayStart(g.day) + hi;
    ScanKeeps(g, lo, hi, lo, Slots([], map[]));
  }

  // ---------------------------------------------------- what is offered

  /**
   * Row `row` can take a booking of `d` minutes at minute `m` of `day`: its
   * hours cover [m, m + d) and none of its staff member's appointments in
   * `apts` overlaps that interval.
   */
  predicate Free(apts: seq<Appointment>, row: StaffSchedule, day: int, m: int, d: int) {
    row.startTime <= m && m + d <= row.endTime
      && !Clashes(apts, row.staffId, DayStart(day) + m, DayStart(day) + m + d)
  }

  /** The `find` callback, read against the appointments the busy map was built from. */
  lemma FitsMeaning(g: Grid, apts: seq<Appointment>, row: StaffSchedule, m: int)
    requires g.busy == BusyMap(apts)
    ensures Fits(g, row, DayStart(g.day) + m) <==> Free(apts, row, g.day, m, g.duration)
  {
    var t := DayStart(g.day) + m;
    LookupBusyMap(apts, row.staffId);
    BusyOfOverlap(apts, row.staffId, t, t + g.duration);
  }

  /**
   * An open day's slots lie on the 30-minute grid from the earliest row
   * start, stop before the latest row end (which is at most 24:00), are
   * strictly ascending (so free of duplicates) and are exactly the keys of
   * the staff map.
   */
  lemma OpenDayShape(g: Grid, serviceId: string)
    requires MinStart(g.rows) < MaxEnd(g.rows)
    ensures
      var r := OpenDay(g, serviceId);
      var lo, hi := MinStart(g.rows), MaxEnd(g.rows);
      && r.day == g.day && r.serviceId == serviceId
      && (forall i :: 0 <= i < |r.slots| ==> OnGrid(lo, r.slots[i]) && r.slots[i] < hi <= MinutesPerDay)
      && (forall i, j :: 0 <= i < j < |r.slots| ==> r.slots[i] < r.slots[j])
      && (forall k :: k in r.staffMap <==> k in r.slots)
  {
    OpenDayInv(g, serviceId);
  }

  /**
   * Every offered slot names the first row, in store order, that is free
   * for the whole duration, and that row's staff member is the one recorded.
   */
  lemma OpenDaySound(g: Grid, serviceId: string, apts: seq<Appointment>, i: nat) returns (j: nat)
    requires MinStart(g.rows) < MaxEnd(g.rows)
    requires g.busy == BusyMap(apts)
    requires i < |OpenDay(g, serviceId).slots|
    ensures
      var r := OpenDay(g, serviceId);
      var m := r.slots[i];
      && j < |g.rows|
      && m in r.staffMap && g.rows[j].staffId == r.staffMap[m]
      && Free(apts, g.rows[j], g.day, m, g.duration)
      && forall j' :: 0 <= j' < j ==> !Free(apts, g.rows[j'], g.day, m, g.duration)
  {
    OpenDayInv(g, serviceId);
    var r := OpenDay(g, serviceId);
    var m := r.slots[i];
    assert SlotStaff(g, m) == Some(r.staffMap[m]);
    j := StaffRow(g, apts, m, r.staffMap[m]);
  }

  /** The staff member the grid offers at `m` is on the first row free at `m`. */
  lemma StaffRow(g: Grid, apts: seq<Appointment>, m: int, staff: string) returns (j: nat)
    requires g.busy == BusyMap(apts)
    requires SlotStaff(g, m) == Some(staff)
    ensures j < |g.rows| && g.rows[j].staffId == staff
    ensures Free(apts, g.rows[j], g.day, m, g.duration)
    ensures forall j' :: 0 <= j' < j ==> !Free(apts, g.rows[j'], g.day, m, g.duration)
  {
    FirstFitSpec(g, DayStart(g.day) + m, 0);
    j := FreeRow(g, DayStart(g.day) + m).value;
    FitsMeaning(g, apts, g.rows[j], m);
    forall j' | 0 <= j' < j
      ensures !Free(apts, g.rows[j'], g.day, m, g.duration)
    {
      FitsMeaning(g, apts, g.rows[j'], m);
    }
  }

  /** Every grid minute at which some row is free is offered. */
  lemma OpenDayComplete(g: Grid, serviceId: string, apts: seq<Appointment>, m: int, j: nat)
    requires MinStart(g.rows) < MaxEnd(g.rows)
    requires g.busy == BusyMap(apts)
    requires OnGrid(MinStart(g.rows), m) && m < MaxEnd(g.rows)
    requires j < |g.rows| && Free(apts, g.rows[j], g.day, m, g.duration)
    ensures m in OpenDay(g, serviceId).slots
  {
    FreeOfferable(g, apts, m, j);
    OpenDayInv(g, serviceId);
  }

  /** A minute at which some row is free has a staff member on the grid. */
  lemma FreeOfferable(g: Grid, apts: seq<Appointment>, m: int, j: nat)
    requires g.busy == BusyMap(apts)
    requires j < |g.rows| && Free(apts, g.rows[j], g.day, m, g.duration)
    ensures Offerable(g, m)
  {
    FitsMeaning(g, apts, g.rows[j], m);
    FirstFitSpec(g, DayStart(g.day) + m, 0);
  }

  /** An open result is the grid loop over the day's rows and blocking appointments. */
  lemma OpenUnfold(store: Store, tenantArg: Option<string>, session: Option<string>, day: int, query: string)
    returns (tenant: string, k: nat)
    requires SlotsFor(store, tenantArg, session, day, query).Open?
    ensures Tenant(tenantArg, session) == Some(tenant) && tenant != ""
    ensures FindService(store.services, tenant, query) == Some(k) && k < |store.services|
    ensures
      var g := GridFor(store, tenant, day, store.services[k]);
      && g.rows != [] && MinStart(g.rows) < MaxEnd(g.rows)
      && SlotsFor(store, tenantArg, session, day, query) == OpenDay(g, store.services[k].id)
  {
    tenant := Tenant(tenantArg, session).value;
    k := FindService(store.services, tenant, query).value;
  }

  /** The three results without slots, and when each arises. */
  lemma EmptyResults(store: Store, tenantArg: Option<string>, session: Option<string>, day: int, query: string)
    ensures
      var r := SlotsFor(store, tenantArg, session, day, query);
      var tenant := Tenant(tenantArg, session);
      && (r.NoTenant? <==> !TruthyString(tenant))
      && (r.ServiceNotFound? <==> TruthyString(tenant) && FindService(store.services, tenant.value, query).None?)
      && (r.NoStaffWorking? <==>
            (TruthyString(tenant) && FindService(store.services, tenant.value, query).Some?
             && Shifts(store.schedules, tenant.value, day) == []))
      && (r.ClosedDay? ==> MaxEnd(Shifts(store.schedules, tenant.value, day)) <= MinStart(Shifts(store.schedules, tenant.value, day)))
      && (!r.Open? ==> r.AvailableSlots() == [] && forall key :: r.StaffAt(key).None?)
  {
  }

  /**
   * An appointment that is cancelled, belongs to another tenant or starts
   * on another day never changes the result.
   */
  lemma IgnoredAppointment(store: Store, tenantArg: Option<string>, session: Option<string>, day: int, query: string, a: Appointment)
    requires TruthyString(Tenant(tenantArg, session)) ==> !Blocks(a, Tenant(tenantArg, session).value, day)
    ensures SlotsFor(store.(appointments := store.appointments + [a]), tenantArg, session, day, query)
         == SlotsFor(store, tenantArg, session, day, query)
  {
    var tenant := Tenant(tenantArg, session);
    if TruthyString(tenant) {
      FilterConcat(store.appointments, [a], BlocksOn(tenant.value, day));
      assert Filter([a], BlocksOn(tenant.value, day)) == [];
      assert DayAppointments(store.appointments + [a], tenant.value, day)
          == DayAppointments(store.appointments, tenant.value, day);
    }
  }

  /** Once the tenant and the service are found, the result is `ForService`. */
  lemma SlotsForService(store: Store, tenantArg: Option<string>, session: Option<string>, day: int, query: string, tenant: string, k: nat)
    requires Tenant(tenantArg, session) == Some(tenant) && tenant != ""
    requires FindService(store.services, tenant, query) == Some(k) && k < |store.services|
    ensures SlotsFor(store, tenantArg, session, day, query) == ForService(store, tenant, day, store.services[k])
  {
  }

  /** A staff member with a blocking appointment from minute `m` on is not offered at `m`. */
  lemma BookedNotOffered(g: Grid, serviceId: string, apts: seq<Appointment>, m: int, a: Appointment)
    requires MinStart(g.rows) < MaxEnd(g.rows)
    requires g.busy == BusyMap(apts) && g.duration > 0
    requires a in apts && a.start == DayStart(g.day) + m && a.end > a.start
    ensures OpenDay(g, serviceId).StaffAt(m) != Some(a.staffId)
  {
    var r := OpenDay(g, serviceId);
    if r.StaffAt(m) == Some(a.staffId) {
      OpenDayShape(g, serviceId);
      var i :| 0 <= i < |r.slots| && r.slots[i] == m;
      var j := OpenDaySound(g, serviceId, apts, i);
      assert false;
    }
  }

  /**
   * Booking the offered staff member at an offered minute, for a positive
   * length, takes that staff member off the slot: the same query afterwards
   * either offers nobody there or someone else.
   */
  lemma BookingTakesSlot(store: Store, tenantArg: Option<string>, session: Option<string>, day: int, query: string, m: int, a: Appointment)
    requires SlotsFor(store, tenantArg, session, day, query).Open?
    requires m in SlotsFor(store, tenantArg, session, day, query).staffMap
    requires forall i :: 0 <= i < |store.services| ==> store.services[i].durationMinutes >= 0
    requires a.tenantId == Tenant(tenantArg, session).value && a.status != Cancelled
    requires a.staffId == SlotsFor(store, tenantArg, session, day, query).staffMap[m]
    requires a.start == DayStart(day) + m && a.end > a.start
    ensures SlotsFor(store.(appointments := store.appointments + [a]), tenantArg, session, day, query).StaffAt(m) != Some(a.staffId)
  {
    var tenant, k := OpenUnfold(store, tenantArg, session, day, query);
    var store' := store.(appointments := store.appointments + [a]);
    SlotsForService(store, tenantArg, session, day, query, tenant, k);
    SlotsForService(store', tenantArg, session, day, query, tenant, k);
    BookingOnService(store, tenant, day, store.services[k], m, a);
  }

  /** An appended blocking appointment is among the day's blocking appointments. */
  lemma AppendBlocking(apts: seq<Appointment>, a: Appointment, tenant: string, day: int)
    requires Blocks(a, tenant, day)
    ensures a in DayAppointments(apts + [a], tenant, day)
  {
    FilterConcat(apts, [a], BlocksOn(tenant, day));
    assert DayAppointments([a], tenant, day) == [a];
  }

  /** The result for a known service is an open day exactly when its rows open before they close. */
  lemma ForServiceOpen(store: Store, tenant: string, day: int, service: Service)
    ensures
      var g := GridFor(store, tenant, day, service);
      var r := ForService(store, tenant, day, service);
      && (r.Open? <==> g.rows != [] && MinStart(g.rows) < MaxEnd(g.rows))
      && (r.Open? ==> r == OpenDay(g, service.id))
  {
  }

  /** `BookingTakesSlot` once the tenant and the service are known. */
  lemma BookingOnService(store: Store, tenant: string, day: int, service: Service, m: int, a: Appointment)
    requires
      var r := ForService(store, tenant, day, service);
      r.Open? && m in r.staffMap && a.staffId == r.staffMap[m]
    requires service.durationMinutes >= 0
    requires a.tenantId == tenant && a.status != Cancelled
    requires a.start == DayStart(day) + m && a.end > a.start
    ensures ForService(store.(appointments := store.appointments + [a]), tenant, day, service).StaffAt(m) != Some(a.staffId)
  {
    var g := GridFor(store, tenant, day, service);
    assert 0 <= m < MinutesPerDay by {
      OpenDayShape(g, service.id);
    }
    var store' := store.(appointments := store.appointments + [a]);
    AppendBlocking(store.appointments, a, tenant, day);
    var g' := GridFor(store', tenant, day, service);
    assert g'.rows == g.rows;
    ForServiceOpen(store, tenant, day, service);
    ForServiceOpen(store', tenant, day, service);
    BookedNotOffered(g', service.id, DayAppointments(store'.appointments, tenant, day), m, a);
  }

  /**
   * What an offered minute promises at the level of the whole query: it is
   * a minute of the day, and the staff member offered there holds a
   * working row of the day that covers the service's duration from that
   * minute, with none of their blocking appointments overlapping it.
   */
  lemma SlotOffered(store: Store, tenantArg: Option<string>, session: Option<string>, day: int, query: string, m: int)
    returns (tenant: string, k: nat, j: nat)
    requires SlotsFor(store, tenantArg, session, day, query).StaffAt(m).Some?
    ensures Tenant(tenantArg, session) == Some(tenant) && tenant != ""
    ensures FindService(store.services, tenant, query) == Some(k) && k < |store.services|
    ensures SlotsFor(store, tenantArg, session, day, query).Open?
    ensures SlotsFor(store, tenantArg, session, day, query).serviceId == store.services[k].id
    ensures 0 <= m < MinutesPerDay
    ensures
      var rows := Shifts(store.schedules, tenant, day);
      && j < |rows| && rows[j].staffId == SlotsFor(store, tenantArg, session, day, query).StaffAt(m).value
      && Free(DayAppointments(store.appointments, tenant, day), rows[j], day, m, Duration(store.services[k].durationMinutes))
  {
    tenant, k := OpenUnfold(store, tenantArg, session, day, query);
    var id := store.services[k].id;
    var g := GridFor(store, tenant, day, store.services[k]);
    var r := OpenDay(g, id);
    OpenDayShape(g, id);
    var i :| 0 <= i < |r.slots| && r.slots[i] == m;
    j := OpenDaySound(g, id, DayAppointments(store.appointments, tenant, day), i);
  }

  /**
   * The converse: a grid minute of the day at which some working row is
   * free for the service's duration is offered to someone.
   */
  lemma SlotFree(store: Store, tenantArg: Option<string>, session: Option<string>, day: int, query: string,
                 tenant: string, k: nat, m: int, j: nat)
    requires Tenant(tenantArg, session) == Some(tenant) && tenant != ""
    requires FindService(store.services, tenant, query) == Some(k) && k < |store.services|
    requires
      var rows := Shifts(store.schedules, tenant, day);
      && j < |rows| && OnGrid(MinStart(rows), m) && m < MaxEnd(rows)
      && Free(DayAppointments(store.appointments, tenant, day), rows[j], day, m, Duration(store.services[k].durationMinutes))
    ensures SlotsFor(store, tenantArg, session, day, query).StaffAt(m).Some?
  {
    SlotsForService(store, tenantArg, session, day, query, tenant, k);
    ServiceSlotFree(store, tenant, day, store.services[k], m, j);
  }

  /** `SlotFree` once the tenant and the service are known. */
  lemma ServiceSlotFree(store: Store, tenant: string, day: int, service: Service, m: int, j: nat)
    requires
      var rows := Shifts(store.schedules, tenant, day);
      && j < |rows| && OnGrid(MinStart(rows), m) && m < MaxEnd(rows)
      && Free(DayAppointments(store.appointments, tenant, day), rows[j], day, m, Duration(service.durationMinutes))
    ensures ForService(store, tenant, day, service).StaffAt(m).Some?
  {
    var g := GridFor(store, tenant, day, service);
    ForServiceOpen(store, tenant, day, service);
    OpenDayComplete(g, service.id, DayAppointments(store.appointments, tenant, day), m, j);
    OpenDayShape(g, service.id);
  }
}
