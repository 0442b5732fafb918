/**
 * The `book_appointment` tool of the admin test agent (`testAIChat`):
 * availability is computed again, the requested start time is normalised
 * to UTC, its label is looked up in the fresh staff map, and the service's
 * duration is booked for the staff member found there.
 *
 * The code computes availability for the calendar date written in
 * `start_time`, while the label and the booked instant come from the UTC
 * reading of the whole string. The two disagree for a time written with a
 * `+hh:mm` offset that crosses midnight: `BookAsWritten` models the code
 * as it is, `AsWrittenDoubleBooks` exhibits a booking on top of an
 * existing appointment, and `BookAppointment` checks the UTC day of the
 * booked instant instead, which `BookedSlotIsFree` proves free.
 */
module AgentTools {
  import opened Wrappers
  import opened Text
  import opened Seqs
  import opened Domain
  import opened Availability
  import opened IsoTime
  import opened ScheduleStore
  import opened Llm
  import opened SqlLike

  /** What the agent's tools hand back to the model (the `toolResult` JSON). */
  datatype ServiceSummary = ServiceSummary(name: string, price: int, duration: string)
  datatype StaffSummary = StaffSummary(id: string, name: string, email: Option<string>, role: string)

  datatype Payload =
    | Empty                                            // no branch matched: `toolResult` stays ''
    | Services(services: seq<ServiceSummary>)
    | ErrorResult(error: string)                        // `{ error }`
    | SlotsFound(slots: seq<int>, date: int)            // `{ available_slots, date, info }`
    | BookingConfirmed(bookingId: string, staffId: string)
    | StaffList(staff: seq<StaffSummary>)
    | Succeeded                                         // `{ success: true }`
    | StaffCreated(userId: string, password: string)  // `{ success, userId, password }`
    | Written(id: string)                               // `{ data }` of a service insert or update

  /** The fields `create_service` sends. */
  datatype ServiceForm = ServiceForm(
    name: Option<string>,
    description: string,
    durationMinutes: Option<int>,
    price: Option<int>,
    bufferMinutes: int,
    color: string)

  /** The fields `update_service` sends. */
  datatype ServiceUpdate = ServiceUpdate(
    name: string,
    description: string,
    durationMinutes: int,
    price: int,
    bufferMinutes: int,
    color: string)

  /** The one write a tool call makes. */
  datatype Write =
    | NoWrite
    | InsertAppointment(row: Appointment)
    | CreateStaff(userId: string, tenant: string, withWeek: bool)  // `withWeek`: the default-schedule insert succeeded
    | DeleteStaff(staffId: string)
    | SaveSchedules(outcome: SaveOutcome)
    | InsertService(tenant: string, form: ServiceForm)
    | UpdateService(serviceId: string, update: ServiceUpdate)
    | DeleteService(serviceId: string)

  /** A tool branch either sets `toolResult` or throws. */
  datatype ToolOutcome = Result(payload: Payload) | Thrown(message: string)

  datatype Dispatched = Dispatched(write: Write, outcome: ToolOutcome)

  function OfTenant(tenant: string): Service -> bool {
    (s: Service) => s.tenantId == tenant
  }

  /** `getServices(tenant)`: the tenant's services. */
  function TenantServices(store: Store, tenant: string): (r: seq<Service>)
    ensures forall i :: 0 <= i < |r| ==> r[i].tenantId == tenant && r[i] in store.services
    ensures forall i :: 0 <= i < |store.services| && store.services[i].tenantId == tenant ==> store.services[i] in r
  {
    Filter(store.services, OfTenant(tenant))
  }

  function HasId(id: string): Service -> bool {
    (s: Service) => s.id == id
  }

  /** `services.find(s => s.id === id)?.duration_minutes || 60` */
  function ServiceDuration(services: seq<Service>, id: string): (d: int)
    ensures (forall i :: 0 <= i < |services| ==> services[i].durationMinutes >= 0) ==> d > 0
  {
    match FirstIndex(services, HasId(id))
    case None => DefaultDuration
    case Some(i) => Duration(services[i].durationMinutes)
  }

  /** The `{ error: 'Selected time slot is no longer available.' }` answer. */
  const NotAvailable := Dispatched(NoWrite, Result(ErrorResult("Selected time slot is no longer available.")))

  /** The row `createAppointment` inserts; its id is the database's. */
  function BookingRow(store: Store, tenant: string, serviceId: string, staffId: string, args: ToolArgs, start: int): (a: Appointment)
    ensures a.tenantId == tenant && a.staffId == staffId && a.serviceId == serviceId
    ensures a.start == start && a.end == start + ServiceDuration(TenantServices(store, tenant), serviceId)
    ensures a.status == Confirmed && a.bookedVia == "ai_chat"
  {
    Appointment("", tenant, staffId, serviceId, args.clientName.GetOr(""), args.clientPhone.GetOr(""),
                start, start + ServiceDuration(TenantServices(store, tenant), serviceId), Confirmed, "ai_chat")
  }

  /**
   * The booking branch once availability is `result`. The start's instant
   * is read after normalisation, so the runtime's own zone plays no part
   * (`NormalizedInstantIsAbsolute`); an invalid date matches no label.
   */
  function BookWith(store: Store, tenant: string, args: ToolArgs, st: StartTime, result: SlotsResult,
                    reply: WriteReply): (r: Dispatched)
    ensures r.outcome.Result?
    ensures r.write.NoWrite? || r.write.InsertAppointment?
    ensures result.Error().Some? ==> r == Dispatched(NoWrite, Result(ErrorResult(result.Error().value)))
    ensures result.Error().None? && Instant(Normalize(st), 0).None? ==> r == NotAvailable
    ensures result.Error().None? && Instant(Normalize(st), 0).Some?
         && !TruthyString(result.StaffAt(MinuteOfDay(Instant(Normalize(st), 0).value)))
         ==> r == NotAvailable
    ensures result.Error().None? && Instant(Normalize(st), 0).Some?
         && TruthyString(result.StaffAt(MinuteOfDay(Instant(Normalize(st), 0).value))) && reply.Failed?
         ==> r == Dispatched(NoWrite, Result(ErrorResult(reply.message)))
    ensures r.write.InsertAppointment? ==>
      && reply.Saved?
      && Instant(Normalize(st), 0).Some?
      && r.write.row.start == Instant(Normalize(st), 0).value
      && result.StaffAt(MinuteOfDay(r.write.row.start)) == Some(r.write.row.staffId)
      && r.write.row.staffId != ""
      && r.write.row == BookingRow(store, tenant, result.serviceId, r.write.row.staffId, args, r.write.row.start).(id := reply.id)
      && r.outcome == Result(BookingConfirmed(reply.id, r.write.row.staffId))
  {
    if result.Error().Some? then Dispatched(NoWrite, Result(ErrorResult(result.Error().value)))
    else match Instant(Normalize(st), 0)
      case None => NotAvailable
      case Some(t) =>
        var staff := result.StaffAt(MinuteOfDay(t));
        if !TruthyString(staff) then NotAvailable
        else
          var row := BookingRow(store, tenant, result.serviceId, staff.value, args, t);
          match reply
          case Saved(id) => Dispatched(InsertAppointment(row.(id := id)), Result(BookingConfirmed(id, staff.value)))
          case Failed(msg) => Dispatched(NoWrite, Result(ErrorResult(msg)))
  }

  /** The booking branch with availability computed afresh for `day`. */
  function BookAt(store: Store, tenant: string, session: Option<string>, args: ToolArgs, st: StartTime, day: int,
                  reply: WriteReply): Dispatched
  {
    BookWith(store, tenant, args, st, SlotsFor(store, Some(tenant), session, day, args.serviceName.GetOr("undefined")), reply)
  }

  /**
   * When the normalised start is a valid instant whose time of day has a
   * staff member in the availability map and the insert succeeds, the
   * booking inserts that staff member's row at that instant, with the
   * database's id.
   */
  lemma BookWithSaves(store: Store, tenant: string, args: ToolArgs, st: StartTime, result: SlotsResult, id: string, t: int)
    requires Instant(Normalize(st), 0) == Some(t)
    requires result.StaffAt(MinuteOfDay(t)).Some? && result.StaffAt(MinuteOfDay(t)).value != ""
    ensures BookWith(store, tenant, args, st, result, Saved(id))
      == Dispatched(InsertAppointment(BookingRow(store, tenant, result.serviceId, result.StaffAt(MinuteOfDay(t)).value, args, t).(id := id)),
                    Result(BookingConfirmed(id, result.StaffAt(MinuteOfDay(t)).value)))
  {
  }

  /** The branch as written: availability for the calendar date written in `start_time`. */
  function BookAsWritten(store: Store, tenant: string, session: Option<string>, args: ToolArgs, reply: WriteReply): (r: Dispatched)
    ensures args.startTime.None? ==> r == Dispatched(NoWrite, Thrown(UndefinedRead("split")))
    ensures args.startTime.Some? ==> r == BookAt(store, tenant, session, args, args.startTime.value, args.startTime.value.date, reply)
  {
    match args.startTime
    case None => Dispatched(NoWrite, Thrown(UndefinedRead("split")))
    case Some(st) => BookAt(store, tenant, session, args, st, st.date, reply)
  }

  /** The UTC day the normalised start time falls on (its written date when it is not a date). */
  function CheckDay(st: StartTime): int {
    match Instant(Normalize(st), 0)
    case None => st.date
    case Some(t) => UtcDay(t)
  }

  /** The branch with availability for the UTC day of the instant booked. */
  function BookAppointment(store: Store, tenant: string, session: Option<string>, args: ToolArgs, reply: WriteReply): (r: Dispatched)
    ensures args.startTime.None? ==> r == Dispatched(NoWrite, Thrown(UndefinedRead("split")))
    ensures args.startTime.Some? ==> r == BookAt(store, tenant, session, args, args.startTime.value, CheckDay(args.startTime.value), reply)
  {
    match args.startTime
    case None => Dispatched(NoWrite, Thrown(UndefinedRead("split")))
    case Some(st) => BookAt(store, tenant, session, args, st, CheckDay(st), reply)
  }

  /** For a UTC (or zone-less) time of day the two agree: the written date is the UTC day. */
  lemma CorrectionAgreesOnUtc(store: Store, tenant: string, session: Option<string>, args: ToolArgs, reply: WriteReply)
    requires args.startTime.Some?
    requires args.startTime.value.zone.Zulu? || args.startTime.value.zone.NoZone?
    requires 0 <= args.startTime.value.clock < MinutesPerDay
    ensures BookAppointment(store, tenant, session, args, reply) == BookAsWritten(store, tenant, session, args, reply)
  {
    ZuluInstant(args.startTime.value, 0);
  }

  // ------------------------------------------------------------ properties

  /** Service ids are unique (the table's primary key). */
  predicate UniqueIds(services: seq<Service>) {
    forall i, j :: 0 <= i < j < |services| ==> services[i].id != services[j].id
  }

  /** The duration booked is the duration of the service availability was computed for. */
  lemma DurationOfFound(store: Store, tenant: string, k: nat)
    requires UniqueIds(store.services)
    requires k < |store.services| && store.services[k].tenantId == tenant
    ensures ServiceDuration(TenantServices(store, tenant), store.services[k].id) == Duration(store.services[k].durationMinutes)
  {
    var ss := TenantServices(store, tenant);
    var s := store.services[k];
    assert s in ss;
    var f := FirstIndex(ss, HasId(s.id));
    var i := f.value;
    assert ss[i] in store.services;
    var i' :| 0 <= i' < |store.services| && store.services[i'] == ss[i];
    assert i' == k;
  }

  /**
   * The corrected booking is free: a written row lies inside a working row
   * of its staff member on the booked instant's UTC day, and none of that
   * staff member's blocking appointments of that day overlaps it.
   */
  lemma BookedSlotIsFree(store: Store, tenant: string, session: Option<string>, args: ToolArgs, reply: WriteReply)
    requires tenant != "" && UniqueIds(store.services)
    ensures
      var w := BookAppointment(store, tenant, session, args, reply).write;
      w.InsertAppointment? ==>
        var day := UtcDay(w.row.start);
        && !Clashes(DayAppointments(store.appointments, tenant, day), w.row.staffId, w.row.start, w.row.end)
        && exists j :: 0 <= j < |Shifts(store.schedules, tenant, day)|
             && Shifts(store.schedules, tenant, day)[j].staffId == w.row.staffId
             && DayStart(day) + Shifts(store.schedules, tenant, day)[j].startTime <= w.row.start
             && w.row.end <= DayStart(day) + Shifts(store.schedules, tenant, day)[j].endTime
  {
    var d := BookAppointment(store, tenant, session, args, reply);
    if d.write.InsertAppointment? {
      var st := args.startTime.value;
      var query := args.serviceName.GetOr("undefined");
      var t := d.write.row.start;
      var day := UtcDay(t);
      var m := MinuteOfDay(t);
      assert CheckDay(st) == day;
      DaySplit(t);
      var tenant', k, j := SlotOffered(store, Some(tenant), session, day, query, m);
      DurationOfFound(store, tenant, k);
      var rows := Shifts(store.schedules, tenant, day);
      assert rows[j].staffId == d.write.row.staffId;
    }
  }

  /**
   * Repeating a corrected booking against the store that holds it never
   * books the same staff member at the same time again.
   */
  lemma RebookingTakesOther(store: Store, tenant: string, session: Option<string>, args: ToolArgs, reply: WriteReply, reply2: WriteReply)
    requires tenant != ""
    requires forall i :: 0 <= i < |store.services| ==> store.services[i].durationMinutes >= 0
    ensures
      var w := BookAppointment(store, tenant, session, args, reply).write;
      w.InsertAppointment? ==>
        var w2 := BookAppointment(store.(appointments := store.appointments + [w.row]), tenant, session, args, reply2).write;
        w2.InsertAppointment? ==> w2.row.start == w.row.start && w2.row.staffId != w.row.staffId
  {
    var w := BookAppointment(store, tenant, session, args, reply).write;
    if w.InsertAppointment? {
      var st := args.startTime.value;
      var query := args.serviceName.GetOr("undefined");
      var t := w.row.start;
      var day := UtcDay(t);
      var m := MinuteOfDay(t);
      assert CheckDay(st) == day;
      DaySplit(t);
      var result := SlotsFor(store, Some(tenant), session, day, query);
      assert result.StaffAt(m) == Some(w.row.staffId);
      var tenant', k, j := SlotOffered(store, Some(tenant), session, day, query, m);
      assert w.row.end > w.row.start;
      BookingTakesSlot(store, Some(tenant), session, day, query, m, w.row);
    }
  }

  // ------------------------------------------------------ the other tools

  /** `{ name, price, duration: duration_minutes + ' min' }` */
  function Summary(s: Service): ServiceSummary {
    ServiceSummary(s.name, s.price, IntToString(s.durationMinutes) + " min")
  }

  /** `get_services`: one summary per service of the tenant, in the same order. */
  function GetServicesTool(store: Store, tenant: string): (r: Dispatched)
    ensures r.write == NoWrite && r.outcome.Result? && r.outcome.payload.Services?
    ensures |r.outcome.payload.services| == |TenantServices(store, tenant)|
    ensures forall i :: 0 <= i < |TenantServices(store, tenant)| ==>
      var s := TenantServices(store, tenant)[i];
      r.outcome.payload.services[i] == ServiceSummary(s.name, s.price, IntToString(s.durationMinutes) + " min")
  {
    var ss := TenantServices(store, tenant);
    Dispatched(NoWrite, Result(Services(seq(|ss|, i requires 0 <= i < |ss| => Summary(ss[i])))))
  }

  /**
   * `check_availability`: the slots of the requested date (today when none
   * is given), or the availability error. The tenant is always known here.
   */
  function CheckAvailabilityTool(store: Store, tenant: string, session: Option<string>, today: int, args: ToolArgs): (r: Dispatched)
    ensures r.write == NoWrite && r.outcome.Result?
    ensures
      var day := if args.date.Some? then args.date.value else today;
      var result := SlotsFor(store, Some(tenant), session, day, args.serviceName.GetOr("undefined"));
      && (result.Error().Some? <==> r.outcome.payload.ErrorResult?)
      && (result.Error().Some? ==> r.outcome.payload.error == result.Error().value)
      && (result.Error().None? ==> r.outcome.payload == SlotsFound(result.AvailableSlots(), day))
  {
    var day := args.date.GetOr(today);
    var result := SlotsFor(store, Some(tenant), session, day, args.serviceName.GetOr("undefined"));
    if result.Error().Some? then Dispatched(NoWrite, Result(ErrorResult(result.Error().value)))
    else Dispatched(NoWrite, Result(SlotsFound(result.AvailableSlots(), day)))
  }

  function InTenant(tenant: string): Profile -> bool {
    (p: Profile) => p.tenantId == Some(tenant)
  }

  /** `list_staff`: `{ id, name, email, role }` of every profile of the tenant, in store order. */
  function ListStaffTool(store: Store, tenant: string): (r: Dispatched)
    ensures r.write == NoWrite && r.outcome.Result? && r.outcome.payload.StaffList?
    ensures
      var ps := Filter(store.profiles, InTenant(tenant));
      && |r.outcome.payload.staff| == |ps|
      && forall i :: 0 <= i < |ps| ==> r.outcome.payload.staff[i] == StaffSummary(ps[i].id, ps[i].fullName, ps[i].email, ps[i].role)
  {
    var ps := Filter(store.profiles, InTenant(tenant));
    Dispatched(NoWrite, Result(StaffList(seq(|ps|, i requires 0 <= i < |ps| => StaffSummary(ps[i].id, ps[i].fullName, ps[i].email, ps[i].role)))))
  }

  /**
   * What `createStaffMember` finds around it: whether the service-role key
   * is configured (otherwise the member is an offline profile with a
   * generated id), and whether the default-schedule insert succeeds.
   */
  datatype AccountSetup = AccountSetup(serviceKey: bool, scheduleSaved: bool)

  /**
   * The password `createStaffMember` reports: the one sent, or
   * 'ChangeMe123!' when it is missing or empty, if there is a service key;
   * '(Offline User)' if there is none.
   */
  function IssuedPassword(password: Option<string>, serviceKey: bool): (p: string)
    ensures p != ""
    ensures !serviceKey ==> p == "(Offline User)"
    ensures serviceKey && TruthyString(password) ==> p == password.value
    ensures serviceKey && !TruthyString(password) ==> p == "ChangeMe123!"
  {
    if serviceKey then StringOr(password, "ChangeMe123!") else "(Offline User)"
  }

  /**
   * `create_staff`: `reply` is the answer of the account and profile
   * writes (the new user's id, or the error the helper returns). A new
   * member gets the default week only when its insert succeeds, and that
   * insert's error is logged, not reported.
   */
  function CreateStaffTool(tenant: string, args: ToolArgs, setup: AccountSetup, reply: WriteReply): (r: Dispatched)
    ensures r.outcome.Result?
    ensures reply.Saved? ==>
      r == Dispatched(CreateStaff(reply.id, tenant, setup.scheduleSaved),
                      Result(StaffCreated(reply.id, IssuedPassword(args.password, setup.serviceKey))))
    ensures reply.Failed? ==> r == Dispatched(NoWrite, Result(ErrorResult(reply.message)))
  {
    match reply
    case Saved(userId) =>
      Dispatched(CreateStaff(userId, tenant, setup.scheduleSaved),
                 Result(StaffCreated(userId, IssuedPassword(args.password, setup.serviceKey))))
    case Failed(msg) => Dispatched(NoWrite, Result(ErrorResult(msg)))
  }

  /**
   * The answer the agent sees does not depend on the schedule insert: a
   * member whose default week failed to save is reported created all the
   * same, with the same id and password.
   */
  lemma ScheduleErrorUnreported(tenant: string, args: ToolArgs, serviceKey: bool, id: string)
    ensures CreateStaffTool(tenant, args, AccountSetup(serviceKey, false), Saved(id)).outcome
         == CreateStaffTool(tenant, args, AccountSetup(serviceKey, true), Saved(id)).outcome
    ensures CreateStaffTool(tenant, args, AccountSetup(serviceKey, false), Saved(id)).write
         == CreateStaff(id, tenant, false)
  {
  }

  /** A `{ success: true }` or `{ error }` write answered by `reply`. */
  function Acknowledge(w: Write, reply: WriteReply): (r: Dispatched)
    ensures r.outcome.Result?
    ensures reply.Saved? <==> r == Dispatched(w, Result(Succeeded))
    ensures reply.Failed? ==> r == Dispatched(NoWrite, Result(ErrorResult(reply.message)))
  {
    match reply
    case Saved(_) => Dispatched(w, Result(Succeeded))
    case Failed(msg) => Dispatched(NoWrite, Result(ErrorResult(msg)))
  }

  /** `JSON.stringify` of a `saveStaffSchedules` answer. */
  function ResponsePayload(resp: Response): Payload {
    match resp
    case Success => Succeeded
    case Failure(msg) => ErrorResult(msg)
  }

  /**
   * `set_staff_schedule`: `saveStaffSchedules` for the session's tenant. A
   * call without a `schedule` array throws after the delete has run.
   */
  function SetStaffScheduleTool(session: Option<string>, args: ToolArgs, reply: WriteReply): (r: Dispatched)
    ensures r.write.SaveSchedules?
    ensures
      var staffId := args.staffId.GetOr("");
      match args.schedule
      case Some(week) =>
        var out := SaveStaffSchedules(session, staffId, week, reply);
        r == Dispatched(SaveSchedules(out), Result(ResponsePayload(out.response)))
      case None =>
        && (TruthyString(session) ==>
              r == Dispatched(SaveSchedules(SaveOutcome(Some(staffId), [], Failure(UndefinedRead("filter")))),
                              Thrown(UndefinedRead("filter"))))
        && (!TruthyString(session) ==> r.write.outcome.deleted.None? && r.outcome == Result(ErrorResult("No tenant")))
  {
    var staffId := args.staffId.GetOr("");
    match args.schedule
    case Some(week) =>
      var out := SaveStaffSchedules(session, staffId, week, reply);
      Dispatched(SaveSchedules(out), Result(ResponsePayload(out.response)))
    case None =>
      if !TruthyString(session) then Dispatched(SaveSchedules(SaveOutcome(None, [], Failure("No tenant"))), Result(ErrorResult("No tenant")))
      else
        var msg := UndefinedRead("filter");
        Dispatched(SaveSchedules(SaveOutcome(Some(staffId), [], Failure(msg))), Thrown(msg))
  }

  const DefaultColor := "#6366f1"

  /** The object `create_service` passes to `createService`. */
  function CreateServiceForm(args: ToolArgs): (f: ServiceForm)
    ensures f.name == args.name && f.durationMinutes == args.durationMinutes && f.price == args.price
    ensures TruthyString(args.description) ==> f.description == args.description.value
    ensures !TruthyString(args.description) ==> f.description == ""
    ensures args.bufferMinutes.Some? && args.bufferMinutes.value != 0 ==> f.bufferMinutes == args.bufferMinutes.value
    ensures (args.bufferMinutes.None? || args.bufferMinutes.value == 0) ==> f.bufferMinutes == 0
    ensures TruthyString(args.color) ==> f.color == args.color.value
    ensures !TruthyString(args.color) ==> f.color == DefaultColor
  {
    ServiceForm(args.name, StringOr(args.description, ""), args.durationMinutes, args.price,
                NumberOr(args.bufferMinutes, 0), StringOr(args.color, DefaultColor))
  }

  /**
   * `create_service`: `createService` for the session's tenant (not the
   * agent's tenant argument); `reply` answers the insert.
   */
  function CreateServiceTool(session: Option<string>, args: ToolArgs, reply: WriteReply): (r: Dispatched)
    ensures r.outcome.Result?
    ensures !TruthyString(session) ==> r == Dispatched(NoWrite, Result(ErrorResult("No tenant")))
    ensures TruthyString(session) && reply.Saved? ==>
      r == Dispatched(InsertService(session.value, CreateServiceForm(args)), Result(Written(reply.id)))
    ensures TruthyString(session) && reply.Failed? ==> r == Dispatched(NoWrite, Result(ErrorResult(reply.message)))
  {
    if !TruthyString(session) then Dispatched(NoWrite, Result(ErrorResult("No tenant")))
    else match reply
      case Saved(id) => Dispatched(InsertService(session.value, CreateServiceForm(args)), Result(Written(id)))
      case Failed(msg) => Dispatched(NoWrite, Result(ErrorResult(msg)))
  }

  /**
   * The `update_service` merge of the call's fields over the current
   * record: `||` for name, description, duration and color, `??` for price
   * and buffer.
   */
  function Merge(current: Service, args: ToolArgs): ServiceUpdate {
    ServiceUpdate(
      StringOr(args.name, current.name),
      StringOr(args.description, StringOr(current.description, "")),
      NumberOr(args.durationMinutes, current.durationMinutes),
      args.price.GetOr(current.price),
      args.bufferMinutes.GetOr(current.bufferMinutes.GetOr(0)),
      StringOr(args.color, StringOr(Some(current.color), DefaultColor)))
  }

  /** The record after `updateService` wrote `u` over it. */
  function Updated(s: Service, u: ServiceUpdate): (r: Service)
    ensures r.id == s.id && r.tenantId == s.tenantId && r.isActive == s.isActive
  {
    s.(name := u.name, description := Some(u.description), durationMinutes := u.durationMinutes,
       price := u.price, bufferMinutes := Some(u.bufferMinutes), color := u.color)
  }

  /**
   * Each field of the merge: a falsy name, description, duration or color
   * falls back to the current value (then to '' or the default color),
   * while a price or buffer of 0 is kept and only a missing one falls back.
   */
  lemma MergeFields(current: Service, args: ToolArgs)
    ensures var u := Merge(current, args);
      && (TruthyString(args.name) ==> u.name == args.name.value)
      && (!TruthyString(args.name) ==> u.name == current.name)
      && (TruthyString(args.description) ==> u.description == args.description.value)
      && (!TruthyString(args.description) ==> u.description == current.description.GetOr(""))
      && (args.durationMinutes.Some? && args.durationMinutes.value != 0 ==> u.durationMinutes == args.durationMinutes.value)
      && (args.durationMinutes.None? || args.durationMinutes.value == 0 ==> u.durationMinutes == current.durationMinutes)
      && (args.price.Some? ==> u.price == args.price.value)
      && (args.price.None? ==> u.price == current.price)
      && (args.bufferMinutes.Some? ==> u.bufferMinutes == args.bufferMinutes.value)
      && (args.bufferMinutes.None? ==> u.bufferMinutes == current.bufferMinutes.GetOr(0))
      && (TruthyString(args.color) ==> u.color == args.color.value)
      && (!TruthyString(args.color) && current.color != "" ==> u.color == current.color)
      && (!TruthyString(args.color) && current.color == "" ==> u.color == DefaultColor)
  {
  }

  /** An explicit zero price or buffer is written as zero. */
  lemma MergeKeepsZero(current: Service, args: ToolArgs)
    requires args.price == Some(0) || args.bufferMinutes == Some(0)
    ensures args.price == Some(0) ==> Merge(current, args).price == 0
    ensures args.bufferMinutes == Some(0) ==> Merge(current, args).bufferMinutes == 0
  {
  }

  /**
   * The merge is idempotent: once written, the same call merges to the
   * same fields again, and a call with no fields merges to what is stored.
   */
  lemma {:induction false} MergeIdempotent(current: Service, args: ToolArgs)
    ensures Merge(Updated(current, Merge(current, args)), args) == Merge(current, args)
    ensures Merge(Updated(current, Merge(current, args)), NoArgs) == Merge(current, args)
  {
    var u := Merge(current, args);
    assert u.color != "";
  }

  /**
   * `update_service`: the service with the call's id among the tenant's,
   * merged and written; an unknown id writes nothing.
   */
  function UpdateServiceTool(store: Store, tenant: string, args: ToolArgs, reply: WriteReply): (r: Dispatched)
    ensures r.outcome.Result?
    ensures
      var ss := TenantServices(store, tenant);
      var found := if args.serviceId.Some? then FirstIndex(ss, HasId(args.serviceId.value)) else None;
      && (found.None? ==> r == Dispatched(NoWrite, Result(ErrorResult("Service not found with that ID."))))
      && (found.Some? && reply.Saved? ==>
            r == Dispatched(UpdateService(args.serviceId.value, Merge(ss[found.value], args)), Result(Written(reply.id))))
      && (found.Some? && reply.Failed? ==> r == Dispatched(NoWrite, Result(ErrorResult(reply.message))))
  {
    var ss := TenantServices(store, tenant);
    var found := if args.serviceId.Some? then FirstIndex(ss, HasId(args.serviceId.value)) else None;
    match found
    case None => Dispatched(NoWrite, Result(ErrorResult("Service not found with that ID.")))
    case Some(i) =>
      match reply
      case Saved(id) => Dispatched(UpdateService(args.serviceId.value, Merge(ss[i], args)), Result(Written(id)))
      case Failed(msg) => Dispatched(NoWrite, Result(ErrorResult(msg)))
  }

  /** An id that names none of the tenant's services is refused, whatever else the call carries. */
  lemma UnknownServiceRefused(store: Store, tenant: string, args: ToolArgs, reply: WriteReply)
    requires args.serviceId.Some?
    requires forall i :: 0 <= i < |store.services| ==> store.services[i].tenantId == tenant ==> store.services[i].id != args.serviceId.value
    ensures UpdateServiceTool(store, tenant, args, reply) == Dispatched(NoWrite, Result(ErrorResult("Service not found with that ID.")))
  {
    var ss := TenantServices(store, tenant);
    forall j | 0 <= j < |ss| ensures !HasId(args.serviceId.value)(ss[j]) {
      var k :| 0 <= k < |store.services| && store.services[k] == ss[j];
    }
  }

  // ------------------------------------------------------- the double booking

  /** Service "cut" of tenant "t", one hour long. */
  const CxService := Service("svc", "t", "cut", None, 60, 20, None, "#6366f1", true)

  /** Staff member "s1" works all of Friday (weekday 5; day 1 is a Friday). */
  const CxShift := StaffSchedule("s1", "t", 5, 0, MinutesPerDay, true)

  /** An existing booking of "s1" on Thursday, day 0, from 20:00 to 21:00 UTC. */
  const CxBooked := Appointment("a0", "t", "s1", "svc", "Ann", "555", 1200, 1260, Confirmed, "web")

  const CxStore := Store([CxService], [CxShift], [CxBooked], [], [])

  /** "Friday 01:00 at +05:00", which is Thursday 20:00 UTC. */
  const CxArgs := NoArgs.(serviceName := Some("cut"), startTime := Some(StartTime(1, 60, Plus(300))))

  /** The query "cut" finds the one service. */
  lemma CxFindsService()
    ensures FindService(CxStore.services, "t", "cut") == Some(0)
  {
    assert Lower("cut") == "cut";
    assert StartsWith(Lower(CxService.name), Lower("cut"));
    assert Literal("cut") && NoStar("cut");
    StarlessUnchanged("cut");
    ILikeLiteral(CxService.name, "cut");
  }

  /** Friday's availability is the whole day for "s1", 20:00 included. */
  lemma CxFridayOffers()
    ensures SlotsFor(CxStore, Some("t"), None, 1, "cut").StaffAt(1200) == Some("s1")
    ensures SlotsFor(CxStore, Some("t"), None, 1, "cut").serviceId == "svc"
  {
    var query := "cut";
    CxFindsService();
    var rows := Shifts(CxStore.schedules, "t", 1);
    assert Weekday(1) == 5;
    assert rows == [CxShift] by {
      assert Filter([CxShift][1..], OnShiftOf("t", 5)) == [];
    }
    assert MinStart(rows) == 0 && MaxEnd(rows) == MinutesPerDay;
    var blocking := DayAppointments(CxStore.appointments, "t", 1);
    assert blocking == [] by {
      assert !Blocks(CxBooked, "t", 1);
      assert Filter([CxBooked][1..], BlocksOn("t", 1)) == [];
    }
    assert OnGrid(0, 1200);
    assert Free(blocking, rows[0], 1, 1200, Duration(CxService.durationMinutes));
    SlotFree(CxStore, Some("t"), None, 1, query, "t", 0, 1200, 0);
    var tenant, k, j := SlotOffered(CxStore, Some("t"), None, 1, query, 1200);
  }

  /** The row the request inserts: "s1", 20:00 to 21:00 UTC on day 0. */
  const CxRow := Appointment("a1", "t", "s1", "svc", "", "", 1200, 1260, Confirmed, "ai_chat")

  /** As written, the request is booked on Friday's availability and inserts `CxRow`. */
  lemma CxBooksRow()
    ensures BookAsWritten(CxStore, "t", None, CxArgs, Saved("a1")).write == InsertAppointment(CxRow)
  {
    CxFridayOffers();
    var st := CxArgs.startTime.value;
    assert Normalize(st) == st;
    assert Instant(st, 0) == Some(1200);
    var result := SlotsFor(CxStore, Some("t"), None, 1, "cut");
    assert BookAsWritten(CxStore, "t", None, CxArgs, Saved("a1")) == BookWith(CxStore, "t", CxArgs, st, result, Saved("a1"));
    assert MinuteOfDay(1200) == 1200;
    BookWithSaves(CxStore, "t", CxArgs, st, result, "a1", 1200);
    assert ServiceDuration(TenantServices(CxStore, "t"), "svc") == 60 by {
      assert TenantServices(CxStore, "t") == [CxService] by {
        assert Filter([CxService][1..], OfTenant("t")) == [];
      }
    }
  }

  /**
   * As written, the request books "s1" from 20:00 to 21:00 UTC on day 0,
   * on top of the existing appointment `CxBooked`.
   */
  lemma AsWrittenDoubleBooks()
    ensures
      var w := BookAsWritten(CxStore, "t", None, CxArgs, Saved("a1")).write;
      && w.InsertAppointment?
      && w.row.staffId == "s1" && w.row.start == 1200 && w.row.end == 1260
      && Clashes(DayAppointments(CxStore.appointments, "t", UtcDay(w.row.start)), w.row.staffId, w.row.start, w.row.end)
  {
    CxBooksRow();
    assert UtcDay(1200) == 0;
    assert DayAppointments(CxStore.appointments, "t", 0) == [CxBooked] by {
      assert Blocks(CxBooked, "t", 0);
      assert Filter([CxBooked][1..], BlocksOn("t", 0)) == [];
    }
  }
}
