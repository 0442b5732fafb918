/**
 * The appointments list of the admin console: the status filter, the
 * status badge and the actions offered per row, and the manual booking
 * form (`handleCreate`), which checks its required fields and computes
 * the booking's end from the chosen service's duration.
 */
module AppointmentsPage {
  import opened Wrappers
  import opened Seqs
  import opened Domain

  /** A row of the list as the page holds it; the status is the column's text. */
  datatype Apt = Apt(id: string, clientName: string, clientPhone: string, start: int, end: int, status: string, bookedVia: string)

  /** The text the database stores for each appointment status. */
  function StatusName(s: AppointmentStatus): string {
    match s
    case Confirmed => "confirmed"
    case Cancelled => "cancelled"
    case NoShow => "no_show"
    case Completed => "completed"
  }

  // -------------------------------------------------------------- filter

  function HasStatus(status: string): Apt -> bool {
    (a: Apt) => a.status == status
  }

  /** `filter === 'all' ? appointments : appointments.filter((a) => a.status === filter)` */
  function Filtered(apts: seq<Apt>, filter: string): (r: seq<Apt>)
    ensures filter == "all" ==> r == apts
    ensures filter != "all" ==> forall i :: 0 <= i < |r| ==> r[i].status == filter && r[i] in apts
    ensures filter != "all" ==> forall i :: 0 <= i < |apts| && apts[i].status == filter ==> apts[i] in r
  {
    if filter == "all" then apts else Filter(apts, HasStatus(filter))
  }

  /**
   * A filter other than 'all' keeps the list's order: the filtered list of
   * two lists one after the other is the two filtered lists one after the
   * other, and filtering again changes nothing.
   */
  lemma FilteredOrder(a: seq<Apt>, b: seq<Apt>, filter: string)
    ensures Filtered(a + b, filter) == Filtered(a, filter) + Filtered(b, filter)
    ensures Filtered(Filtered(a, filter), filter) == Filtered(a, filter)
  {
    if filter != "all" {
      FilterConcat(a, b, HasStatus(filter));
      FilterIdempotent(a, HasStatus(filter));
    }
  }

  /** Choosing a status no row has gives an empty list. */
  lemma FilteredNone(apts: seq<Apt>, filter: string)
    requires filter != "all"
    requires forall i :: 0 <= i < |apts| ==> apts[i].status != filter
    ensures Filtered(apts, filter) == []
  {
    FilterNone(apts, HasStatus(filter));
  }

  // ------------------------------------------------------ badge, actions

  /** `statusColors[apt.status] || 'badge-pending'` */
  function Badge(status: string): (b: string)
    ensures b == "badge-cancelled" <==> status == "cancelled" || status == "no_show"
    ensures b == "badge-pending" <==> !(status in ["confirmed", "completed", "cancelled", "no_show"])
  {
    if status == "confirmed" then "badge-confirmed"
    else if status == "completed" then "badge-completed"
    else if status == "cancelled" || status == "no_show" then "badge-cancelled"
    else "badge-pending"
  }

  /** Every status the database can hold has a badge of its own colour, never the fall-back. */
  lemma StoredStatusHasBadge(s: AppointmentStatus)
    ensures Badge(StatusName(s)) != "badge-pending"
    ensures s == NoShow ==> Badge(StatusName(s)) == Badge(StatusName(Cancelled))
  {
  }

  /** The statuses the row's buttons can set: complete and cancel, for a confirmed booking only. */
  function Actions(status: string): (r: seq<string>)
    ensures r != [] <==> status == "confirmed"
    ensures forall i :: 0 <= i < |r| ==> r[i] == StatusName(Completed) || r[i] == StatusName(Cancelled)
  {
    if status == "confirmed" then ["completed", "cancelled"] else []
  }

  // ------------------------------------------------------ manual booking

  /** The booking form's fields, all text. */
  datatype Form = Form(staffId: string, serviceId: string, clientName: string, clientPhone: string,
                       date: string, time: string, bookedVia: string, notes: string)

  /** The form after a reset. */
  const BlankForm := Form("", "", "", "", "", "", "web", "")

  /** A service as the page lists it. */
  datatype PageService = PageService(id: string, name: string, durationMinutes: int)

  /** The argument of `createAppointment`; `start` and `end` are instants in minutes. */
  datatype NewAppointment = NewAppointment(staffId: string, serviceId: string, clientName: string, clientPhone: string,
                                           start: int, end: int, bookedVia: string, notes: Option<string>)

  /**
   * What `handleCreate` did: the request it sent (if any), the toast it
   * showed, the form and modal afterwards, and whether the spinner is
   * still on.
   */
  datatype Create = Create(sent: Option<NewAppointment>, toast: Option<string>, form: Form, modalOpen: bool, saving: bool)

  predicate Complete(f: Form) {
    f.staffId != "" && f.serviceId != "" && f.clientName != "" && f.clientPhone != "" && f.date != "" && f.time != ""
  }

  function HasServiceId(id: string): PageService -> bool {
    (s: PageService) => s.id == id
  }

  /** `selectedService?.duration_minutes || 30` */
  function FormDuration(services: seq<PageService>, serviceId: string): (d: int)
    ensures (forall i :: 0 <= i < |services| ==> services[i].durationMinutes >= 0) ==> d > 0
    ensures (forall i :: 0 <= i < |services| ==> services[i].id != serviceId) ==> d == 30
  {
    match FirstIndex(services, HasServiceId(serviceId))
    case Some(k) => NumberOr(Some(services[k].durationMinutes), 30)
    case None => 30
  }

  /** The request for a complete form starting at `start`. */
  function Request(f: Form, services: seq<PageService>, start: int): NewAppointment {
    NewAppointment(f.staffId, f.serviceId, f.clientName, f.clientPhone,
                   start, start + FormDuration(services, f.serviceId), f.bookedVia,
                   if f.notes != "" then Some(f.notes) else None)
  }

  /**
   * `handleCreate`. `localStart` is `new Date(\`${date}T${time}\`)` read in
   * the browser's time zone, `None` for a date the browser rejects (then
   * `toISOString` throws and the spinner stays on); `reply` answers the
   * insert.
   */
  function HandleCreate(f: Form, services: seq<PageService>, localStart: Option<int>, reply: WriteReply, modalOpen: bool): (r: Create)
    ensures !Complete(f) ==> r == Create(None, Some("Please fill all required fields"), f, modalOpen, false)
    ensures Complete(f) && localStart.None? ==> r.sent.None? && r.saving
  {
    if !Complete(f) then Create(None, Some("Please fill all required fields"), f, modalOpen, false)
    else match localStart
      case None => Create(None, None, f, modalOpen, true)
      case Some(start) =>
        var req := Request(f, services, start);
        match reply
        case Failed(msg) => Create(Some(req), Some("Error: " + msg), f, modalOpen, false)
        case Saved(_) => Create(Some(req), Some("Appointment created!"), BlankForm, false, false)
  }

  /**
   * A complete form with a valid date sends one request with the form's
   * fields, lasting the service's duration (30 minutes when the service is
   * unknown or has none), with empty notes left out; on success the form is
   * reset and the modal closed, on failure both are kept.
   */
  lemma CreateSends(f: Form, services: seq<PageService>, start: int, reply: WriteReply, modalOpen: bool, k: nat)
    requires Complete(f)
    ensures var r := HandleCreate(f, services, Some(start), reply, modalOpen);
      && r.sent.Some?
      && var req := r.sent.value;
      && req.staffId == f.staffId && req.serviceId == f.serviceId
      && req.clientName == f.clientName && req.clientPhone == f.clientPhone && req.bookedVia == f.bookedVia
      && req.start == start
      && (k < |services| && services[k].id == f.serviceId && (forall j :: 0 <= j < k ==> services[j].id != f.serviceId) ==>
            req.end - req.start == (if services[k].durationMinutes != 0 then services[k].durationMinutes else 30))
      && (req.notes.None? <==> f.notes == "")
      && (reply.Saved? ==> r.form == BlankForm && !r.modalOpen && r.toast == Some("Appointment created!"))
      && (reply.Failed? ==> r.form == f && r.modalOpen == modalOpen && r.toast == Some("Error: " + reply.message))
      && !r.saving
  {
    if k < |services| && services[k].id == f.serviceId && (forall j :: 0 <= j < k ==> services[j].id != f.serviceId) {
      assert HasServiceId(f.serviceId)(services[k]);
    }
  }

  /** A form left blank after a reset is refused. */
  lemma BlankRefused(services: seq<PageService>, localStart: Option<int>, reply: WriteReply, modalOpen: bool)
    ensures HandleCreate(BlankForm, services, localStart, reply, modalOpen).sent == None
  {
  }
}
