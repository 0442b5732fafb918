/**
 * Writes to the `staff_schedules` table: `saveStaffSchedules`, which
 * replaces one staff member's weekly rows with the working days of a
 * submitted week, and the Monday-to-Friday default week
 * `createStaffMember` writes for a new staff member.
 *
 * Rows are kept here in the text form they are written in (`'09:00'`,
 * `'17:00:00'`); the availability computation reads the same column as
 * minutes after midnight.
 */
module ScheduleStore {
  import opened Wrappers
  import opened Seqs
  import opened Domain

  /** A row as inserted into `staff_schedules`. */
  datatype ScheduleRecord = ScheduleRecord(
    staffId: string,
    tenantId: string,
    dayOfWeek: int,
    startTime: string,
    endTime: string,
    isWorking: bool)

  /** One day of a submitted week; either time may be missing. */
  datatype DayInput = DayInput(dayOfWeek: int, startTime: Option<string>, endTime: Option<string>, isWorking: bool)

  /**
   * What `saveStaffSchedules` did: whose rows it deleted (none when it
   * stopped before the delete), the rows it inserted, and its answer.
   */
  datatype SaveOutcome = SaveOutcome(deleted: Option<string>, inserted: seq<ScheduleRecord>, response: Response)

  // ------------------------------------------------------- saveStaffSchedules

  /** The `filter` callback: a working day with both times non-empty. */
  predicate Kept(d: DayInput) {
    d.isWorking && TruthyString(d.startTime) && TruthyString(d.endTime)
  }

  function KeptDay(): DayInput -> bool {
    (d: DayInput) => Kept(d)
  }

  /** The `map` callback: the row written for a kept day. */
  function RecordOf(staffId: string, tenant: string, d: DayInput): (r: ScheduleRecord)
    requires Kept(d)
  {
    ScheduleRecord(staffId, tenant, d.dayOfWeek, d.startTime.value, d.endTime.value, true)
  }

  /** The rows `saveStaffSchedules` inserts for a submitted week. */
  function WorkingDays(staffId: string, tenant: string, week: seq<DayInput>): (rows: seq<ScheduleRecord>)
    ensures |rows| == |Filter(week, KeptDay())|
    decreases |week|
  {
    if week == [] then []
    else
      var rest := WorkingDays(staffId, tenant, week[1..]);
      if Kept(week[0]) then [RecordOf(staffId, tenant, week[0])] + rest else rest
  }

  /** Each inserted row is a kept day of the week, stamped working, for this staff member and tenant. */
  lemma {:induction false} WorkingDaysRows(staffId: string, tenant: string, week: seq<DayInput>)
    ensures forall i :: 0 <= i < |WorkingDays(staffId, tenant, week)| ==>
      var row := WorkingDays(staffId, tenant, week)[i];
      && row.staffId == staffId && row.tenantId == tenant && row.isWorking
      && row.startTime != "" && row.endTime != ""
      && exists j :: 0 <= j < |week| && Kept(week[j]) && row == RecordOf(staffId, tenant, week[j])
    decreases |week|
  {
    if week != [] {
      WorkingDaysRows(staffId, tenant, week[1..]);
      var rows := WorkingDays(staffId, tenant, week);
      var rest := WorkingDays(staffId, tenant, week[1..]);
      forall i | 0 <= i < |rows|
        ensures exists j :: 0 <= j < |week| && Kept(week[j]) && rows[i] == RecordOf(staffId, tenant, week[j])
      {
        if Kept(week[0]) && i == 0 {
          assert rows[0] == RecordOf(staffId, tenant, week[0]);
        } else {
          var k := if Kept(week[0]) then i - 1 else i;
          assert rows[i] == rest[k];
          var j :| 0 <= j < |week[1..]| && Kept(week[1..][j]) && rest[k] == RecordOf(staffId, tenant, week[1..][j]);
          assert week[1..][j] == week[j + 1];
        }
      }
    }
  }

  /** Every kept day is written, and a week split in two is written in that order. */
  lemma {:induction false} WorkingDaysConcat(staffId: string, tenant: string, a: seq<DayInput>, b: seq<DayInput>)
    ensures WorkingDays(staffId, tenant, a + b) == WorkingDays(staffId, tenant, a) + WorkingDays(staffId, tenant, b)
    decreases |a|
  {
    if a == [] {
      assert a + b == b;
    } else {
      assert (a + b)[0] == a[0];
      assert (a + b)[1..] == a[1..] + b;
      WorkingDaysConcat(staffId, tenant, a[1..], b);
    }
  }

  /** Nothing is written for a week without a kept day, and something is written otherwise. */
  lemma WorkingDaysEmpty(staffId: string, tenant: string, week: seq<DayInput>)
    ensures WorkingDays(staffId, tenant, week) == [] <==> forall i :: 0 <= i < |week| ==> !Kept(week[i])
  {
    if WorkingDays(staffId, tenant, week) != [] {
      var f := Filter(week, KeptDay());
      assert f[0] in week && Kept(f[0]);
    }
  }

  /**
   * `saveStaffSchedules(staffId, week)`: without a signed-in tenant it
   * answers "No tenant" and touches nothing; otherwise it deletes the staff
   * member's rows, then inserts the kept days if there are any. `reply` is
   * the database's answer to that insert.
   */
  function SaveStaffSchedules(session: Option<string>, staffId: string, week: seq<DayInput>, reply: WriteReply): (r: SaveOutcome)
    ensures !TruthyString(session) ==> r == SaveOutcome(None, [], Failure("No tenant"))
    ensures TruthyString(session) ==> r.deleted == Some(staffId)
    ensures TruthyString(session) && WorkingDays(staffId, session.value, week) == [] ==> r.response == Success && r.inserted == []
    ensures TruthyString(session) && WorkingDays(staffId, session.value, week) != [] ==>
      match reply
      case Saved(_) => r.response == Success && r.inserted == WorkingDays(staffId, session.value, week)
      case Failed(msg) => r.response == Failure(msg) && r.inserted == []
  {
    if !TruthyString(session) then SaveOutcome(None, [], Failure("No tenant"))
    else
      var rows := WorkingDays(staffId, session.value, week);
      if rows == [] then SaveOutcome(Some(staffId), [], Success)
      else match reply
        case Saved(_) => SaveOutcome(Some(staffId), rows, Success)
        case Failed(msg) => SaveOutcome(Some(staffId), [], Failure(msg))
  }

  // ------------------------------------------------------------ the table

  function OfStaff(staffId: string): ScheduleRecord -> bool {
    (r: ScheduleRecord) => r.staffId == staffId
  }

  function NotOfStaff(staffId: string): ScheduleRecord -> bool {
    (r: ScheduleRecord) => r.staffId != staffId
  }

  /** The table after deleting `staffId`'s rows and inserting `rows`. */
  function ReplaceStaffRows(table: seq<ScheduleRecord>, staffId: string, rows: seq<ScheduleRecord>): seq<ScheduleRecord> {
    Filter(table, NotOfStaff(staffId)) + rows
  }

  /** The table after a `saveStaffSchedules` call. */
  function ApplySave(table: seq<ScheduleRecord>, outcome: SaveOutcome): seq<ScheduleRecord> {
    match outcome.deleted
    case None => table
    case Some(staffId) => ReplaceStaffRows(table, staffId, outcome.inserted)
  }

  /**
   * After replacing `staffId`'s rows by rows of that staff member, the
   * staff member's rows are exactly those rows and every other staff
   * member's rows are as before.
   */
  lemma ReplaceStaffRowsEffect(table: seq<ScheduleRecord>, staffId: string, rows: seq<ScheduleRecord>, other: string)
    requires forall i :: 0 <= i < |rows| ==> rows[i].staffId == staffId
    requires other != staffId
    ensures Filter(ReplaceStaffRows(table, staffId, rows), OfStaff(staffId)) == rows
    ensures Filter(ReplaceStaffRows(table, staffId, rows), OfStaff(other)) == Filter(table, OfStaff(other))
  {
    var kept := Filter(table, NotOfStaff(staffId));
    FilterConcat(kept, rows, OfStaff(staffId));
    FilterNone(kept, OfStaff(staffId));
    FilterAll(rows, OfStaff(staffId));
    FilterConcat(kept, rows, OfStaff(other));
    FilterNone(rows, OfStaff(other));
    FilterNarrow(table, NotOfStaff(staffId), OfStaff(other));
  }

  /**
   * A successful save leaves the staff member with exactly the kept days of
   * the submitted week, as working rows, and changes no one else's rows; a
   * save without a tenant changes nothing.
   */
  lemma SaveReplacesWeek(table: seq<ScheduleRecord>, session: Option<string>, staffId: string, week: seq<DayInput>,
                         reply: WriteReply, other: string)
    requires other != staffId
    ensures
      var out := SaveStaffSchedules(session, staffId, week, reply);
      var after := ApplySave(table, out);
      && (!TruthyString(session) ==> after == table)
      && (out.response == Success ==>
            && TruthyString(session)
            && Filter(after, OfStaff(staffId)) == WorkingDays(staffId, session.value, week)
            && Filter(after, OfStaff(other)) == Filter(table, OfStaff(other)))
  {
    var out := SaveStaffSchedules(session, staffId, week, reply);
    if TruthyString(session) {
      WorkingDaysRows(staffId, session.value, week);
      ReplaceStaffRowsEffect(table, staffId, out.inserted, other);
    }
  }

  /** A failed insert still deletes: the staff member is left with no rows at all. */
  lemma FailedInsertClears(table: seq<ScheduleRecord>, session: Option<string>, staffId: string, week: seq<DayInput>, msg: string)
    requires TruthyString(session)
    ensures
      var out := SaveStaffSchedules(session, staffId, week, Failed(msg));
      Filter(ApplySave(table, out), OfStaff(staffId)) == []
  {
    var out := SaveStaffSchedules(session, staffId, week, Failed(msg));
    var kept := Filter(table, NotOfStaff(staffId));
    FilterNone(kept, OfStaff(staffId));
    assert ApplySave(table, out) == kept + [];
    assert kept + [] == kept;
  }

  // -------------------------------------------------------- createStaffMember

  /** The week `createStaffMember` writes: Monday to Friday, 09:00 to 17:00. */
  function DefaultWeek(staffId: string, tenant: string): (rows: seq<ScheduleRecord>)
    ensures |rows| == 5
  {
    seq(5, i requires 0 <= i < 5 => ScheduleRecord(staffId, tenant, i + 1, "09:00:00", "17:00:00", true))
  }

  /** The default week has one working 09:00-17:00 row per weekday from Monday (1) to Friday (5), and no others. */
  lemma DefaultWeekDays(staffId: string, tenant: string, day: int)
    ensures
      var rows := DefaultWeek(staffId, tenant);
      && (forall i :: 0 <= i < 5 ==>
            (rows[i].staffId == staffId && rows[i].tenantId == tenant
             && rows[i].startTime == "09:00:00" && rows[i].endTime == "17:00:00" && rows[i].isWorking))
      && ((exists i :: 0 <= i < 5 && rows[i].dayOfWeek == day) <==> 1 <= day <= 5)
  {
    var rows := DefaultWeek(staffId, tenant);
    if 1 <= day <= 5 {
      assert rows[day - 1].dayOfWeek == day;
    }
  }

  /**
   * The table after `createStaffMember` has made `staffId`'s profile: its
   * rows are deleted, and the default week is inserted when `inserted`
   * (that insert's error is only logged, so the member may be left with
   * no rows at all).
   */
  function ApplyCreateStaff(table: seq<ScheduleRecord>, staffId: string, tenant: string, inserted: bool): seq<ScheduleRecord> {
    ReplaceStaffRows(table, staffId, if inserted then DefaultWeek(staffId, tenant) else [])
  }

  /**
   * A new staff member has exactly the default week when its insert
   * succeeds and no rows when it fails; no one else's rows change.
   */
  lemma CreateStaffWeek(table: seq<ScheduleRecord>, staffId: string, tenant: string, inserted: bool, other: string)
    requires other != staffId
    ensures inserted ==> Filter(ApplyCreateStaff(table, staffId, tenant, inserted), OfStaff(staffId)) == DefaultWeek(staffId, tenant)
    ensures !inserted ==> Filter(ApplyCreateStaff(table, staffId, tenant, inserted), OfStaff(staffId)) == []
    ensures Filter(ApplyCreateStaff(table, staffId, tenant, inserted), OfStaff(other)) == Filter(table, OfStaff(other))
  {
    ReplaceStaffRowsEffect(table, staffId, if inserted then DefaultWeek(staffId, tenant) else [], other);
  }
}
