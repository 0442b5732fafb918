/**
 * The weekly-schedule editor of the admin console: the week it starts
 * from, the week it builds out of a staff member's stored rows, the edits
 * its checkboxes and time inputs make, the order it lists the days in
 * (starting from today) and the "next occurrence" of each day.
 */
module SchedulesPage {
  import opened Wrappers
  import opened Text
  import opened Seqs
  import opened ScheduleStore

  /** One day as the editor holds it; times are `HH:MM` text, `''` for none. */
  datatype ScheduleRow = ScheduleRow(dayOfWeek: int, startTime: string, endTime: string, isWorking: bool)

  /** Seven rows, row `i` for day `i` (0 = Sunday). */
  predicate WeekShape(rows: seq<ScheduleRow>) {
    |rows| == 7 && forall i :: 0 <= i < 7 ==> rows[i].dayOfWeek == i
  }

  function OffRow(day: int): ScheduleRow {
    ScheduleRow(day, "", "", false)
  }

  /** `defaultSchedule`: Monday to Friday 09:00 to 17:00, the weekend off. */
  function DefaultSchedule(): (rows: seq<ScheduleRow>)
    ensures WeekShape(rows)
  {
    seq(7, i requires 0 <= i < 7 =>
      var working := 1 <= i <= 5;
      ScheduleRow(i, if working then "09:00" else "", if working then "17:00" else "", working))
  }

  /** The default week is working exactly on days 1 to 5, from 09:00 to 17:00, and empty otherwise. */
  lemma DefaultScheduleDays(day: int)
    requires 0 <= day < 7
    ensures var row := DefaultSchedule()[day];
      && (row.isWorking <==> 1 <= day <= 5)
      && (row.isWorking ==> row.startTime == "09:00" && row.endTime == "17:00")
      && (!row.isWorking ==> row == OffRow(day))
  {
  }

  // ------------------------------------------------------------- loading

  /** `s?.slice(0, 5) || ''`: the `HH:MM` part of a stored `HH:MM:SS` time. */
  function Prefix5(s: string): (r: string)
    ensures |r| <= 5 && StartsWith(s, r)
    ensures |s| <= 5 ==> r == s
  {
    if |s| <= 5 then s else s[..5]
  }

  function OnDay(day: int): ScheduleRecord -> bool {
    (d: ScheduleRecord) => d.dayOfWeek == day
  }

  /** Row `day` of the merged week: the first stored row for that day, or a day off. */
  function MergedRow(data: seq<ScheduleRecord>, day: int): ScheduleRow {
    match FirstIndex(data, OnDay(day))
    case Some(k) => ScheduleRow(day, Prefix5(data[k].startTime), Prefix5(data[k].endTime), data[k].isWorking)
    case None => OffRow(day)
  }

  /**
   * `loadSchedule`: with stored rows, the seven days merged from them;
   * with none, the default week.
   */
  function Loaded(data: seq<ScheduleRecord>): (rows: seq<ScheduleRow>)
    ensures WeekShape(rows)
    ensures data == [] ==> rows == DefaultSchedule()
  {
    if |data| > 0 then seq(7, i requires 0 <= i < 7 => MergedRow(data, i)) else DefaultSchedule()
  }

  /**
   * Each merged day takes the working flag and the first five characters of
   * the times of the first stored row for that day, and a day with no
   * stored row is off with empty times.
   */
  lemma LoadedDay(data: seq<ScheduleRecord>, day: int, k: nat)
    requires data != [] && 0 <= day < 7
    ensures (forall j :: 0 <= j < |data| ==> data[j].dayOfWeek != day) ==> Loaded(data)[day] == OffRow(day)
    ensures k < |data| && data[k].dayOfWeek == day && (forall j :: 0 <= j < k ==> data[j].dayOfWeek != day) ==>
      Loaded(data)[day] == ScheduleRow(day, Prefix5(data[k].startTime), Prefix5(data[k].endTime), data[k].isWorking)
  {
    if k < |data| && data[k].dayOfWeek == day {
      assert OnDay(day)(data[k]);
    }
  }

  /** The Monday-to-Friday week a new staff member is created with loads as the editor's own default week. */
  lemma LoadDefaultWeek(staffId: string, tenant: string)
    ensures Loaded(DefaultWeek(staffId, tenant)) == DefaultSchedule()
  {
    var data := DefaultWeek(staffId, tenant);
    var rows := Loaded(data);
    forall day | 0 <= day < 7 ensures rows[day] == DefaultSchedule()[day] {
      DefaultWeekDays(staffId, tenant, day);
      if 1 <= day <= 5 {
        assert data[day - 1].dayOfWeek == day;
        LoadedDay(data, day, day - 1);
        assert "09:00:00"[..5] == "09:00";
        assert "17:00:00"[..5] == "17:00";
      } else {
        LoadedDay(data, day, 0);
      }
    }
  }

  // ------------------------------------------------------ saving and back

  /** A row as `handleSave` submits it to `saveStaffSchedules`. */
  function Submitted(rows: seq<ScheduleRow>): (week: seq<DayInput>)
    ensures |week| == |rows|
  {
    seq(|rows|, i requires 0 <= i < |rows| =>
      DayInput(rows[i].dayOfWeek, Some(rows[i].startTime), Some(rows[i].endTime), rows[i].isWorking))
  }

  /** A page week whose times are `HH:MM` text or empty, as its inputs produce. */
  predicate EditorWeek(rows: seq<ScheduleRow>) {
    WeekShape(rows) && forall i :: 0 <= i < 7 ==> |rows[i].startTime| <= 5 && |rows[i].endTime| <= 5
  }

  /** The stored row for day `day`, when the submitted week keeps that day, is that day's record. */
  lemma {:induction false} SavedDay(staffId: string, tenant: string, rows: seq<ScheduleRow>, day: int)
    requires WeekShape(rows) && 0 <= day < 7
    ensures var week := Submitted(rows);
      var data := WorkingDays(staffId, tenant, week);
      && (forall j :: 0 <= j < |data| && data[j].dayOfWeek == day ==> Kept(week[day]) && data[j] == RecordOf(staffId, tenant, week[day]))
      && (Kept(week[day]) ==> exists j :: 0 <= j < |data| && data[j].dayOfWeek == day)
  {
    var week := Submitted(rows);
    var data := WorkingDays(staffId, tenant, week);
    WorkingDaysRows(staffId, tenant, week);
    forall j | 0 <= j < |data| && data[j].dayOfWeek == day
      ensures Kept(week[day]) && data[j] == RecordOf(staffId, tenant, week[day])
    {
      var m :| 0 <= m < |week| && Kept(week[m]) && data[j] == RecordOf(staffId, tenant, week[m]);
      assert week[m].dayOfWeek == m;
    }
    if Kept(week[day]) {
      assert week == week[..day] + [week[day]] + week[day + 1..];
      WorkingDaysConcat(staffId, tenant, week[..day] + [week[day]], week[day + 1..]);
      WorkingDaysConcat(staffId, tenant, week[..day], [week[day]]);
      assert WorkingDays(staffId, tenant, [week[day]]) == [RecordOf(staffId, tenant, week[day])] by {
        assert [week[day]][1..] == [];
      }
      var j := |WorkingDays(staffId, tenant, week[..day])|;
      assert data[j] == RecordOf(staffId, tenant, week[day]);
    }
  }

  /**
   * Saving an editor week and loading it again gives back every working
   * day with both times set, and turns every other day into a day off with
   * empty times, as long as at least one day was kept.
   */
  lemma SaveThenLoad(staffId: string, tenant: string, rows: seq<ScheduleRow>)
    requires EditorWeek(rows)
    requires exists i :: 0 <= i < 7 && Kept(Submitted(rows)[i])
    ensures var reloaded := Loaded(WorkingDays(staffId, tenant, Submitted(rows)));
      forall day :: 0 <= day < 7 ==>
        reloaded[day] == (if Kept(Submitted(rows)[day]) then rows[day] else OffRow(day))
  {
    var week := Submitted(rows);
    var data := WorkingDays(staffId, tenant, week);
    var i :| 0 <= i < 7 && Kept(week[i]);
    SavedDay(staffId, tenant, rows, i);
    forall day | 0 <= day < 7
      ensures Loaded(data)[day] == (if Kept(week[day]) then rows[day] else OffRow(day))
    {
      SavedDay(staffId, tenant, rows, day);
      match FirstIndex(data, OnDay(day))
      case Some(k) =>
        assert OnDay(day)(data[k]);
        LoadedDay(data, day, k);
      case None =>
        LoadedDay(data, day, 0);
    }
  }

  /**
   * Saving a week with no kept day deletes every stored row, and the editor
   * then shows the default week again rather than the days off it saved.
   */
  lemma SaveAllOffReloadsDefault(staffId: string, tenant: string, rows: seq<ScheduleRow>)
    requires WeekShape(rows)
    requires forall i :: 0 <= i < 7 ==> !Kept(Submitted(rows)[i])
    ensures WorkingDays(staffId, tenant, Submitted(rows)) == []
    ensures Loaded(WorkingDays(staffId, tenant, Submitted(rows))) == DefaultSchedule()
  {
    WorkingDaysEmpty(staffId, tenant, Submitted(rows));
  }

  // -------------------------------------------------------------- editing

  /** The three fields the editor's inputs change. */
  datatype Edit = SetWorking(on: bool) | SetStart(time: string) | SetEnd(time: string)

  /** `{ ...row, [field]: value }` */
  function ApplyEdit(row: ScheduleRow, e: Edit): ScheduleRow {
    match e
    case SetWorking(on) => row.(isWorking := on)
    case SetStart(t) => row.(startTime := t)
    case SetEnd(t) => row.(endTime := t)
  }

  /** `updateRow(day, field, value)`: the rows of that day edited, every other row as it was. */
  function UpdateRow(rows: seq<ScheduleRow>, day: int, e: Edit): (r: seq<ScheduleRow>)
    ensures |r| == |rows|
  {
    seq(|rows|, i requires 0 <= i < |rows| => if rows[i].dayOfWeek == day then ApplyEdit(rows[i], e) else rows[i])
  }

  /**
   * An edit keeps the week's shape, touches only the rows of its day, and
   * changes there only its own field.
   */
  lemma UpdateRowEffect(rows: seq<ScheduleRow>, day: int, e: Edit)
    ensures WeekShape(rows) ==> WeekShape(UpdateRow(rows, day, e))
    ensures forall i :: 0 <= i < |rows| && rows[i].dayOfWeek != day ==> UpdateRow(rows, day, e)[i] == rows[i]
    ensures forall i :: 0 <= i < |rows| && rows[i].dayOfWeek == day ==>
      var r := UpdateRow(rows, day, e)[i];
      && r.dayOfWeek == day
      && r.isWorking == (if e.SetWorking? then e.on else rows[i].isWorking)
      && r.startTime == (if e.SetStart? then e.time else rows[i].startTime)
      && r.endTime == (if e.SetEnd? then e.time else rows[i].endTime)
  {
  }

  /** Setting the same field of the same day twice leaves the second value. */
  lemma UpdateRowLastWins(rows: seq<ScheduleRow>, day: int, e1: Edit, e2: Edit)
    requires e1.SetWorking? == e2.SetWorking? && e1.SetStart? == e2.SetStart?
    ensures UpdateRow(UpdateRow(rows, day, e1), day, e2) == UpdateRow(rows, day, e2)
  {
  }

  /** Edits of two different days can be made in either order. */
  lemma UpdateRowCommutes(rows: seq<ScheduleRow>, day1: int, e1: Edit, day2: int, e2: Edit)
    requires day1 != day2
    ensures UpdateRow(UpdateRow(rows, day1, e1), day2, e2) == UpdateRow(UpdateRow(rows, day2, e2), day1, e1)
  {
  }

  // ------------------------------------------------------------- display

  /** `(a.day_of_week - todayIndex + 7) % 7`, the sort key. */
  function Distance(today: int, row: ScheduleRow): int {
    JsRem(row.dayOfWeek - today + 7, 7)
  }

  predicate Ascending(today: int, rows: seq<ScheduleRow>) {
    forall i :: 0 < i < |rows| ==> Distance(today, rows[i - 1]) <= Distance(today, rows[i])
  }

  /** Places `x` before the first row of `sorted` that is at least as far from today. */
  function InsertByDistance(today: int, x: ScheduleRow, sorted: seq<ScheduleRow>): (r: seq<ScheduleRow>)
    ensures multiset(r) == multiset(sorted) + multiset{x}
    ensures sorted != [] ==> r[0] == x || r[0] == sorted[0]
    ensures sorted == [] ==> r == [x]
    ensures Ascending(today, sorted) ==> Ascending(today, r)
    decreases |sorted|
  {
    if sorted == [] || Distance(today, x) <= Distance(today, sorted[0]) then
      AscendingCons(today, x, sorted);
      [x] + sorted
    else
      assert sorted == [sorted[0]] + sorted[1..];
      var rest := InsertByDistance(today, x, sorted[1..]);
      AscendingCons(today, sorted[0], rest);
      [sorted[0]] + rest
  }

  /** A row no farther than the head of an ascending list can go in front of it. */
  lemma AscendingCons(today: int, h: ScheduleRow, rest: seq<ScheduleRow>)
    ensures Ascending(today, rest) && (rest != [] ==> Distance(today, h) <= Distance(today, rest[0])) ==>
      Ascending(today, [h] + rest)
  {
    var r := [h] + rest;
    assert forall i :: 1 <= i < |r| ==> r[i] == rest[i - 1];
  }

  /**
   * `[...schedule].sort(...)` with the comparator `diffA - diffB`: a stable
   * sort of a copy, so a permutation of the rows in ascending distance.
   */
  function SortByDistance(today: int, rows: seq<ScheduleRow>): (r: seq<ScheduleRow>)
    ensures multiset(r) == multiset(rows)
    ensures Ascending(today, r)
    decreases |rows|
  {
    if rows == [] then []
    else
      assert rows == [rows[0]] + rows[1..];
      InsertByDistance(today, rows[0], SortByDistance(today, rows[1..]))
  }

  lemma {:induction false} AscendingPairs(today: int, rows: seq<ScheduleRow>, i: int, j: int)
    requires Ascending(today, rows) && 0 <= i <= j < |rows|
    ensures Distance(today, rows[i]) <= Distance(today, rows[j])
    decreases j - i
  {
    if i < j {
      AscendingPairs(today, rows, i, j - 1);
    }
  }

  /** Within a week of days 0 to 6, a day's distance from today is in [0, 7), and 0 only for today. */
  lemma DistanceRange(today: int, row: ScheduleRow)
    requires 0 <= today < 7 && 0 <= row.dayOfWeek < 7
    ensures 0 <= Distance(today, row) < 7
    ensures Distance(today, row) == 0 <==> row.dayOfWeek == today
  {
    var a := row.dayOfWeek - today + 7;
    if row.dayOfWeek >= today {
      assert a % 7 == a - 7;
    } else {
      assert a % 7 == a;
    }
  }

  /**
   * For a week of days 0 to 6 and today's index, the listing starts with
   * today's row, and it holds every row of the week.
   */
  lemma TodayFirst(today: int, rows: seq<ScheduleRow>)
    requires 0 <= today < 7
    requires forall i :: 0 <= i < |rows| ==> 0 <= rows[i].dayOfWeek < 7
    requires exists i :: 0 <= i < |rows| && rows[i].dayOfWeek == today
    ensures var sorted := SortByDistance(today, rows);
      |sorted| == |rows| && sorted[0].dayOfWeek == today
  {
    var sorted := SortByDistance(today, rows);
    var i :| 0 <= i < |rows| && rows[i].dayOfWeek == today;
    assert |sorted| == |rows| by {
      assert |multiset(sorted)| == |multiset(rows)|;
    }
    assert rows[i] in multiset(rows);
    assert rows[i] in sorted;
    var j :| 0 <= j < |sorted| && sorted[j] == rows[i];
    AscendingPairs(today, sorted, 0, j);
    assert sorted[0] in multiset(rows);
    var k :| 0 <= k < |rows| && rows[k] == sorted[0];
    DistanceRange(today, rows[i]);
    DistanceRange(today, rows[k]);
  }

  /**
   * The offset to a day's next occurrence: `day - current`, plus 7 when
   * that day has already passed this week.
   */
  function NextOffset(day: int, current: int): (r: int)
    ensures 0 <= day < 7 && 0 <= current < 7 ==> 0 <= r < 7 && (current + r) % 7 == day
  {
    var diff := day - current;
    if diff < 0 then diff + 7 else diff
  }
}
