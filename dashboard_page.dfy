/**
 * The dashboard of the admin console: the "time ago" label of a recent
 * call and the all-zero figures it shows when the statistics are missing.
 * Instants here are milliseconds, as `Date.now()` gives them.
 */
module DashboardPage {
  import opened Wrappers
  import opened Text

  const MsPerMinute := 60000
  const MsPerHour := 3600000
  const MsPerDay := 86400000

  /**
   * `timeAgo(iso)` with `Date.now()` as `now` and `new Date(iso).getTime()`
   * as `past` (`None` for a date that does not parse: every comparison
   * with `NaN` is false, so the label falls through to days).
   */
  function TimeAgo(now: int, past: Option<int>): (r: string)
    ensures past.None? ==> r == "NaN day(s) ago"
  {
    match past
    case None => "NaN day(s) ago"
    case Some(t) =>
      var minutes := (now - t) / MsPerMinute;
      if minutes < 60 then IntToString(minutes) + " min ago"
      else
        var hours := minutes / 60;
        if hours < 24 then IntToString(hours) + " hr ago"
        else IntToString(hours / 24) + " day(s) ago"
  }

  /** Whole hours are whole minutes counted in sixties: `⌊⌊d/60000⌋/60⌋ = ⌊d/3600000⌋`. */
  lemma HoursOfMinutes(d: int)
    ensures d / MsPerMinute / 60 == d / MsPerHour
  {
    var m := d / MsPerMinute;
    var h := d / MsPerHour;
    assert MsPerHour * h <= d < MsPerHour * h + MsPerHour;
    assert MsPerMinute * m <= d < MsPerMinute * m + MsPerMinute;
    assert 60 * h <= m < 60 * h + 60;
  }

  /** Whole days are whole hours counted in twenty-fours. */
  lemma DaysOfHours(d: int)
    ensures d / MsPerHour / 24 == d / MsPerDay
  {
    var h := d / MsPerHour;
    var days := d / MsPerDay;
    assert MsPerDay * days <= d < MsPerDay * days + MsPerDay;
    assert MsPerHour * h <= d < MsPerHour * h + MsPerHour;
    assert 24 * days <= h < 24 * days + 24;
  }

  /**
   * A past instant is labelled with the whole minutes elapsed below an
   * hour, the whole hours elapsed below a day, and the whole days elapsed
   * after that, and reading the number back gives that count.
   */
  lemma TimeAgoUnits(now: int, past: int)
    requires now >= past
    ensures var d := now - past;
      var r := TimeAgo(now, Some(past));
      && (d < MsPerHour ==> r == NatToString(d / MsPerMinute) + " min ago")
      && (MsPerHour <= d < MsPerDay ==> r == NatToString(d / MsPerHour) + " hr ago")
      && (MsPerDay <= d ==> r == NatToString(d / MsPerDay) + " day(s) ago")
  {
    var d := now - past;
    HoursOfMinutes(d);
    DaysOfHours(d);
  }

  // ------------------------------------------------------------- figures

  /** A recent call or upcoming booking as the dashboard lists it. */
  datatype Entry = Entry(id: string, at: int)

  /** The figures `getDashboardStats` returns. */
  datatype DashStats = DashStats(todayAppointments: int, totalStaff: int, aiCalls: int, monthlyRevenue: int,
                                 upcoming: seq<Entry>, recentCalls: seq<Entry>)

  /** `stats || { …all zero, empty lists… }` */
  function Shown(stats: Option<DashStats>): (s: DashStats)
    ensures stats.Some? ==> s == stats.value
    ensures stats.None? ==>
      && s.todayAppointments == 0 && s.totalStaff == 0 && s.aiCalls == 0
      && s.monthlyRevenue == 0 && s.upcoming == [] && s.recentCalls == []
  {
    stats.GetOr(DashStats(0, 0, 0, 0, [], []))
  }
}
