/**
 * The call-log page of the admin console: how a call's length is written,
 * which status style a call gets, and which card is expanded.
 */
module CallsPage {
  import opened Wrappers
  import opened Text
  import opened Domain

  /** `formatDuration(secs)`: '—' for a missing or zero length, otherwise `m:ss`. */
  function FormatDuration(secs: Option<int>): (r: string)
    ensures secs.None? || secs.value == 0 <==> r == "—"
  {
    if secs.None? || secs.value == 0 then "—"
    else
      var m := secs.value / 60;
      var s := JsRem(secs.value, 60);
      IntToString(m) + ":" + PadStart2(IntToString(s))
  }

  /** A number of seconds below a minute is written with exactly two digits that read back as it. */
  lemma TwoDigits(s: nat)
    requires s < 60
    ensures |PadStart2(NatToString(s))| == 2
    ensures AllDigits(PadStart2(NatToString(s)))
    ensures DecimalValue(PadStart2(NatToString(s))) == s
  {
    NatToStringLength(s);
    DecimalRoundTrip(s);
    var t := PadStart2(NatToString(s));
    if s < 10 {
      assert t == "0" + NatToString(s);
      assert t[..1] == "0";
      assert DecimalValue(t[..1]) == 0 by {
        assert t[..1][..0] == [];
      }
      assert NatToString(s) == [DigitChar(s)];
    }
  }

  /**
   * A positive length is written as minutes, a colon and two digits of
   * seconds; reading them back gives minutes·60 + seconds = the length,
   * with fewer than 60 seconds.
   */
  lemma DurationReadBack(secs: int)
    requires secs > 0
    ensures var r := FormatDuration(Some(secs));
      && |r| >= 4 && r[|r| - 3] == ':'
      && AllDigits(r[..|r| - 3]) && AllDigits(r[|r| - 2..])
      && DecimalValue(r[|r| - 2..]) < 60
      && DecimalValue(r[..|r| - 3]) * 60 + DecimalValue(r[|r| - 2..]) == secs
  {
    var m := secs / 60;
    var s := secs % 60;
    var r := FormatDuration(Some(secs));
    var digits := PadStart2(NatToString(s));
    TwoDigits(s);
    DecimalRoundTrip(m);
    assert r == NatToString(m) + ":" + digits;
    assert r[..|r| - 3] == NatToString(m);
    assert r[|r| - 2..] == digits;
  }

  // ------------------------------------------------------------- status

  /** The four styles of `statusConfig`. */
  datatype CallStyle = CompletedStyle | FailedStyle | InProgressStyle | EscalatedStyle

  /** `statusConfig[call.status || 'in_progress'] || statusConfig.in_progress` */
  function StatusStyle(status: Option<string>): (r: CallStyle)
    ensures r == InProgressStyle <==>
      !(TruthyString(status) && status.value in ["completed", "failed", "escalated"])
  {
    var key := StringOr(status, "in_progress");
    if key == "completed" then CompletedStyle
    else if key == "failed" then FailedStyle
    else if key == "escalated" then EscalatedStyle
    else InProgressStyle
  }

  // ------------------------------------------------------------- expand

  /** `setExpandedId(isExpanded ? null : call.id)` */
  function Toggle(expanded: Option<string>, clicked: string): (r: Option<string>)
    ensures expanded == Some(clicked) ==> r == None
    ensures expanded != Some(clicked) ==> r == Some(clicked)
  {
    if expanded == Some(clicked) then None else Some(clicked)
  }

  /**
   * After a click, a card is expanded exactly when it is the clicked card
   * and was not expanded before, so at most one card is ever open, and
   * clicking the same card twice restores a closed list.
   */
  lemma ToggleEffect(expanded: Option<string>, clicked: string, card: string)
    ensures Toggle(expanded, clicked) == Some(card) <==> card == clicked && expanded != Some(clicked)
    ensures expanded == None ==> Toggle(Toggle(expanded, clicked), clicked) == None
  {
  }
}
