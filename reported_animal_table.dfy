/** The NGO's table of reported animals: the "time since" text, the status
    label, and the busy flag while a status change is in flight. */
module ReportedAnimalTable {
  import opened JsText
  import opened Schema

  const MinuteMs := 1000 * 60
  const HourMs := 1000 * 60 * 60
  const DayMs := 1000 * 60 * 60 * 24

  /** "`n` `unit`s ago", with the plural `s` unless `n` is exactly 1. */
  function Phrase(n: int, unit: string): string {
    IntToString(n) + " " + unit + (if n != 1 then "s" else "") + " ago"
  }

  /** The singular form is used exactly when the count is 1. */
  lemma SingularIffOne(n: int, unit: string)
    ensures Phrase(n, unit) == IntToString(n) + " " + unit + " ago" <==> n == 1
  {
    if n != 1 {
      assert |Phrase(n, unit)| == |IntToString(n) + " " + unit + " ago"| + 1;
    }
  }

  /** `formatTimeSince(reportedAt)` at the instant `now` (both in
      milliseconds). `Math.floor` of a quotient by a positive constant is
      Dafny's integer division. Under an hour it counts minutes, under a
      day hours, and days beyond. */
  function FormatTimeSince(now: int, reportedAt: int): (r: string)
    ensures var e := now - reportedAt;
      && (e < HourMs ==> r == Phrase(e / MinuteMs, "minute"))
      && (HourMs <= e < DayMs ==> r == Phrase(e / HourMs, "hour"))
      && (DayMs <= e ==> r == Phrase(e / DayMs, "day"))
  {
    var elapsed := now - reportedAt;
    var minutes := elapsed / MinuteMs;
    var hours := elapsed / HourMs;
    var days := elapsed / DayMs;
    assert minutes < 60 <==> elapsed < HourMs;
    assert hours < 24 <==> elapsed < DayMs;
    if minutes < 60 then Phrase(minutes, "minute")
    else if hours < 24 then Phrase(hours, "hour")
    else Phrase(days, "day")
  }

  /** The unit follows the elapsed time (under an hour, under a day, or
      more), and the count is the number of whole units elapsed. */
  lemma FormatCountsWholeUnits(now: int, reportedAt: int, c: int)
    ensures var e := now - reportedAt;
      e < HourMs && c * MinuteMs <= e < (c + 1) * MinuteMs ==>
        FormatTimeSince(now, reportedAt) == Phrase(c, "minute")
    ensures var e := now - reportedAt;
      HourMs <= e < DayMs && c * HourMs <= e < (c + 1) * HourMs ==>
        FormatTimeSince(now, reportedAt) == Phrase(c, "hour")
    ensures var e := now - reportedAt;
      DayMs <= e && c * DayMs <= e < (c + 1) * DayMs ==>
        FormatTimeSince(now, reportedAt) == Phrase(c, "day")
  {
    var e := now - reportedAt;
    FloorIsUnique(e, MinuteMs, c);
    FloorIsUnique(e, HourMs, c);
    FloorIsUnique(e, DayMs, c);
  }

  /** The quotient is the only count of whole units that fits. */
  lemma FloorIsUnique(e: int, d: int, c: int)
    requires d > 0
    ensures c * d <= e < (c + 1) * d ==> e / d == c
  {
    var q, r := e / d, e % d;
    assert e == q * d + r && 0 <= r < d;
    if c * d <= e < (c + 1) * d {
      if q < c {
        MultiplyMonotone(q + 1, c, d);
      } else if q > c {
        MultiplyMonotone(c + 1, q, d);
      }
    }
  }

  /** The nonlinear step of `FloorIsUnique`, kept apart so that the
      solver sees it on its own. */
  lemma MultiplyMonotone(a: int, b: int, d: int)
    requires a <= b && d > 0
    ensures a * d <= b * d
  {
  }

  /** At the unit boundaries the larger unit takes over in the singular. */
  lemma Boundaries(reportedAt: int)
    ensures FormatTimeSince(reportedAt + 59 * MinuteMs, reportedAt) == "59 minutes ago"
    ensures FormatTimeSince(reportedAt + 3600000, reportedAt) == "1 hour ago"
    ensures FormatTimeSince(reportedAt + 86400000, reportedAt) == "1 day ago"
  {
    assert IntToString(59) == "59" by { assert NatToString(59) == NatToString(5) + [DigitChar(9)]; }
    assert IntToString(1) == "1";
    assert Phrase(59, "minute") == "59 minutes ago";
    assert Phrase(1, "hour") == "1 hour ago";
    assert Phrase(1, "day") == "1 day ago";
    assert (59 * MinuteMs) / MinuteMs == 59 && 3600000 / HourMs == 1 && 86400000 / DayMs == 1;
  }

  /** `status.charAt(0).toUpperCase() + status.slice(1)` */
  function Capitalize(s: string): (r: string)
    ensures |r| == |s|
    ensures |s| > 0 ==> r[0] == UpperChar(s[0]) && r[1..] == s[1..]
  {
    if |s| == 0 then "" else [UpperChar(s[0])] + s[1..]
  }

  /** The label differs from the status only in the case of its first
      letter. */
  lemma CapitalizeKeepsLetters(s: string)
    ensures ToLower(Capitalize(s)) == ToLower(s)
  {
    if |s| > 0 {
      assert ToLower(Capitalize(s))[0] == ToLower(s)[0];
    }
  }

  /** `apiRequest("PATCH", url, { status })` */
  datatype Patch = Patch(url: string, status: string)

  datatype Toast = Toast(title: string, description: string)

  const UpdateFailed := Toast("Update Failed", "Failed to update animal status. Please try again.")

  class StatusTable {
    /** `isUpdating`: the id whose change is in flight, or `null`. */
    var isUpdating: Option<int>

    constructor ()
      ensures isUpdating == None
    {
      isUpdating := None;
    }

    /** A row's status select is disabled while its own change is in flight. */
    predicate SelectDisabled(id: int)
      reads this
      ensures SelectDisabled(id) ==> forall other :: other != id ==> isUpdating != Some(other)
    {
      isUpdating == Some(id)
    }

    /** `handleStatusChange(id, status)`; `accepted` is whether the request
        succeeded. `busy` is `isUpdating` while the request is in flight;
        afterwards it is `null` whatever the outcome. */
    method HandleStatusChange(id: int, status: string, accepted: bool)
      returns (request: Patch, busy: Option<int>, toast: Toast, refetched: bool)
      modifies this
      ensures request == Patch("/api/reported-animals/" + IntToString(id) + "/status", status)
      ensures busy == Some(id) && isUpdating == None
      ensures forall other :: !SelectDisabled(other)
      ensures accepted ==> toast == Toast("Status Updated", "Animal status has been updated to " + status) && refetched
      ensures !accepted ==> toast == UpdateFailed && !refetched
    {
      isUpdating := Some(id);
      request := Patch("/api/reported-animals/" + IntToString(id) + "/status", status);
      busy := isUpdating;
      if accepted {
        toast := Toast("Status Updated", "Animal status has been updated to " + status);
        refetched := true;
      } else {
        toast := UpdateFailed;
        refetched := false;
      }
      isUpdating := None;
    }
  }
}
