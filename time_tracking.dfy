/** The time-tracking summary (apps/web/src/pages/TimeTracking.tsx). Minutes are integers;
    Math.floor over a positive divisor is Dafny's `/`, and JavaScript's `%` (which keeps the
    sign of the dividend) is written out as JsRem. */
module TimeTracking {
  import opened Common
  import opened WebTypes

  /** totalTime: the sum of timeSpent over the logs. */
  function TotalTime(logs: seq<TimeLog>): int {
    if logs == [] then 0 else logs[0].timeSpent + TotalTime(logs[1..])
  }

  lemma {:induction false} TotalTimeAppend(a: seq<TimeLog>, b: seq<TimeLog>)
    ensures TotalTime(a + b) == TotalTime(a) + TotalTime(b)
  {
    if a != [] {
      TotalTimeAppend(a[1..], b);
      assert (a + b)[1..] == a[1..] + b;
    } else {
      assert a + b == b;
    }
  }

  /** With non-negative entries the total is non-negative and bounds every entry. */
  lemma {:induction false} TotalTimeBounds(logs: seq<TimeLog>)
    requires forall k :: 0 <= k < |logs| ==> logs[k].timeSpent >= 0
    ensures TotalTime(logs) >= 0
    ensures forall k :: 0 <= k < |logs| ==> logs[k].timeSpent <= TotalTime(logs)
  {
    if logs != [] {
      TotalTimeBounds(logs[1..]);
      forall k | 1 <= k < |logs| ensures logs[k].timeSpent <= TotalTime(logs) {
        assert logs[k] == logs[1..][k - 1];
      }
    }
  }

  /** JavaScript's a % b for b > 0: truncating, so negative for a negative dividend. */
  function JsRem(a: int, b: int): (r: int)
    requires b > 0
    ensures -b < r < b
    ensures a >= 0 ==> r == a % b
  {
    if a >= 0 then a % b else -((-a) % b)
  }

  /** formatTime(m): "{floor(m/60)}h {m % 60}m". */
  function FormatTime(minutes: int): string {
    IntToString(minutes / 60) + "h " + IntToString(JsRem(minutes, 60)) + "m"
  }

  /** For a non-negative total the split is exact: hours*60 + minutes, with minutes in 0..59. */
  lemma HoursMinutesSplit(totalTime: int)
    requires totalTime >= 0
    ensures (totalTime / 60) * 60 + JsRem(totalTime, 60) == totalTime
    ensures 0 <= JsRem(totalTime, 60) < 60
    ensures totalTime / 60 >= 0
  {
  }

  /** Negative minutes mix floor and truncation: -30 renders as "-1h -30m". */
  lemma NegativeMinutesRendering()
    ensures FormatTime(-30) == "-1h -30m"
  {
    assert -30 / 60 == -1;
    assert JsRem(-30, 60) == -30;
    assert IntToString(-1) == "-1";
    assert IntToString(-30) == "-30" by {
      assert NatToString(30) == NatToString(3) + [DigitChar(0)];
    }
  }

  /** Math.round(p / q) for q > 0: the nearest integer, halves rounded up. */
  function RoundHalfUp(p: int, q: int): (r: int)
    requires q > 0
    ensures 2 * q * r - q <= 2 * p < 2 * q * r + q
  {
    var r := (2 * p + q) / (2 * q);
    assert (2 * q) * r <= 2 * p + q < (2 * q) * r + 2 * q;
    r
  }

  lemma MulAtLeast(q: int, d: int)
    requires q > 0 && d >= 1
    ensures q * d >= q
  {
    assert q * d == q + q * (d - 1);
  }

  /** The rounding is the unique integer within half a unit of p/q. */
  lemma RoundHalfUpUnique(p: int, q: int, r: int)
    requires q > 0
    requires 2 * q * r - q <= 2 * p < 2 * q * r + q
    ensures r == RoundHalfUp(p, q)
  {
    var s := RoundHalfUp(p, q);
    if r > s {
      MulAtLeast(q, r - s);
    } else if r < s {
      MulAtLeast(q, s - r);
    }
  }

  /** The "Average per Entry" figure. */
  function AverageLabel(logs: seq<TimeLog>): string {
    if |logs| > 0 then FormatTime(RoundHalfUp(TotalTime(logs), |logs|)) else "0h 0m"
  }

  /** The three figures on the page: total, number of entries, average. */
  datatype Summary = Summary(totalLabel: string, entries: nat, averageLabel: string)

  function Summarize(logs: seq<TimeLog>): Summary {
    var total := TotalTime(logs);
    Summary(FormatTime(total), |logs|, AverageLabel(logs))
  }

  /** The average label is formatTime of any integer within half a unit of total/entries. */
  lemma AverageIsRounded(logs: seq<TimeLog>, a: int)
    requires |logs| > 0
    requires 2 * |logs| * a - |logs| <= 2 * TotalTime(logs) < 2 * |logs| * a + |logs|
    ensures AverageLabel(logs) == FormatTime(a)
  {
    RoundHalfUpUnique(TotalTime(logs), |logs|, a);
  }

  lemma EmptySummary()
    ensures Summarize([]) == Summary("0h 0m", 0, "0h 0m")
  {
    assert TotalTime([]) == 0;
    assert JsRem(0, 60) == 0;
    assert IntToString(0) == "0";
  }

  /** The page's figures: the number of entries; the total label is formatTime of the sum; the
      average label is formatTime of the integer nearest to total/entries (halves up), and
      "0h 0m" with no logs, where the total label is "0h 0m" as well. */
  lemma SummarySpec(logs: seq<TimeLog>)
    ensures Summarize(logs).entries == |logs|
    ensures Summarize(logs).totalLabel == FormatTime(TotalTime(logs))
    ensures |logs| > 0 ==> forall a :: 2 * |logs| * a - |logs| <= 2 * TotalTime(logs) < 2 * |logs| * a + |logs| ==>
              Summarize(logs).averageLabel == FormatTime(a)
    ensures logs == [] ==> Summarize(logs) == Summary("0h 0m", 0, "0h 0m")
  {
    if logs == [] {
      EmptySummary();
    } else {
      forall a | 2 * |logs| * a - |logs| <= 2 * TotalTime(logs) < 2 * |logs| * a + |logs|
        ensures Summarize(logs).averageLabel == FormatTime(a)
      {
        AverageIsRounded(logs, a);
      }
    }
  }
}
