/**
 The box up-hours schedule (deploy/box/scheduler/schedule.py): weekly windows in minutes, and the
 plan a tick makes from what it observes. Text parsing is left out; a schedule is its windows.
 */
module Schedule {
  import opened Wrappers

  const MINUTES_PER_DAY := 1440
  const MINUTES_PER_WEEK := 10080

  /** On each day, from `start` to `end` minutes past midnight; `end <= start` wraps into the next day. */
  datatype Window = Window(days: set<int>, start: int, end: int) {
    /** What parse_schedule guarantees of every window. */
    predicate Parsed() {
      (forall d :: d in days ==> 0 <= d < 7) && 0 <= start <= MINUTES_PER_DAY && 0 <= end <= MINUTES_PER_DAY
    }

    function Length(): int {
      if end > start then end - start else end + MINUTES_PER_DAY - start
    }

    /** The week is a circle of 10080 minutes; on day `d` the window is the arc of its length that
        starts at its start. */
    predicate Covers(d: int, minuteOfWeek: int) {
      (minuteOfWeek - (d * MINUTES_PER_DAY + start)) % MINUTES_PER_WEEK < Length()
    }
  }

  ghost predicate InSomeWindow(windows: seq<Window>, minuteOfWeek: int) {
    exists i, d :: 0 <= i < |windows| && d in windows[i].days && windows[i].Covers(d, minuteOfWeek)
  }

  /** is_up's test of one window. */
  predicate UpIn(w: Window, today: int, minute: int) {
    var yesterday := (today - 1) % 7;
    if w.end > w.start then today in w.days && w.start <= minute < w.end
    else (today in w.days && minute >= w.start) || (yesterday in w.days && minute < w.end)
  }

  /** A day's arc reaches today, and for a wrapping window tomorrow, and no further. */
  lemma CoversOnlyThen(w: Window, d: int, today: int, minute: int)
    requires w.Parsed() && d in w.days && 0 <= today < 7 && 0 <= minute < MINUTES_PER_DAY
    ensures w.Covers(d, today * MINUTES_PER_DAY + minute) <==>
      || (d == today && w.start <= minute && (w.end > w.start ==> minute < w.end))
      || (w.end <= w.start && d == (today - 1) % 7 && minute < w.end)
  {
    var k := (today - d) % 7;
    var off := k * MINUTES_PER_DAY + minute - w.start;
    assert today - d == k || today - d == k - 7;
    assert (today * MINUTES_PER_DAY + minute - (d * MINUTES_PER_DAY + w.start)) % MINUTES_PER_WEEK ==
      off % MINUTES_PER_WEEK;
    assert off % MINUTES_PER_WEEK == if off < 0 then off + MINUTES_PER_WEEK else off;
  }

  lemma UpInIsCovered(w: Window, today: int, minute: int)
    requires w.Parsed() && 0 <= today < 7 && 0 <= minute < MINUTES_PER_DAY
    ensures UpIn(w, today, minute) <==> exists d :: d in w.days && w.Covers(d, today * MINUTES_PER_DAY + minute)
  {
    var m := today * MINUTES_PER_DAY + minute;
    forall d | d in w.days ensures w.Covers(d, m) ==> UpIn(w, today, minute) { CoversOnlyThen(w, d, today, minute); }
    if UpIn(w, today, minute) {
      var isToday := today in w.days && w.start <= minute && (w.end > w.start ==> minute < w.end);
      var d := if isToday then today else (today - 1) % 7;
      CoversOnlyThen(w, d, today, minute);
    }
  }

  /** Up exactly when the minute of the week lies in a listed day's window, Sunday into Monday
      included. */
  method IsUp(windows: seq<Window>, today: int, minute: int) returns (up: bool)
    requires forall i :: 0 <= i < |windows| ==> windows[i].Parsed()
    requires 0 <= today < 7 && 0 <= minute < MINUTES_PER_DAY
    ensures up <==> InSomeWindow(windows, today * MINUTES_PER_DAY + minute)
  {
    var yesterday := (today - 1) % 7;
    ghost var m := today * MINUTES_PER_DAY + minute;
    for i := 0 to |windows|
      invariant forall j, d :: 0 <= j < i && d in windows[j].days ==> !windows[j].Covers(d, m)
    {
      var w := windows[i];
      UpInIsCovered(w, today, minute);
      if w.end > w.start {
        if today in w.days && w.start <= minute < w.end { return true; }
        continue;
      }
      if today in w.days && minute >= w.start { return true; }
      if yesterday in w.days && minute < w.end { return true; }
    }
    return false;
  }

  /** How many days after `first` the day `d` comes round. */
  function DaysAfter(first: int, d: int): int { (d - first) % 7 }

  predicate InRange(first: int, last: int, d: int) {
    if first <= last then first <= d <= last else first <= d || d <= last
  }

  lemma RangeIsCircular(first: int, last: int, d: int)
    requires 0 <= first < 7 && 0 <= last < 7 && 0 <= d < 7
    ensures DaysAfter(first, d) <= DaysAfter(first, last) <==> InRange(first, last, d)
  {
  }

  /** parse_days' "Fri-Mon": the days from first to last, through Sunday. */
  method DayRange(first: int, last: int) returns (days: set<int>)
    requires 0 <= first < 7 && 0 <= last < 7
    ensures forall d :: d in days <==> 0 <= d < 7 && InRange(first, last, d)
  {
    var span := (last - first) % 7;
    days := {};
    for offset := 0 to span + 1
      invariant forall d :: d in days <==> 0 <= d < 7 && DaysAfter(first, d) < offset
    {
      days := days + {(first + offset) % 7};
    }
    forall d | 0 <= d < 7 ensures DaysAfter(first, d) < span + 1 <==> InRange(first, last, d) {
      RangeIsCircular(first, last, d);
    }
  }

  // ------------------------------------------------------------------ plan

  type Time = int

  datatype Action = Start | Close | StopEngine | CloseStop | Wait | Nothing

  datatype Plan = Plan(action: Action, deadline: Option<Time>)

  function PlanTick(wantUp: bool, gateClosed: bool, engineRunning: bool, deadline: Option<Time>, now: Time,
                    drain: int): (p: Plan)
    // nothing to do exactly when the box matches the schedule; otherwise up means start
    ensures p.action.Nothing? <==> (engineRunning == wantUp && gateClosed == !wantUp)
    ensures p.action.Start? <==> wantUp && !p.action.Nothing?
    // an engine running out of window is stopped at once only without a drain, else after its deadline
    ensures !wantUp && engineRunning && drain > 0 ==>
      && (p.action.StopEngine? <==> gateClosed && deadline.Some? && deadline.value <= now)
      && (p.action.Wait? <==> gateClosed && deadline.Some? && now < deadline.value)
      && (p.action.Close? <==> !gateClosed || deadline.None?)
    ensures p.action.CloseStop? <==> !wantUp && (if engineRunning then drain <= 0 else !gateClosed)
    ensures p.action.Close? ==> p.deadline == Some(now + drain)
    ensures p.action.Wait? ==> p.deadline == deadline
  {
    if wantUp then
      if engineRunning && !gateClosed then Plan(Nothing, None) else Plan(Start, None)
    else if !engineRunning then
      if gateClosed then Plan(Nothing, None) else Plan(CloseStop, None)
    else if drain <= 0 then Plan(CloseStop, None)
    else if !gateClosed || deadline.None? then Plan(Close, Some(now + drain))
    else if deadline.value <= now then Plan(StopEngine, None)
    else Plan(Wait, deadline)
  }
}
