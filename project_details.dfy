/** components/ProjectDetails.tsx: the upcoming-task window (filter, then an
    in-place sort by start day), the days-until label, the four totals of
    the overview, and the in-place sort of the task calendar when the tasks
    tab is opened. */
module ProjectDetails {
  import opened Wrappers
  import opened Types
  import opened JsBuiltins
  import GrowthTracker

  // ---------------------------------------------------------------------------
  // Days passed

  /** Unlike the tracker, this page does not clamp the day count: it is the
      raw difference of day numbers, NaN (`None`) for an invalid date. The
      tracker's count agrees with it exactly when it lies within the cycle. */
  lemma DaysPassedIsUnclamped(creationDate: string, today: int, totalDays: int)
    requires totalDays >= 0
    ensures var raw := GrowthTracker.RawDaysPassed(creationDate, today);
            var tracked := GrowthTracker.DaysPassed(creationDate, today, totalDays);
            && (raw.None? <==> tracked.None?)
            && (raw.Some? ==> (tracked == raw <==> 0 <= raw.value <= totalDays))
  {
    var raw := GrowthTracker.RawDaysPassed(creationDate, today);
    if raw.Some? {
      GrowthTracker.ClampIsWithinCycle(raw.value, totalDays);
    }
  }

  // ---------------------------------------------------------------------------
  // Upcoming tasks

  /** A task starts within the next three days (today included); with a NaN
      day count both comparisons are false. */
  predicate IsUpcoming(task: Task, daysPassed: Option<int>) {
    daysPassed.Some? && 0 <= task.startDay - daysPassed.value <= 3
  }

  /** `taskCalendar.filter(...)`: the upcoming tasks in calendar order. */
  function UpcomingFilter(tasks: seq<Task>, daysPassed: Option<int>): (r: seq<Task>)
    ensures |r| <= |tasks|
    ensures forall t :: t in r <==> t in tasks && IsUpcoming(t, daysPassed)
    ensures forall t :: IsUpcoming(t, daysPassed) ==> multiset(r)[t] == multiset(tasks)[t]
    ensures forall t :: !IsUpcoming(t, daysPassed) ==> multiset(r)[t] == 0
    ensures forall d :: StartingOn(r, d) ==
              if daysPassed.Some? && 0 <= d - daysPassed.value <= 3 then StartingOn(tasks, d) else []
  {
    if tasks == [] then []
    else
      var rest := UpcomingFilter(tasks[..|tasks| - 1], daysPassed);
      var last := tasks[|tasks| - 1];
      assert tasks == tasks[..|tasks| - 1] + [last];
      if IsUpcoming(last, daysPassed) then rest + [last] else rest
  }

  /** Ascending by start day. */
  predicate SortedByStart(s: seq<Task>) {
    forall i, j :: 0 <= i < j < |s| ==> s[i].startDay <= s[j].startDay
  }

  /** Insert `x` into a sequence after every element whose start day is not
      greater than its own: the place a stable sort gives it. */
  function Insert(s: seq<Task>, x: Task): seq<Task>
  {
    if s == [] then [x]
    else if s[|s| - 1].startDay > x.startDay then Insert(s[..|s| - 1], x) + [s[|s| - 1]]
    else s + [x]
  }

  /** Insertion adds exactly `x`. */
  lemma {:induction false} InsertAddsOne(s: seq<Task>, x: Task)
    ensures multiset(Insert(s, x)) == multiset(s) + multiset{x}
    decreases |s|
  {
    if s != [] && s[|s| - 1].startDay > x.startDay {
      assert s == s[..|s| - 1] + [s[|s| - 1]];
      InsertAddsOne(s[..|s| - 1], x);
    }
  }

  /** Inserting into a sorted sequence keeps it sorted. */
  lemma {:induction false} InsertSorted(s: seq<Task>, x: Task)
    requires SortedByStart(s)
    ensures SortedByStart(Insert(s, x))
    decreases |s|
  {
    if s != [] && s[|s| - 1].startDay > x.startDay {
      var init, last := s[..|s| - 1], s[|s| - 1];
      InsertSorted(init, x);
      var r := Insert(init, x);
      InsertAddsOne(init, x);
      forall t | t in r
        ensures t.startDay <= last.startDay
      {
        assert t in multiset(r);
        assert t in init || t == x;
      }
      assert forall i :: 0 <= i < |r| ==> r[i] in r;
    }
  }

  /** The stable sort by start day, as repeated insertion. */
  function SortByStart(s: seq<Task>): seq<Task>
  {
    if s == [] then [] else Insert(SortByStart(s[..|s| - 1]), s[|s| - 1])
  }

  /** The sort yields a sorted permutation of its input. */
  lemma {:induction false} SortByStartIsSortedPermutation(s: seq<Task>)
    ensures multiset(SortByStart(s)) == multiset(s)
    ensures SortedByStart(SortByStart(s))
    decreases |s|
  {
    if s != [] {
      var init, last := s[..|s| - 1], s[|s| - 1];
      assert s == init + [last];
      SortByStartIsSortedPermutation(init);
      InsertSorted(SortByStart(init), last);
      InsertAddsOne(SortByStart(init), last);
    }
  }

  /** The tasks of `s` that start on day `d`, in their order. */
  function StartingOn(s: seq<Task>, d: int): seq<Task>
  {
    if s == [] then []
    else StartingOn(s[..|s| - 1], d) + (if s[|s| - 1].startDay == d then [s[|s| - 1]] else [])
  }

  lemma {:induction false} StartingOnAppend(a: seq<Task>, b: seq<Task>, d: int)
    ensures StartingOn(a + b, d) == StartingOn(a, d) + StartingOn(b, d)
    decreases |b|
  {
    if b == [] {
      assert a + b == a;
    } else {
      assert (a + b)[..|a + b| - 1] == a + b[..|b| - 1];
      StartingOnAppend(a, b[..|b| - 1], d);
    }
  }

  lemma {:induction false} StartingOnInsert(s: seq<Task>, x: Task, d: int)
    ensures StartingOn(Insert(s, x), d) == StartingOn(s, d) + (if x.startDay == d then [x] else [])
    decreases |s|
  {
    if s == [] {
      assert StartingOn([x], d) == StartingOn([], d) + (if x.startDay == d then [x] else []);
    } else if s[|s| - 1].startDay > x.startDay {
      var init, last := s[..|s| - 1], s[|s| - 1];
      StartingOnInsert(init, x, d);
      StartingOnAppend(Insert(init, x), [last], d);
      assert StartingOn([last], d) == (if last.startDay == d then [last] else []);
    } else {
      StartingOnAppend(s, [x], d);
      assert StartingOn([x], d) == (if x.startDay == d then [x] else []);
    }
  }

  /** The sort is stable: the tasks sharing a start day keep their relative
      order. */
  lemma {:induction false} SortIsStable(s: seq<Task>, d: int)
    ensures StartingOn(SortByStart(s), d) == StartingOn(s, d)
    decreases |s|
  {
    if s != [] {
      SortIsStable(s[..|s| - 1], d);
      StartingOnInsert(SortByStart(s[..|s| - 1]), s[|s| - 1], d);
    }
  }

  /** Swapping `x` at `j` with the larger element before it keeps the
      outcome of inserting `x` into the prefix. */
  lemma SwapStep(s: seq<Task>, j: int, hi: int, x: Task)
    requires 0 < j < hi <= |s| && s[j] == x && s[j - 1].startDay > x.startDay
    ensures var t := s[j - 1 := x][j := s[j - 1]];
            Insert(t[..j - 1], x) + t[j..hi] == Insert(s[..j], x) + s[j + 1..hi]
  {
    var t := s[j - 1 := x][j := s[j - 1]];
    assert s[..j] == s[..j - 1] + [s[j - 1]];
    assert t[..j - 1] == s[..j - 1];
    assert t[j..hi] == [s[j - 1]] + s[j + 1..hi];
  }

  /** One pass of the insertion sort: move `a[i]` left past the larger start
      days before it. */
  method InsertAt(a: array<Task>, i: int)
    requires 0 <= i < a.Length
    modifies a
    ensures a[..i + 1] == Insert(old(a[..i]), old(a[i]))
    ensures a[i + 1..] == old(a[i + 1..])
  {
    var x := a[i];
    var j := i;
    while j > 0 && a[j - 1].startDay > x.startDay
      invariant 0 <= j <= i
      invariant a[j] == x
      invariant Insert(a[..j], x) + a[j + 1..i + 1] == Insert(old(a[..i]), x)
      invariant a[i + 1..] == old(a[i + 1..])
    {
      SwapStep(a[..], j, i + 1, x);
      a[j - 1], a[j] := a[j], a[j - 1];
      j := j - 1;
    }
    assert a[..i + 1] == a[..j] + [x] + a[j + 1..i + 1];
  }

  /** `a.sort((a, b) => a.startDay - b.startDay)` in place, as an insertion
      sort. */
  method SortTasksInPlace(a: array<Task>)
    modifies a
    ensures a[..] == SortByStart(old(a[..]))
  {
    ghost var orig := a[..];
    var i := 0;
    while i < a.Length
      invariant 0 <= i <= a.Length
      invariant a[..i] == SortByStart(orig[..i])
      invariant a[i..] == orig[i..]
    {
      assert orig[..i + 1][..i] == orig[..i];
      assert a[i] == orig[i] && a[i + 1..] == orig[i + 1..];
      InsertAt(a, i);
      assert a[i + 1..] == orig[i + 1..];
      i := i + 1;
    }
    assert a[..] == a[..a.Length];
    assert orig == orig[..a.Length];
  }

  /** The first effect: filter the calendar to the upcoming window, then sort
      the fresh array by start day. */
  method UpcomingTasks(calendar: seq<Task>, daysPassed: Option<int>) returns (upcoming: seq<Task>)
    ensures upcoming == SortByStart(UpcomingFilter(calendar, daysPassed))
  {
    var filtered := UpcomingFilter(calendar, daysPassed);
    var a := new Task[|filtered|](i requires 0 <= i < |filtered| => filtered[i]);
    assert a[..] == filtered;
    SortTasksInPlace(a);
    upcoming := a[..];
  }

  /** The upcoming list is exactly the tasks of the window, each as often as
      in the calendar, and sorted by start day. */
  lemma UpcomingIsSortedWindow(calendar: seq<Task>, daysPassed: Option<int>)
    ensures var u := SortByStart(UpcomingFilter(calendar, daysPassed));
            && SortedByStart(u)
            && (forall t :: t in u <==> t in calendar && IsUpcoming(t, daysPassed))
            && (forall t :: IsUpcoming(t, daysPassed) ==> multiset(u)[t] == multiset(calendar)[t])
            && |u| <= |calendar|
  {
    var f := UpcomingFilter(calendar, daysPassed);
    var u := SortByStart(f);
    SortByStartIsSortedPermutation(f);
    assert forall t :: t in u <==> t in multiset(u);
    assert forall t :: t in f <==> t in multiset(f);
    assert |u| == |multiset(u)| == |multiset(f)| == |f|;
  }

  /** Without a valid creation date no task is upcoming. */
  lemma NoUpcomingWithoutDate(calendar: seq<Task>)
    ensures SortByStart(UpcomingFilter(calendar, None)) == []
  {
  }

  /** The tasks tab sorts the project's own calendar array in place. */
  method OpenTasksTab(taskCalendar: array<Task>)
    modifies taskCalendar
    ensures taskCalendar[..] == SortByStart(old(taskCalendar[..]))
  {
    SortTasksInPlace(taskCalendar);
  }

  /** Sorting an already sorted calendar changes nothing, so opening the tab
      again leaves the calendar as the first opening left it. */
  lemma {:induction false} SortSortedIsIdentity(s: seq<Task>)
    requires SortedByStart(s)
    ensures SortByStart(s) == s
    decreases |s|
  {
    if s != [] {
      var init, last := s[..|s| - 1], s[|s| - 1];
      assert SortedByStart(init);
      SortSortedIsIdentity(init);
      assert init == [] || init[|init| - 1].startDay <= last.startDay;
      assert s == init + [last];
    }
  }

  // ---------------------------------------------------------------------------
  // Days-until label

  /** `renderDaysUntilMessage`: the label for a task starting on `startDay`.
      A NaN count fails all three tests and falls through to the template. */
  function DaysUntilMessage(startDay: int, daysPassed: Option<int>): string
  {
    if daysPassed.None? then "commence dans NaN jours"
    else
      var daysUntil := startDay - daysPassed.value;
      if daysUntil < 0 then "en retard"
      else if daysUntil == 0 then "commence aujourd'hui"
      else if daysUntil == 1 then "commence dans 1 jour"
      else "commence dans " + IntToString(daysUntil) + " jours"
  }

  /** A task is late exactly when it should have started already, and the
      other labels name the exact number of days. */
  lemma DaysUntilCases(startDay: int, daysPassed: int)
    ensures DaysUntilMessage(startDay, Some(daysPassed)) == "en retard" <==> startDay < daysPassed
    ensures DaysUntilMessage(startDay, Some(daysPassed)) == "commence aujourd'hui" <==> startDay == daysPassed
    ensures DaysUntilMessage(startDay, Some(daysPassed)) == "commence dans 1 jour" <==> startDay == daysPassed + 1
    ensures startDay >= daysPassed + 2 ==>
              DaysUntilMessage(startDay, Some(daysPassed)) == "commence dans " + NatToString(startDay - daysPassed) + " jours"
  {
    var m := DaysUntilMessage(startDay, Some(daysPassed));
    if startDay >= daysPassed + 2 {
      var n := NatToString(startDay - daysPassed);
      assert m[..5] == "comme";
      assert m[|m| - 5..] == "jours";
    }
  }

  /** Two different counts of days to go never share a label. */
  lemma DaysUntilInjective(startDay1: int, startDay2: int, daysPassed: int)
    requires startDay1 >= daysPassed && startDay2 >= daysPassed
    requires DaysUntilMessage(startDay1, Some(daysPassed)) == DaysUntilMessage(startDay2, Some(daysPassed))
    ensures startDay1 == startDay2
  {
    DaysUntilCases(startDay1, daysPassed);
    DaysUntilCases(startDay2, daysPassed);
    if startDay1 >= daysPassed + 2 && startDay2 >= daysPassed + 2 {
      var n1, n2 := NatToString(startDay1 - daysPassed), NatToString(startDay2 - daysPassed);
      var m := DaysUntilMessage(startDay1, Some(daysPassed));
      assert m == "commence dans " + n1 + " jours" == "commence dans " + n2 + " jours";
      assert n1 == m[14..|m| - 6] == n2;
      NatToStringInjective(startDay1 - daysPassed, startDay2 - daysPassed);
    }
  }

  /** Every task of the upcoming list is shown as starting today or within
      three days: never late, never NaN. */
  lemma UpcomingNeverLate(task: Task, daysPassed: Option<int>)
    requires IsUpcoming(task, daysPassed)
    ensures DaysUntilMessage(task.startDay, daysPassed) in
              {"commence aujourd'hui", "commence dans 1 jour", "commence dans 2 jours", "commence dans 3 jours"}
  {
    var n := task.startDay - daysPassed.value;
    if n == 2 {
      assert DigitChar(2) == '2';
      assert IntToString(n) == "2";
      assert "commence dans " + "2" + " jours" == "commence dans 2 jours";
    } else if n == 3 {
      assert DigitChar(3) == '3';
      assert IntToString(n) == "3";
      assert "commence dans " + "3" + " jours" == "commence dans 3 jours";
    }
  }

  // ---------------------------------------------------------------------------
  // Totals

  /** Total harvest in tonnes. */
  function TotalYieldTonnes(d: CalculatedData, fieldSizeHectares: real): real
  {
    d.estimatedYieldPerHectareKg * fieldSizeHectares / 1000.0
  }

  /** Total labour in hours. */
  function TotalLaborHours(d: CalculatedData, fieldSizeHectares: real): real
  {
    d.laborNeedsHoursPerHectare * fieldSizeHectares
  }

  /** Total number of plants. */
  function TotalPlants(d: CalculatedData, fieldSizeHectares: real): real
  {
    d.estimatedPlantsPerHectare * fieldSizeHectares
  }

  /** Total water over the whole cycle, in cubic metres. */
  function TotalWaterM3(d: CalculatedData, fieldSizeHectares: real): real
  {
    d.waterNeedsLiterPerHectarePerDay * fieldSizeHectares * d.estimatedGrowthTimeDays as real / 1000.0
  }

  predicate NonNegativeRates(d: CalculatedData) {
    && d.estimatedYieldPerHectareKg >= 0.0
    && d.laborNeedsHoursPerHectare >= 0.0
    && d.estimatedPlantsPerHectare >= 0.0
    && d.waterNeedsLiterPerHectarePerDay >= 0.0
    && d.estimatedGrowthTimeDays >= 0
  }

  /** Non-negative rates and size give non-negative totals. */
  lemma TotalsNonNegative(d: CalculatedData, fieldSizeHectares: real)
    requires NonNegativeRates(d) && fieldSizeHectares >= 0.0
    ensures TotalYieldTonnes(d, fieldSizeHectares) >= 0.0
    ensures TotalLaborHours(d, fieldSizeHectares) >= 0.0
    ensures TotalPlants(d, fieldSizeHectares) >= 0.0
    ensures TotalWaterM3(d, fieldSizeHectares) >= 0.0
  {
    var w := d.waterNeedsLiterPerHectarePerDay * fieldSizeHectares;
    assert w >= 0.0;
    assert w * d.estimatedGrowthTimeDays as real >= 0.0;
  }

  /** Each total is linear in the field size: scaling the field scales the
      total, and two fields together need what each needs. */
  lemma TotalsAreLinear(d: CalculatedData, a: real, b: real, k: real)
    ensures TotalYieldTonnes(d, k * a) == k * TotalYieldTonnes(d, a)
    ensures TotalYieldTonnes(d, a + b) == TotalYieldTonnes(d, a) + TotalYieldTonnes(d, b)
    ensures TotalLaborHours(d, k * a) == k * TotalLaborHours(d, a)
    ensures TotalLaborHours(d, a + b) == TotalLaborHours(d, a) + TotalLaborHours(d, b)
    ensures TotalPlants(d, k * a) == k * TotalPlants(d, a)
    ensures TotalPlants(d, a + b) == TotalPlants(d, a) + TotalPlants(d, b)
    ensures TotalWaterM3(d, k * a) == k * TotalWaterM3(d, a)
    ensures TotalWaterM3(d, a + b) == TotalWaterM3(d, a) + TotalWaterM3(d, b)
  {
  }
}
