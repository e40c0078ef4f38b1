/** components/GrowthTracker.tsx: the days elapsed since the project was
    created (clamped to the growth cycle), the progress percentage, and the
    growth stage that progress has reached. Also home of the `dd/mm/yyyy`
    date parsing that components/ProjectDetails.tsx repeats. */
module GrowthTracker {
  import opened Wrappers
  import opened JsBuiltins

  // ---------------------------------------------------------------------------
  // Creation dates

  /** The arguments handed to `new Date(year, monthIndex, day)`. */
  datatype DateArgs = DateArgs(year: int, monthIndex: int, day: int)

  /** `parseDate`: split at '/', take the year from part 2, the month index
      from part 1 minus one and the day from part 0. */
  function ParseDate(dateStr: string): Option<DateArgs>
  {
    DateFromParts(Split(dateStr, '/'))
  }

  /** A missing part, or one with no digits, is NaN and leaves an invalid
      date: `None`. */
  function DateFromParts(parts: seq<string>): Option<DateArgs>
    requires |parts| >= 1
  {
    DateOf(ParseInt(parts[0]),
           if |parts| > 1 then ParseInt(parts[1]) else None,
           if |parts| > 2 then ParseInt(parts[2]) else None)
  }

  /** `new Date(year, month - 1, day)` of the parsed parts. */
  function DateOf(day: Option<int>, month: Option<int>, year: Option<int>): Option<DateArgs>
  {
    if day.None? || month.None? || year.None? then None
    else Some(DateArgs(year.value, month.value - 1, day.value))
  }

  /** The local day number of the project's start, or `None` for an invalid
      date: a NaN part, or a day outside the range a `Date` can hold. */
  function StartDay(creationDate: string): Option<int>
  {
    match ParseDate(creationDate)
    case None => None
    case Some(d) =>
      var n := LocalDayNumber(d.year, d.monthIndex, d.day);
      if InDateRange(n) then Some(n) else None
  }

  /** `Math.floor((today - start) / msPerDay)` with both instants at local
      midnight: the difference of the day numbers, NaN (`None`) when the
      creation date is invalid. `today` is the local day number. */
  function RawDaysPassed(creationDate: string, today: int): (r: Option<int>)
    ensures r.Some? <==> StartDay(creationDate).Some?
    ensures r.Some? ==> r.value + StartDay(creationDate).value == today
    ensures r.Some? ==> InDateRange(today - r.value)
  {
    match StartDay(creationDate)
    case None => None
    case Some(start) => Some(today - start)
  }

  /** Splitting `a/b/c` (no '/' inside the three parts) gives the three
      parts back. */
  lemma SplitDate(a: string, b: string, c: string)
    requires '/' !in a && '/' !in b && '/' !in c
    ensures Split(a + "/" + b + "/" + c, '/') == [a, b, c]
  {
    var parts := [a, b, c];
    assert Join([c], '/') == c;
    assert [b, c][1..] == [c];
    assert Join([b, c], '/') == b + "/" + c;
    assert parts[1..] == [b, c];
    assert Join(parts, '/') == a + "/" + b + "/" + c;
    SplitJoin(parts, '/');
  }

  lemma NoSlashInDigits(s: string)
    requires AllDigits(s)
    ensures '/' !in s
  {
  }

  /** A date written as three '/'-free parts parses to the values of the
      parts. */
  lemma ParseDateOfParts(a: string, b: string, c: string, x: int, y: int, z: int)
    requires '/' !in a && '/' !in b && '/' !in c
    requires ParseInt(a) == Some(x) && ParseInt(b) == Some(y) && ParseInt(c) == Some(z)
    ensures ParseDate(a + "/" + b + "/" + c) == Some(DateArgs(z, y - 1, x))
  {
    SplitDate(a, b, c);
    DateFromThreeParts(a, b, c, x, y, z);
  }

  lemma DateFromThreeParts(a: string, b: string, c: string, x: int, y: int, z: int)
    requires ParseInt(a) == Some(x) && ParseInt(b) == Some(y) && ParseInt(c) == Some(z)
    ensures DateFromParts([a, b, c]) == Some(DateArgs(z, y - 1, x))
  {
    ThreeParts(a, b, c);
    DateOfDefined(ParseInt(a), ParseInt(b), ParseInt(c), x, y, z);
  }

  lemma ThreeParts(a: string, b: string, c: string)
    ensures DateFromParts([a, b, c]) == DateOf(ParseInt(a), ParseInt(b), ParseInt(c))
  {
    var parts := [a, b, c];
    assert parts[0] == a && parts[1] == b && parts[2] == c;
  }

  lemma DateOfDefined(day: Option<int>, month: Option<int>, year: Option<int>, x: int, y: int, z: int)
    requires day == Some(x) && month == Some(y) && year == Some(z)
    ensures DateOf(day, month, year) == Some(DateArgs(z, y - 1, x))
  {
  }

  /** Parsing reads back the creation date the app writes with
      `toLocaleDateString('fr-FR')`. */
  lemma ParseFormattedDate(day: nat, month: nat, year: nat)
    ensures ParseDate(FormatDateFr(day, month, year)) == Some(DateArgs(year, month - 1, day))
  {
    var a, b, c := Pad2(day), Pad2(month), NatToString(year);
    NoSlashInDigits(a);
    NoSlashInDigits(b);
    NoSlashInDigits(c);
    ParseIntPad2(day);
    ParseIntPad2(month);
    ParseIntNatToString(year);
    ParseDateOfParts(a, b, c, day, month, year);
  }

  /** The start day of a project created on the calendar date day/month/year
      (a year from 100 on, a month from 1 to 12) is that date's day number,
      as long as a `Date` can hold it. */
  lemma StartDayOfFormattedDate(day: nat, month: nat, year: nat)
    requires 1 <= month <= 12 && year >= 100
    ensures StartDay(FormatDateFr(day, month, year)) ==
              if InDateRange(DaysFromCivil(year, month, day)) then Some(DaysFromCivil(year, month, day)) else None
  {
    ParseFormattedDate(day, month, year);
    StartDayOfParsed(FormatDateFr(day, month, year), DateArgs(year, month - 1, day));
    InRangeMonthIsCivil(year, month, day);
  }

  lemma StartDayOfParsed(s: string, d: DateArgs)
    requires ParseDate(s) == Some(d)
    ensures StartDay(s) ==
              if InDateRange(LocalDayNumber(d.year, d.monthIndex, d.day)) then Some(LocalDayNumber(d.year, d.monthIndex, d.day))
              else None
  {
  }

  /** A creation date in the year 300000 is past the last day a `Date` can
      hold: it reads as an invalid date, with no day count and the first
      stage shown. */
  lemma DistantYearIsInvalidDate(today: int, totalDays: int)
    requires totalDays > 0
    ensures StartDay(FormatDateFr(1, 1, 300000)) == None
    ensures DaysPassed(FormatDateFr(1, 1, 300000), today, totalDays) == None
    ensures CurrentStage(Progress(DaysPassed(FormatDateFr(1, 1, 300000), today, totalDays), totalDays)) == STAGES[0]
  {
    StartDayOfFormattedDate(1, 1, 300000);
    assert DaysFromCivil(300000, 1, 1) > MAX_DATE_DAYS;
    InvalidDateShowsFirstStage(FormatDateFr(1, 1, 300000), today, totalDays);
  }

  /** Within range, `new Date(year, month - 1, day)` is the civil date. */
  lemma InRangeMonthIsCivil(year: int, month: int, day: int)
    requires 1 <= month <= 12 && year >= 100
    ensures LocalDayNumber(year, month - 1, day) == DaysFromCivil(year, month, day)
  {
    assert (month - 1) / 12 == 0 && (month - 1) % 12 == month - 1;
  }

  // ---------------------------------------------------------------------------
  // Days passed and progress

  /** `Math.max(0, Math.min(raw, totalDays))`; NaN stays NaN. */
  function ClampDaysPassed(raw: Option<int>, totalDays: int): Option<int>
  {
    match raw
    case None => None
    case Some(d) => Some(if d < 0 || totalDays < 0 then 0 else if d > totalDays then totalDays else d)
  }

  /** The clamp keeps a defined count within [0, totalDays] for a
      non-negative cycle: unchanged inside the range, 0 below it and
      totalDays above it. */
  lemma ClampIsWithinCycle(raw: int, totalDays: int)
    requires totalDays >= 0
    ensures var r := ClampDaysPassed(Some(raw), totalDays).value;
            && 0 <= r <= totalDays
            && (0 <= raw <= totalDays ==> r == raw)
            && (raw < 0 ==> r == 0)
            && (raw > totalDays ==> r == totalDays)
  {
  }

  /** The days passed the tracker stores. */
  function DaysPassed(creationDate: string, today: int, totalDays: int): Option<int>
  {
    ClampDaysPassed(RawDaysPassed(creationDate, today), totalDays)
  }

  /** As today advances the stored count never decreases. */
  lemma DaysPassedMonotone(creationDate: string, today1: int, today2: int, totalDays: int)
    requires today1 <= today2
    ensures DaysPassed(creationDate, today1, totalDays).Some? <==> DaysPassed(creationDate, today2, totalDays).Some?
    ensures DaysPassed(creationDate, today1, totalDays).Some? ==>
              DaysPassed(creationDate, today1, totalDays).value <= DaysPassed(creationDate, today2, totalDays).value
  {
    var raw1, raw2 := RawDaysPassed(creationDate, today1), RawDaysPassed(creationDate, today2);
    ClampMonotone(raw1, raw2, totalDays);
  }

  /** The clamp keeps definedness and order. */
  lemma ClampMonotone(raw1: Option<int>, raw2: Option<int>, totalDays: int)
    requires raw1.Some? <==> raw2.Some?
    requires raw1.Some? ==> raw1.value <= raw2.value
    ensures ClampDaysPassed(raw1, totalDays).Some? <==> ClampDaysPassed(raw2, totalDays).Some?
    ensures ClampDaysPassed(raw1, totalDays).Some? ==>
              ClampDaysPassed(raw1, totalDays).value <= ClampDaysPassed(raw2, totalDays).value
  {
  }

  /** `totalDays > 0 ? (daysPassed / totalDays) * 100 : 0`: a zero or negative
      cycle gives 0 rather than a division by zero; NaN stays NaN. */
  function Progress(daysPassed: Option<int>, totalDays: int): Option<real>
  {
    if totalDays > 0 then
      match daysPassed
      case None => None
      case Some(d) => Some(d as real / totalDays as real * 100.0)
    else
      Some(0.0)
  }

  /** For a valid creation date the progress is a percentage between 0 and
      100: the share of the cycle passed for a positive cycle, and 0 for an
      empty or negative one. */
  lemma ProgressIsPercentage(creationDate: string, today: int, totalDays: int)
    requires StartDay(creationDate).Some?
    ensures Progress(DaysPassed(creationDate, today, totalDays), totalDays).Some?
    ensures 0.0 <= Progress(DaysPassed(creationDate, today, totalDays), totalDays).value <= 100.0
    ensures totalDays <= 0 ==> Progress(DaysPassed(creationDate, today, totalDays), totalDays).value == 0.0
    ensures totalDays > 0 ==>
              Progress(DaysPassed(creationDate, today, totalDays), totalDays).value
                == DaysPassed(creationDate, today, totalDays).value as real / totalDays as real * 100.0
  {
    if totalDays > 0 {
      var d := DaysPassed(creationDate, today, totalDays).value;
      ClampIsWithinCycle(RawDaysPassed(creationDate, today).value, totalDays);
      RatioIsPercentage(d, totalDays);
    }
  }

  lemma RatioIsPercentage(d: int, t: int)
    requires 0 <= d <= t && t > 0
    ensures 0.0 <= d as real / t as real * 100.0 <= 100.0
  {
    var q := d as real / t as real;
    assert q * t as real == d as real;
  }

  // ---------------------------------------------------------------------------
  // Stages

  datatype StageIcon = SproutIcon | GrowthIcon | FloweringIcon | HarvestIcon

  /** A growth stage and the progress percentage from which it applies. */
  datatype Stage = Stage(name: string, threshold: real, icon: StageIcon, color: string)

  const STAGES: seq<Stage> := [
    Stage("Germination", 0.0, SproutIcon, "text-lime-500"),
    Stage("Croissance", 15.0, GrowthIcon, "text-green-500"),
    Stage("Floraison", 60.0, FloweringIcon, "text-yellow-500"),
    Stage("Récolte", 90.0, HarvestIcon, "text-orange-500")
  ]

  /** `isActive`: `progress >= stage.threshold`, false for NaN. */
  predicate IsActive(progress: Option<real>, stage: Stage) {
    progress.Some? && progress.value >= stage.threshold
  }

  /** The index of the last active stage of `stages`, or -1 when none is. */
  function LastActiveIndex(stages: seq<Stage>, progress: Option<real>): (k: int)
    ensures -1 <= k < |stages|
    ensures k >= 0 ==> IsActive(progress, stages[k])
    ensures forall j :: k < j < |stages| ==> !IsActive(progress, stages[j])
    decreases |stages|
  {
    if stages == [] then -1
    else if IsActive(progress, stages[|stages| - 1]) then |stages| - 1
    else LastActiveIndex(stages[..|stages| - 1], progress)
  }

  /** The stage `getCurrentStage` should report: the last active one, and the
      first stage when none is active. */
  function CurrentStage(progress: Option<real>): Stage
  {
    var k := LastActiveIndex(STAGES, progress);
    if k < 0 then STAGES[0] else STAGES[k]
  }

  /** `getCurrentStage`: walk the stages in order, remembering each one whose
      threshold the progress has reached. */
  method GetCurrentStage(progress: Option<real>) returns (currentStage: Stage)
    ensures currentStage == CurrentStage(progress)
  {
    currentStage := STAGES[0];
    for i := 0 to |STAGES|
      invariant var k := LastActiveIndex(STAGES[..i], progress);
                currentStage == if k < 0 then STAGES[0] else STAGES[k]
    {
      assert STAGES[..i + 1][..i] == STAGES[..i];
      if IsActive(progress, STAGES[i]) {
        currentStage := STAGES[i];
      }
    }
    assert STAGES[..|STAGES|] == STAGES;
  }

  /** The thresholds rise, so the active markers always form a prefix of the
      stages; for a defined, non-negative progress the first marker is always
      active and the current stage is the last active marker. */
  lemma ActiveMarkersFormPrefix(progress: Option<real>)
    ensures forall i, j :: 0 <= i <= j < |STAGES| && IsActive(progress, STAGES[j]) ==> IsActive(progress, STAGES[i])
    ensures progress.Some? && progress.value >= 0.0 ==>
              && LastActiveIndex(STAGES, progress) >= 0
              && IsActive(progress, CurrentStage(progress))
              && forall j :: 0 <= j < |STAGES| ==>
                   (IsActive(progress, STAGES[j]) <==> j <= LastActiveIndex(STAGES, progress))
  {
    var s := STAGES;
    assert s[..3] == [s[0], s[1], s[2]];
    assert s[..3][..2] == [s[0], s[1]];
    assert s[..3][..2][..1] == [s[0]];
    assert [s[0]][..0] == [];
  }

  /** The stage for every progress value: below 15% Germination, from 15%
      Croissance, from 60% Floraison, from 90% Récolte. */
  lemma StageByProgress(p: real)
    ensures CurrentStage(Some(p)).name ==
              if p < 15.0 then "Germination"
              else if p < 60.0 then "Croissance"
              else if p < 90.0 then "Floraison"
              else "Récolte"
  {
    var s := STAGES;
    assert s[..3] == [s[0], s[1], s[2]];
    assert s[..3][..2] == [s[0], s[1]];
    assert s[..3][..2][..1] == [s[0]];
    assert [s[0]][..0] == [];
  }

  /** Without a valid creation date the tracker shows the first stage. */
  lemma InvalidDateShowsFirstStage(creationDate: string, today: int, totalDays: int)
    requires StartDay(creationDate).None? && totalDays > 0
    ensures CurrentStage(Progress(DaysPassed(creationDate, today, totalDays), totalDays)) == STAGES[0]
  {
  }
}
