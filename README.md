# Agri-Pro planning UI — a verified Dafny model of its core

Agri-Pro is a single-user agricultural-planning web app. A farmer picks a
crop and a field, gets a cultivation plan, and then follows the project:
growth progress, upcoming tasks, a task timeline, and a sketch map of the
field divided into named zones. This project models the logic behind those
screens and proves what it promises:

- **Field-map zone editor** (`FieldMap`). A class over the editor's state:
  draw mode, drag in progress, anchor point, candidate rectangle, zone list,
  selected zone, grid, and forecasts. It covers the mouse handlers, the
  1×1 minimum size, the zone list that is appended to with palette index
  `length mod 5`, clear-all, the selection rules, the zone area, the
  weather advice and the rain highlight.
- **Growth tracker** (`GrowthTracker`). It parses the `dd/mm/yyyy` creation
  date, computes the clamped day count and the progress percentage, and
  finds the current stage with the stage loop.
- **Project details** (`ProjectDetails`). It covers the window of upcoming
  tasks, which is filtered and then sorted in place. It also covers the
  days-until label, the four totals, and the in-place sort of the task
  calendar on the tasks tab.
- **Task classification** (`Constants`, `TaskTimeline`). This is the
  first-match keyword tables, the legend that keeps each category once in
  order of first occurrence, and the geometry of the timeline bars.
- **Project wizard** (`CreateProjectWizard`). A class for the three-step
  wizard: choose a crop, set the parameters, calculate, then save.
- **Application shell** (`App`). A class with the project list that is only
  appended to, the view routing, and the selected project.

Support modules:
- `Types` holds the records of `types.ts`.
- `Wrappers` holds `Option` and `Result`.
- `JsBuiltins` states the JavaScript built-ins that the core relies on:
  - `toLowerCase`, `includes`, `trim`, `split`, `join` and `parseInt`;
  - integer-to-string conversion and `toLocaleDateString('fr-FR')`;
  - the day arithmetic of `new Date(y, m, d)`.

JavaScript values are handled as follows:
- NaN is `None`.
- The division in the timeline bars can yield infinities, so it has its own
  small number type.
- Today's date is a day number passed in as a parameter.
- The prompt and confirm answers, the estimate service's answer, the
  forecasts, the ids and the clock are all parameters.

Where the source mutates state, the model does too:
- the event handlers are methods of a class with `modifies`;
- the two sorts are an insertion sort on an `array`;
- the stage search is a `for` loop;
- the legend is built by a `while` loop that appends to its accumulator.

Each of these is proved against a functional specification (`SortByStart`,
`CurrentStage`, `ItemsOf`). The properties themselves are proved about that
specification.

## Model

| member | source | states |
|---|---|---|
| Constants.TablesAreComplete | constants.ts:4-13 | five crops with distinct names; four distinct soil types and four distinct irrigation systems, each table listing every value of its type |
| Constants.GetTaskColorIsFirstMatch | constants.ts:35-53 | `getTaskColor` lower-cases the name and returns the colour of the first matching keyword rule (maintenance, irrigation, weeding, treatment, harvest), gray when none matches |
| Constants.GetTaskIconIsFirstMatch | constants.ts:15-33 | `getTaskIcon` returns the icon of the same first matching rule, the maintenance icon when none matches |
| Constants.RulesSpelledOut | constants.ts:17-31 | each rule of the keyword table is exactly the keyword test of the corresponding branch |
| Constants.FirstMatch | constants.ts:15-53 | the chosen rule matches and no earlier rule matches; no rule matched means the default |
| Constants.EarlierRuleWins | constants.ts:37-51 | a name matching rule i is classified by rule i or an earlier one |
| Constants.IrrigationBeatsHarvest | constants.ts:35-53 | a name containing "irrigation" and "récolte" (and no maintenance keyword) gets the irrigation colour and icon |
| Constants.ClassificationIgnoresCase | constants.ts:15-53 | names equal up to case get the same colour and icon, and so does a name and its lower-cased form |
| Constants.IconAndColorAgree | constants.ts:15-53 | two names share an icon iff they share a colour, except that blue and gray share the maintenance icon; the maintenance icon is shown iff the colour is blue or gray |
| Constants.TablesAgree | constants.ts:15-53 | the icon table and the colour table make the same distinctions entry by entry, except that the maintenance icon stands for both the blue rule and the default |
| JsBuiltins.TrimIsSlice | components/FieldMap.tsx:123-127 | `trim()` yields the slice between leading and trailing whitespace, and everything outside it is whitespace |
| JsBuiltins.TrimBlank | components/FieldMap.tsx:123 | the trimmed string is empty iff the string is all whitespace; otherwise it starts and ends with a non-whitespace character |
| JsBuiltins.TrimIdempotent | components/FieldMap.tsx:127 | trimming a trimmed name changes nothing |
| JsBuiltins.ToLowerIdempotent | constants.ts:36 | lower-casing twice is lower-casing once |
| JsBuiltins.Includes | constants.ts:17 | `includes(k)` holds iff `k` occurs at some position |
| JsBuiltins.Split | components/GrowthTracker.tsx:28 | `split('/')` returns at least one part and no part contains the separator |
| JsBuiltins.SplitJoin | components/GrowthTracker.tsx:28 | splitting the join of separator-free parts gives the parts back |
| JsBuiltins.JoinSplit | components/GrowthTracker.tsx:28 | joining the parts of a split gives the string back |
| JsBuiltins.SplitPrefix | components/GrowthTracker.tsx:28 | a separator-free head followed by the separator splits into that head followed by the split of the rest |
| JsBuiltins.SplitNone | components/GrowthTracker.tsx:28 | a string without the separator splits into itself alone |
| JsBuiltins.ParseIntOfDigits | components/GrowthTracker.tsx:30 | `parseInt` reads a non-empty digit string as its decimal value |
| JsBuiltins.ParseIntNatToString | components/GrowthTracker.tsx:30 | `parseInt` reads back the decimal rendering of any natural number |
| JsBuiltins.ParseIntPad2 | components/GrowthTracker.tsx:30 | `parseInt` reads back a zero-padded day or month |
| JsBuiltins.DigitsOfNatToString | components/ProjectDetails.tsx:136 | the decimal rendering of `n` has value `n` |
| JsBuiltins.NatToStringInjective | components/ProjectDetails.tsx:136 | different numbers are rendered differently |
| JsBuiltins.NatToString | components/ProjectDetails.tsx:136 | the rendering is a non-empty digit string with no leading zero |
| JsBuiltins.LeadingZero | components/GrowthTracker.tsx:30 | a leading zero does not change a decimal value |
| JsBuiltins.MonthRollover | components/GrowthTracker.tsx:30 | `new Date(y, m + 12, d)` is `new Date(y + 1, m, d)`: month overflow rolls into the next year |
| GrowthTracker.SplitDate | components/GrowthTracker.tsx:28 | a date written as three '/'-free parts splits into exactly those parts |
| GrowthTracker.ParseDateOfParts | components/GrowthTracker.tsx:27-31 | `parseDate("a/b/c")` is the date with year c, month index b − 1 and day a |
| GrowthTracker.ParseFormattedDate | components/GrowthTracker.tsx:27-31 | parsing reads back any creation date that the app writes in the French format |
| GrowthTracker.StartDayOfFormattedDate | components/GrowthTracker.tsx:27-33 | the start day of a project created on day/month/year (year from 100 on) is that date's day number when a `Date` can hold it, and invalid otherwise |
| GrowthTracker.DistantYearIsInvalidDate | components/GrowthTracker.tsx:30-53 | a creation date in the year 300000 is an invalid `Date`: no day count, and the first stage is shown |
| GrowthTracker.InRangeMonthIsCivil | components/GrowthTracker.tsx:30 | for a month from 1 to 12 and a year from 100 on, `new Date(year, month − 1, day)` is the civil date |
| GrowthTracker.RawDaysPassed | components/GrowthTracker.tsx:30-38 | the unclamped count is defined iff the creation date parses to a day a `Date` can hold (within 10^8 days of 1970-01-01), and then start day + count = today |
| GrowthTracker.ClampIsWithinCycle | components/GrowthTracker.tsx:40 | for a non-negative cycle the stored count lies in [0, totalDays]: unchanged inside, 0 below, totalDays above |
| GrowthTracker.DaysPassedMonotone | components/GrowthTracker.tsx:37-40 | as today advances the stored count never decreases, and its definedness does not change |
| GrowthTracker.ClampMonotone | components/GrowthTracker.tsx:40 | the clamp keeps definedness and order |
| GrowthTracker.ProgressIsPercentage | components/GrowthTracker.tsx:43 | for a valid date the progress is defined and lies in [0, 100]: it is daysPassed/totalDays·100 for a positive cycle, and 0 rather than a division by zero for an empty one |
| GrowthTracker.LastActiveIndex | components/GrowthTracker.tsx:45-53 | the index found is active and no later stage is |
| GrowthTracker.GetCurrentStage | components/GrowthTracker.tsx:45-53 | the loop returns the last stage whose threshold the progress reaches, and the first stage when none does |
| GrowthTracker.ActiveMarkersFormPrefix | components/GrowthTracker.tsx:16-89 | the active markers form a prefix of the stages; for a non-negative progress the current stage is active and is the last active marker |
| GrowthTracker.StageByProgress | components/GrowthTracker.tsx:16-53 | below 15% Germination, from 15% Croissance, from 60% Floraison, from 90% Récolte |
| GrowthTracker.InvalidDateShowsFirstStage | components/GrowthTracker.tsx:43-53 | with an unparsable creation date the tracker shows the first stage |
| ProjectDetails.DaysPassedIsUnclamped | components/ProjectDetails.tsx:60-61 | this page's count is the raw one; it is NaN iff the tracker's is, and equals the tracker's iff it lies within the cycle |
| ProjectDetails.UpcomingFilter | components/ProjectDetails.tsx:63-66 | the filter keeps exactly the tasks with 0 ≤ startDay − daysPassed ≤ 3, each as often as in the calendar, and the tasks of each start day in calendar order |
| ProjectDetails.InsertAddsOne | components/ProjectDetails.tsx:68 | one insertion step adds exactly the inserted task |
| ProjectDetails.InsertSorted | components/ProjectDetails.tsx:68 | inserting into a sorted list keeps it sorted |
| ProjectDetails.SortByStartIsSortedPermutation | components/ProjectDetails.tsx:68 | the sort by `a.startDay - b.startDay` gives a sorted permutation |
| ProjectDetails.StartingOnAppend | components/ProjectDetails.tsx:68 | selecting the tasks of one start day distributes over concatenation |
| ProjectDetails.StartingOnInsert | components/ProjectDetails.tsx:68 | inserting a task does not reorder the tasks of any one start day |
| ProjectDetails.SortIsStable | components/ProjectDetails.tsx:68 | tasks that start on the same day keep their relative order, as `Array.prototype.sort` guarantees |
| ProjectDetails.InsertAt | components/ProjectDetails.tsx:68 | one pass of the in-place insertion sort inserts element i into the sorted prefix and leaves the rest of the array alone |
| ProjectDetails.SortTasksInPlace | components/ProjectDetails.tsx:68 | the in-place sort leaves the array equal to the sorted specification of its old contents |
| ProjectDetails.UpcomingTasks | components/ProjectDetails.tsx:63-68 | the upcoming list is the window of the calendar, sorted by start day |
| ProjectDetails.UpcomingIsSortedWindow | components/ProjectDetails.tsx:63-68 | the upcoming list is sorted and holds exactly the upcoming tasks of the calendar, each as often as in the calendar |
| ProjectDetails.NoUpcomingWithoutDate | components/ProjectDetails.tsx:61-66 | with an invalid creation date (NaN) no task is upcoming |
| ProjectDetails.OpenTasksTab | components/ProjectDetails.tsx:188 | opening the tasks tab sorts the calendar array in place into the stable order by start day |
| ProjectDetails.SortSortedIsIdentity | components/ProjectDetails.tsx:188 | sorting an already sorted calendar changes nothing, so reopening the tab leaves it as it was |
| ProjectDetails.DaysUntilCases | components/ProjectDetails.tsx:132-136 | "en retard" iff startDay < daysPassed, "commence aujourd'hui" iff equal, "commence dans 1 jour" iff one day to go, "commence dans N jours" with N written out otherwise |
| ProjectDetails.DaysUntilInjective | components/ProjectDetails.tsx:132-136 | two different numbers of days to go never share a label |
| ProjectDetails.UpcomingNeverLate | components/ProjectDetails.tsx:63-136 | a task of the upcoming list is labelled as starting today or in 1, 2 or 3 days, never late |
| ProjectDetails.TotalsNonNegative | components/ProjectDetails.tsx:116-119 | for non-negative rates and field size, the four totals are non-negative |
| ProjectDetails.TotalsAreLinear | components/ProjectDetails.tsx:116-119 | each total is linear in the field size |
| TaskTimeline.Classify | components/TaskTimeline.tsx:13-32 | the category is one of the six labels |
| TaskTimeline.ClassifyAgreesWithTaskColor | components/TaskTimeline.tsx:17-32 | the legend colour of a task is `getTaskColor` of its name, and each category has one colour |
| TaskTimeline.ItemsOf | components/TaskTimeline.tsx:12-32 | one classified item per task, in task order |
| TaskTimeline.TaskItemsColoredByCategory | components/TaskTimeline.tsx:17-32 | items of the same category carry the same colour |
| TaskTimeline.BuildLegend | components/TaskTimeline.tsx:12-38 | the legend has only items of the tasks, covers every task's category, has no category twice, is in order of first occurrence, and has at most 6 items and at most one per task |
| TaskTimeline.LegendIsSmall | components/TaskTimeline.tsx:34-36 | a legend with distinct categories drawn from the six has at most 6 items |
| TaskTimeline.DistinctCount | components/TaskTimeline.tsx:34-36 | a legend with distinct categories has as many items as categories |
| TaskTimeline.NewItemExtendsLegend | components/TaskTimeline.tsx:34-35 | pushing an item of a new category keeps the legend's properties for one more task |
| TaskTimeline.KnownItemKeepsLegend | components/TaskTimeline.tsx:34 | skipping an item whose category is present keeps the legend's properties for one more task |
| TaskTimeline.Divide | components/TaskTimeline.tsx:46-47 | division gives a number iff the divisor is non-zero (NaN or an infinity otherwise) |
| TaskTimeline.BarGeometry | components/TaskTimeline.tsx:46-47 | for a positive cycle, left = startDay/totalDays·100, left + width = endDay/totalDays·100, and width ≥ 0 iff endDay ≥ startDay |
| TaskTimeline.BarInsideTimeline | components/TaskTimeline.tsx:46-47 | a task inside the cycle has its bar inside [0, 100] |
| TaskTimeline.ZeroCycleHasNoGeometry | components/TaskTimeline.tsx:46-47 | with no guard for a zero cycle, neither left nor width is a number |
| FieldMap.RectBetween | components/FieldMap.tsx:107-111 | the rectangle's corner is the min of the two points, its sides are non-negative, and it reaches the max of the two points |
| FieldMap.NewZone | components/FieldMap.tsx:124-131 | the new zone has the rectangle's geometry and fill and border from palette entry `count mod 5` |
| FieldMap.ZoneName | components/FieldMap.tsx:122-127 | a name exists iff the prompt was answered with something non-blank; it is then exactly the trimmed answer, which is non-empty |
| FieldMap.AppendKeepsPalette | components/FieldMap.tsx:124-132 | appending the zone built for the current count keeps zone i on palette entry i mod 5; the new zone's fill differs from every earlier zone's unless they are a multiple of 5 apart |
| FieldMap.DistinctPaletteEntries | components/FieldMap.tsx:13-26 | the five fills and the five borders are pairwise different |
| FieldMap.ZoneAreaBounds | components/FieldMap.tsx:257 | the area is non-negative, at most the field for a zone within the map, and exactly the field for a zone covering the map |
| FieldMap.GetWeatherSuggestion | components/FieldMap.tsx:150-157 | the first test that holds decides: no forecast means unavailable; heavy rain iff today's rain chance is above 60%, quoting it; extreme heat iff not and the maximum is above 35°; the sunny hint iff neither and the day is sunny above 30°; every hint quotes today's figures |
| FieldMap.RainAdviceFirst | components/FieldMap.tsx:148-157 | rain above 60% is always announced first and also triggers the rain highlight; the stable hint holds iff none of the three tests fires |
| FieldMap.SelectionOutranksRain | components/FieldMap.tsx:209-224 | the selected zone is drawn 4px amber on top whatever the weather; other zones get 2px, pulse iff rain is coming, and then share the palette's second border colour |
| FieldMap.EquatorGetsNoWeather | components/FieldMap.tsx:78 | as written, a field at latitude 0 gets no forecast |
| FieldMap.FetchGuardCorrected | components/FieldMap.tsx:77-85 | the corrected guard fetches iff both coordinates are known, and agrees with the written one away from the zero lines |
| FieldMap.FieldMapState.constructor | components/FieldMap.tsx:51-66 | the saved zones (none when nothing was saved or it could not be read); drawing, grid and selection off |
| FieldMap.FieldMapState.MouseDown | components/FieldMap.tsx:96-102 | with draw mode off nothing changes; otherwise the selection is cleared, a drag starts and the anchor is recorded |
| FieldMap.FieldMapState.MouseMove | components/FieldMap.tsx:104-112 | during a drag the candidate is the rectangle between the anchor and the pointer, anchored at a corner; otherwise nothing changes |
| FieldMap.FieldMapState.MouseUp | components/FieldMap.tsx:114-138 | exactly one zone (trimmed name, candidate geometry, palette `length mod 5`) is appended iff there is a drag with a candidate of at least 1×1 and a non-blank name; every release ends the drag |
| FieldMap.FieldMapState.MouseLeave | components/FieldMap.tsx:187 | leaving outside a drag changes nothing; leaving during one is a release with the same outcome as MouseUp: the same zone appended under the same conditions, the drag ended, draw mode, selection, grid and forecasts kept |
| FieldMap.FieldMapState.ClearZones | components/FieldMap.tsx:140-145 | a confirmed clear empties the zones and the selection; a refused one changes nothing |
| FieldMap.FieldMapState.ToggleDrawMode | components/FieldMap.tsx:168 | flips draw mode and clears the selection |
| FieldMap.FieldMapState.ToggleGrid | components/FieldMap.tsx:164 | flips the grid and nothing else |
| FieldMap.FieldMapState.BackgroundClick | components/FieldMap.tsx:188 | clears the selection when draw mode is off and changes nothing otherwise |
| FieldMap.FieldMapState.ZoneClick | components/FieldMap.tsx:213 | selects the clicked zone when draw mode is off and changes nothing otherwise |
| FieldMap.FieldMapState.CloseSidePanel | components/FieldMap.tsx:249 | clears the selection |
| FieldMap.FieldMapState.LocationChanged | components/FieldMap.tsx:77-85 | with the guard as written: the forecasts become the service's answer iff both coordinates are known and neither is 0; nothing else changes |
| FieldMap.EquatorMapHasNoForecast | components/FieldMap.tsx:77-85 | a map opened for a field at latitude 0 shows no forecast whatever the service would answer |
| FieldMap.ZoneAfterClear | components/FieldMap.tsx:124-145 | after a clear, the next zone drawn is the only zone and takes palette entry 0 |
| CreateProjectWizard.Wizard.constructor | components/CreateProjectWizard.tsx:14-21 | step 1, no crop, 1 ha, first soil type and irrigation system, not loading, no error, no estimate |
| CreateProjectWizard.Wizard.SelectCrop | components/CreateProjectWizard.tsx:23-26 | records the crop and moves to step 2, keeping the rest |
| CreateProjectWizard.Wizard.SetFieldSize | components/CreateProjectWizard.tsx:87 | sets the field size and nothing else |
| CreateProjectWizard.Wizard.SetSoilType | components/CreateProjectWizard.tsx:94 | sets the soil type and nothing else |
| CreateProjectWizard.Wizard.SetIrrigationSystem | components/CreateProjectWizard.tsx:103 | sets the irrigation system and nothing else |
| CreateProjectWizard.Wizard.BeginCalculate | components/CreateProjectWizard.tsx:28-36 | a service call is made iff a crop is chosen and the size is positive; otherwise the error message is set and step, estimate and loading stay; otherwise loading starts, the error is cleared and the call carries the crop name, size, soil and irrigation |
| CreateProjectWizard.Wizard.CompleteCalculate | components/CreateProjectWizard.tsx:36-43 | an estimate is stored and step 3 shown; a failure sets the error to its message and keeps the step; loading ends either way |
| CreateProjectWizard.Wizard.Save | components/CreateProjectWizard.tsx:46-55 | a project is emitted iff a crop and an estimate are present, carrying exactly the crop name, size, estimate, soil and irrigation; on step 3 it always is |
| CreateProjectWizard.Wizard.BackToCropChoice | components/CreateProjectWizard.tsx:110 | the back button of step 2 returns to step 1, keeping every other field |
| CreateProjectWizard.Wizard.BackToParameters | components/CreateProjectWizard.tsx:131 | back from step 3 to step 2, keeping every other field |
| CreateProjectWizard.Wizard.SummaryYield | components/CreateProjectWizard.tsx:118-119 | the summary exists iff there is an estimate and a crop, which is always the case on step 3; its yield is kg/ha × field size / 1000, the same figure as the details page |
| CreateProjectWizard.HappyPath | components/CreateProjectWizard.tsx:23-55 | choosing a crop, a positive size and getting an estimate saves exactly those choices and that estimate |
| CreateProjectWizard.CalculateWithoutCrop | components/CreateProjectWizard.tsx:29-32 | calculating before choosing a crop shows the message, stays on step 1 and asks nothing |
| App.NewProject | App.tsx:20-25 | the new project keeps the wizard's fields and takes the given id and the creation day in the French format |
| App.NewProjectStartsToday | App.tsx:24 | a project created today (a day the clock's `Date` holds) reads back in the growth tracker as day 0, progress 0, stage Germination |
| App.AppState.constructor | App.tsx:9-14 | the saved list, or an empty one; the dashboard view; nothing selected |
| App.AppState.CreateProject | App.tsx:20-28 | appends exactly one project at the end, keeps the earlier ones, saves the list and shows the dashboard |
| App.AppState.SelectProject | App.tsx:30-33 | selects a project of the list and shows the details view |
| App.AppState.BackToDashboard | App.tsx:35-38 | shows the dashboard and clears the selection |
| App.AppState.OpenWizard | App.tsx:48 | the dashboard's new-project action shows the wizard |
| App.AppState.CancelCreate | App.tsx:43 | the wizard's cancel shows the dashboard |
| App.AppState.RenderContent | App.tsx:40-50 | the wizard iff the view is create; the details of the selected project iff the view is details and a project is selected; the dashboard over the whole list iff the view is the dashboard |
| App.AppState.ShowBackButton | App.tsx:57 | the back button is shown iff the content is not the dashboard |
| App.ValidNeverRendersNothing | App.tsx:44 | in every reachable state the details view renders a project of the list, never an empty page |
| App.CreateThenReload | App.tsx:9-28 | a created project is in the saved list and comes back on the next start, after the earlier ones |

## Left out

- Browser I/O is left out: `localStorage` reads and writes, `window.prompt`, `window.confirm` and geolocation (components/ProjectDetails.tsx:72-109). Each becomes a parameter, or a `stored` field that mirrors the list after every change. JSON parsing of saved data is reduced to an `Option`.
- App.AppState.constructor: at App.tsx:11 a stored value that is not valid JSON throws, and nothing catches it. The model only takes "a list or nothing".
- The AI estimate service and the mock weather service are left out. Their answers are parameters: a `Result` of `CalculatedData` or an error message, and a list of forecasts.
- JavaScript `Date` is modelled as proleptic Gregorian day numbers at local midnight. Time zones, daylight saving and the instant ids from `toISOString` are left out; ids are fresh parameters, and nothing is claimed about their uniqueness.
- GrowthTracker.RawDaysPassed: the `Date` range limit is applied to the day number at local midnight. The local time-zone offset, which moves the limit by a few hours at either end, is left out with the time zones.
- GrowthTracker.StartDayOfFormattedDate: it is stated for years from 100 on. `new Date` maps the years 0 to 99 to 1900 to 1999, and that is modelled in `LocalDayNumber`.
- IEEE floating point is left out. Coordinates, rates and percentages are exact reals. `toFixed`, `toLocaleString` and the JSX/CSS presentation are left out.
- `parseFloat` in the field-size input (components/CreateProjectWizard.tsx:87) can produce NaN; the model's size is always a real.
- `parseInt` is modelled for the decimal and hexadecimal forms the dates use. Its loss of precision beyond 2^53 is left out. The number-to-string conversion is exact for integers and ignores exponent notation above 10^21.
- `toLowerCase` is modelled for Basic Latin and Latin-1 capitals, which covers every keyword of the tables. The rest of Unicode case mapping is left out.
- `getRelativeCoords` is left out, together with its `{x: 0, y: 0}` answer when the map has no bounding box (components/FieldMap.tsx:87-94). The handlers take points already in percent.
- FieldMap.FieldMapState.MouseMove: MouseMove ensures that the anchor is a corner of the candidate. Valid() does not promise this, because a second press during a drag (MouseDown, components/FieldMap.tsx:96-102) moves the anchor without redrawing the candidate. The class invariant only keeps the candidate's sides non-negative.
- CreateProjectWizard.Wizard.CompleteCalculate: `handleCalculate` is asynchronous. It is split into `BeginCalculate`, which runs up to the service call, and `CompleteCalculate`, which handles the answer. Interleavings with other handlers while the call is pending are left out; the form is hidden then (components/CreateProjectWizard.tsx:81).
- The wizard never calls its `onCancel` prop (components/CreateProjectWizard.tsx:13), so App.AppState.CancelCreate is only reachable from outside it.
- App.AppState.RenderContent: the view is a three-valued datatype, so the `default` branch of `renderContent` (App.tsx:47) cannot be reached in the model.
- ProjectDetails.OpenTasksTab: `calculatedData.taskCalendar.sort(...)` at components/ProjectDetails.tsx:188 sorts, in place, the very array that App keeps in its project list. The model sorts a free-standing array. It does not capture that aliasing: App's projects and selected project keep their calendar order, the task timeline's legend is not shown to follow the sorted order afterwards, and the stored copy is not shown to differ from the list until the next save.
- The crop-icon lookup on the details page (components/ProjectDetails.tsx:112-113) and the Dashboard, Icons, MagicLoader and WeatherForecast components are presentation and are not part of this model.

## Findings

| source | as written | input that shows it | evidently intended | confidence | as-written member | corrected member |
|---|---|---|---|---|---|---|
| components/FieldMap.tsx:78 | `if (latitude && longitude)` treats a coordinate of exactly 0 as missing | latitude 0.0, longitude 9.45 (on the equator): no forecast is fetched | fetch whenever both coordinates are known | not executed | FieldMap.EquatorGetsNoWeather | FieldMap.FetchGuardCorrected |
