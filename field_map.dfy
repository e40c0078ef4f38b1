/** components/FieldMap.tsx: the zone editor over a schematic field map.
    Dragging in draw mode proposes a rectangle; releasing it with a name
    appends a zone coloured from a five-entry palette; zones can be cleared,
    selected and inspected. Coordinates are percentages of the map
    container. Also the weather hints shown beside a selected zone. */
module FieldMap {
  import opened Wrappers
  import opened Types
  import opened JsBuiltins

  // ---------------------------------------------------------------------------
  // Geometry

  /** A pointer position relative to the map, in percent. */
  datatype Point = Point(x: real, y: real)

  /** A candidate rectangle: a zone without id, name or colours. */
  datatype Rect = Rect(x: real, y: real, width: real, height: real)

  function Min(a: real, b: real): real { if a <= b then a else b }
  function Max(a: real, b: real): real { if a >= b then a else b }
  function Abs(a: real): real { if a >= 0.0 then a else -a }

  /** The rectangle spanned by the anchor and the current pointer: its
      corner is the smaller coordinate and it reaches to the larger one. */
  function RectBetween(anchor: Point, current: Point): (r: Rect)
    ensures r.x == Min(anchor.x, current.x) && r.y == Min(anchor.y, current.y)
    ensures r.width >= 0.0 && r.height >= 0.0
    ensures r.x + r.width == Max(anchor.x, current.x) && r.y + r.height == Max(anchor.y, current.y)
  {
    Rect(Min(anchor.x, current.x), Min(anchor.y, current.y), Abs(anchor.x - current.x), Abs(anchor.y - current.y))
  }

  /** The anchor is a corner of the rectangle. */
  predicate AnchoredAt(r: Rect, anchor: Point) {
    && r.width >= 0.0 && r.height >= 0.0
    && (r.x == anchor.x || r.x + r.width == anchor.x)
    && (r.y == anchor.y || r.y + r.height == anchor.y)
  }

  /** Large enough to become a zone: at least 1% by 1%. */
  predicate BigEnough(r: Rect) {
    r.width >= 1.0 && r.height >= 1.0
  }

  // ---------------------------------------------------------------------------
  // Palette

  const ZONE_COLORS: seq<string> := [
    "rgba(239, 68, 68, 0.4)",
    "rgba(59, 130, 246, 0.4)",
    "rgba(245, 158, 11, 0.4)",
    "rgba(16, 185, 129, 0.4)",
    "rgba(139, 92, 246, 0.4)"
  ]

  const ZONE_BORDER_COLORS: seq<string> := ["#b91c1c", "#2563eb", "#d97706", "#059669", "#7c3aed"]

  /** The zone committed from rectangle `r` when `count` zones exist: the
      trimmed name, the rectangle, and the palette entry `count mod 5`. */
  function NewZone(id: string, name: string, r: Rect, count: nat): (z: Zone)
    ensures z.color == ZONE_COLORS[count % 5] && z.borderColor == ZONE_BORDER_COLORS[count % 5]
    ensures Rect(z.x, z.y, z.width, z.height) == r
  {
    var colorIndex := count % |ZONE_COLORS|;
    Zone(id, name, r.x, r.y, r.width, r.height, ZONE_COLORS[colorIndex], ZONE_BORDER_COLORS[colorIndex])
  }

  /** The prompt's reply as a zone name: trimmed, and missing when the
      prompt was cancelled or the reply is blank. */
  function ZoneName(answer: Option<string>): (name: Option<string>)
    ensures name.Some? <==> answer.Some? && Trim(answer.value) != ""
    ensures name.Some? ==> name.value == Trim(answer.value)
    ensures name.Some? ==> name.value != "" && name.value == Trim(name.value) && !IsWhitespace(name.value[0])
  {
    if answer.Some? && Trim(answer.value) != "" then
      TrimIdempotent(answer.value);
      TrimBlank(answer.value);
      Some(Trim(answer.value))
    else None
  }

  /** Zone i carries palette entry i mod 5, fill and border alike. */
  predicate PaletteConsistent(zones: seq<Zone>) {
    forall i :: 0 <= i < |zones| ==>
      zones[i].color == ZONE_COLORS[i % 5] && zones[i].borderColor == ZONE_BORDER_COLORS[i % 5]
  }

  /** Appending the zone built for the current count keeps the palette
      cycling; consecutive zones never share a colour. */
  lemma AppendKeepsPalette(zones: seq<Zone>, id: string, name: string, r: Rect)
    requires PaletteConsistent(zones)
    ensures PaletteConsistent(zones + [NewZone(id, name, r, |zones|)])
    ensures forall i :: 0 <= i < |zones| ==> zones[i].color != NewZone(id, name, r, |zones|).color || (|zones| - i) % 5 == 0
  {
    var z := zones + [NewZone(id, name, r, |zones|)];
    forall i | 0 <= i < |zones|
      ensures zones[i].color != NewZone(id, name, r, |zones|).color || (|zones| - i) % 5 == 0
    {
      if (|zones| - i) % 5 != 0 {
        DistinctPaletteEntries(i % 5, |zones| % 5);
      }
    }
  }

  /** The five palette entries are different from each other. */
  lemma DistinctPaletteEntries(a: int, b: int)
    requires 0 <= a < 5 && 0 <= b < 5 && a != b
    ensures ZONE_COLORS[a] != ZONE_COLORS[b] && ZONE_BORDER_COLORS[a] != ZONE_BORDER_COLORS[b]
  {
    assert ZONE_COLORS[a][5] != ZONE_COLORS[b][5] || ZONE_COLORS[a][6] != ZONE_COLORS[b][6]
        || ZONE_COLORS[a][7] != ZONE_COLORS[b][7];
    assert ZONE_BORDER_COLORS[a][1] != ZONE_BORDER_COLORS[b][1] || ZONE_BORDER_COLORS[a][2] != ZONE_BORDER_COLORS[b][2];
  }

  // ---------------------------------------------------------------------------
  // Area and weather

  /** The estimated area of a zone in hectares: its share of the map's width
      times its share of the height times the field size. */
  function ZoneArea(z: Zone, fieldSizeHectares: real): real
  {
    (z.width / 100.0) * (z.height / 100.0) * fieldSizeHectares
  }

  /** A zone inside the map covers at most the whole field, and a zone
      covering the whole map covers exactly the field. */
  lemma ZoneAreaBounds(z: Zone, fieldSizeHectares: real)
    requires z.width >= 0.0 && z.height >= 0.0 && fieldSizeHectares >= 0.0
    ensures ZoneArea(z, fieldSizeHectares) >= 0.0
    ensures z.width <= 100.0 && z.height <= 100.0 ==> ZoneArea(z, fieldSizeHectares) <= fieldSizeHectares
    ensures z.width == 100.0 && z.height == 100.0 ==> ZoneArea(z, fieldSizeHectares) == fieldSizeHectares
  {
    var w, h := z.width / 100.0, z.height / 100.0;
    NonNegProduct(w, h);
    NonNegProduct(w * h, fieldSizeHectares);
    if z.width <= 100.0 && z.height <= 100.0 {
      ScaleDown(w, h);
      ScaleDown(w * h, fieldSizeHectares);
    }
  }

  lemma NonNegProduct(a: real, b: real)
    requires a >= 0.0 && b >= 0.0
    ensures a * b >= 0.0
  {
  }

  lemma ScaleDown(a: real, b: real)
    requires 0.0 <= a <= 1.0 && b >= 0.0
    ensures a * b <= b
  {
    assert b - a * b == (1.0 - a) * b;
  }

  /** The hint shown for the first forecast day, with the numbers it quotes. */
  datatype WeatherAdvice =
    | Unavailable
    | HeavyRain(precipitationChance: real)
    | ExtremeHeat(tempMax: real)
    | SunnyAndHot(tempMax: real)
    | Stable

  /** `getWeatherSuggestion`: the tests in order, the first that holds
      decides. */
  function GetWeatherSuggestion(forecasts: seq<DailyForecast>): (advice: WeatherAdvice)
    ensures advice == Unavailable <==> forecasts == []
    ensures advice.HeavyRain? <==> forecasts != [] && forecasts[0].precipitation_chance > 60.0
    ensures advice.ExtremeHeat? <==>
              forecasts != [] && forecasts[0].precipitation_chance <= 60.0 && forecasts[0].temp_max > 35.0
    ensures advice.SunnyAndHot? <==>
              && forecasts != [] && forecasts[0].precipitation_chance <= 60.0 && forecasts[0].temp_max <= 35.0
              && forecasts[0].condition == Sunny && forecasts[0].temp_max > 30.0
    ensures advice.HeavyRain? ==> advice.precipitationChance == forecasts[0].precipitation_chance
    ensures (advice.ExtremeHeat? || advice.SunnyAndHot?) ==> advice.tempMax == forecasts[0].temp_max
  {
    if forecasts == [] then Unavailable
    else
      var today := forecasts[0];
      if today.precipitation_chance > 60.0 then HeavyRain(today.precipitation_chance)
      else if today.temp_max > 35.0 then ExtremeHeat(today.temp_max)
      else if today.condition == Sunny && today.temp_max > 30.0 then SunnyAndHot(today.temp_max)
      else Stable
  }

  /** `willRainSoon`: today's chance of rain is above 50%; false without a
      forecast. */
  predicate WillRainSoon(forecasts: seq<DailyForecast>) {
    forecasts != [] && forecasts[0].precipitation_chance > 50.0
  }

  /** Rain comes first: a day with a rain chance above 60% is always
      announced as heavy rain whatever the heat, and such a day also makes
      the zones pulse; a stable hint means no rain above 60%, no heat above
      35° and no sunny day above 30°. */
  lemma RainAdviceFirst(forecasts: seq<DailyForecast>)
    requires forecasts != []
    ensures forecasts[0].precipitation_chance > 60.0 <==> GetWeatherSuggestion(forecasts).HeavyRain?
    ensures GetWeatherSuggestion(forecasts).HeavyRain? ==> WillRainSoon(forecasts)
    ensures GetWeatherSuggestion(forecasts) == Stable <==>
              && forecasts[0].precipitation_chance <= 60.0
              && forecasts[0].temp_max <= 35.0
              && !(forecasts[0].condition == Sunny && forecasts[0].temp_max > 30.0)
  {
  }

  /** How a zone is drawn: border width in pixels, border colour, whether it
      pulses, and its stacking order. */
  datatype ZoneLook = ZoneLook(borderWidthPx: nat, borderColor: string, pulsing: bool, zIndex: nat)

  const SELECTED_BORDER := "#F59E0B"
  const RAIN_BORDER := "#2563eb"

  /** The style of one zone of the list: the selected one (matched by id) is
      outlined in amber, 4px wide and on top; the others get a 2px border,
      blue and pulsing when rain is coming, their own border otherwise. */
  function ZoneStyle(zone: Zone, selectedZone: Option<Zone>, forecasts: seq<DailyForecast>): ZoneLook
  {
    var isSelected := selectedZone.Some? && selectedZone.value.id == zone.id;
    ZoneLook(if isSelected then 4 else 2,
             if isSelected then SELECTED_BORDER else if WillRainSoon(forecasts) then RAIN_BORDER else zone.borderColor,
             WillRainSoon(forecasts) && !isSelected,
             if isSelected then 10 else 1)
  }

  /** The selection outranks the weather: the selected zone looks the same
      whatever the forecast; any other zone pulses exactly when rain is
      coming, and then all of them share one border colour, the same blue
      as the second palette entry, so a second zone's border does not change
      when rain is announced. */
  lemma SelectionOutranksRain(zone: Zone, selectedZone: Option<Zone>, f1: seq<DailyForecast>, f2: seq<DailyForecast>, other: Zone)
    ensures selectedZone.Some? && selectedZone.value.id == zone.id ==>
              ZoneStyle(zone, selectedZone, f1) == ZoneStyle(zone, selectedZone, f2) == ZoneLook(4, SELECTED_BORDER, false, 10)
    ensures !(selectedZone.Some? && selectedZone.value.id == zone.id) ==>
              && ZoneStyle(zone, selectedZone, f1).borderWidthPx == 2
              && (ZoneStyle(zone, selectedZone, f1).pulsing <==> WillRainSoon(f1))
              && (WillRainSoon(f1) ==> ZoneStyle(zone, selectedZone, f1).borderColor == RAIN_BORDER == ZONE_BORDER_COLORS[1])
              && (!WillRainSoon(f1) ==> ZoneStyle(zone, selectedZone, f1).borderColor == zone.borderColor)
    ensures ZoneStyle(zone, selectedZone, f1).borderWidthPx == 4 <==> ZoneStyle(zone, selectedZone, f1).zIndex == 10
    ensures selectedZone.Some? && selectedZone.value.id == zone.id && selectedZone.value.id != other.id ==>
              ZoneStyle(other, selectedZone, f1).borderWidthPx == 2
  {
  }

  /** `if (latitude && longitude)` as written: a coordinate of exactly 0
      (the equator, the prime meridian) is falsy and counts as missing. */
  predicate ShouldFetchWeatherAsWritten(latitude: Option<real>, longitude: Option<real>) {
    latitude.Some? && latitude.value != 0.0 && longitude.Some? && longitude.value != 0.0
  }

  /** A field on the equator, at a known position on the coast of Gabon,
      gets no forecast. */
  lemma EquatorGetsNoWeather()
    ensures !ShouldFetchWeatherAsWritten(Some(0.0), Some(9.45))
  {
  }

  /** The intended guard: fetch once both coordinates are known. */
  predicate ShouldFetchWeather(latitude: Option<real>, longitude: Option<real>) {
    latitude.Some? && longitude.Some?
  }

  /** The two guards agree away from the zero lines; the intended one fetches
      for every known position. */
  lemma FetchGuardCorrected(latitude: Option<real>, longitude: Option<real>)
    ensures ShouldFetchWeatherAsWritten(latitude, longitude) ==> ShouldFetchWeather(latitude, longitude)
    ensures ShouldFetchWeather(latitude, longitude) && latitude.value != 0.0 && longitude.value != 0.0 ==>
              ShouldFetchWeatherAsWritten(latitude, longitude)
    ensures ShouldFetchWeather(latitude, longitude) <==> latitude.Some? && longitude.Some?
  {
  }

  // ---------------------------------------------------------------------------
  // The editor

  class FieldMapState {
    const fieldSizeHectares: real
    const projectId: string
    var zones: seq<Zone>
    /** The zone list last written to local storage under this project's key. */
    var stored: seq<Zone>
    var isDrawingMode: bool
    var isDrawing: bool
    var startPoint: Option<Point>
    var currentRect: Option<Rect>
    var isGridVisible: bool
    var forecasts: seq<DailyForecast>
    var selectedZone: Option<Zone>

    /** Storage mirrors the zones; a drag in progress has an anchor; a
        candidate rectangle exists only during a drag and has no negative
        side; a selected zone is on the map and only outside draw mode. (A
        second press during a drag, with another mouse button, moves the
        anchor without redrawing the candidate, so the candidate is anchored
        at the anchor only after a move.) */
    predicate Valid()
      reads this
    {
      && stored == zones
      && (isDrawing <==> startPoint.Some?)
      && (currentRect.Some? ==> isDrawing && currentRect.value.width >= 0.0 && currentRect.value.height >= 0.0)
      && (selectedZone.Some? ==> selectedZone.value in zones && !isDrawingMode)
    }

    /** Mounting: the saved zones (none when nothing was saved or it could
        not be parsed), everything else off or empty; the save effect then
        writes the zones back. */
    constructor (fieldSizeHectares: real, projectId: string, saved: Option<seq<Zone>>)
      ensures Valid()
      ensures this.fieldSizeHectares == fieldSizeHectares && this.projectId == projectId
      ensures zones == (if saved.Some? then saved.value else [])
      ensures !isDrawingMode && !isDrawing && startPoint == None && currentRect == None
      ensures !isGridVisible && forecasts == [] && selectedZone == None
    {
      this.fieldSizeHectares := fieldSizeHectares;
      this.projectId := projectId;
      var initial := if saved.Some? then saved.value else [];
      zones := initial;
      stored := initial;
      isDrawingMode := false;
      isDrawing := false;
      startPoint := None;
      currentRect := None;
      isGridVisible := false;
      forecasts := [];
      selectedZone := None;
    }

    /** `handleMouseDown`: outside draw mode nothing happens; in draw mode
        the selection is dropped and a drag starts at `p`. */
    method MouseDown(p: Point)
      requires Valid()
      modifies this
      ensures Valid()
      ensures !old(isDrawingMode) ==> unchanged(this)
      ensures old(isDrawingMode) ==>
                && selectedZone == None && isDrawing && startPoint == Some(p)
                && zones == old(zones) && stored == old(stored) && isDrawingMode
                && currentRect == old(currentRect) && isGridVisible == old(isGridVisible)
                && forecasts == old(forecasts)
    {
      if !isDrawingMode {
        return;
      }
      selectedZone := None;
      isDrawing := true;
      startPoint := Some(p);
    }

    /** `handleMouseMove`: during a drag, the candidate becomes the rectangle
        between the anchor and `p`; otherwise nothing happens. */
    method MouseMove(p: Point)
      requires Valid()
      modifies this
      ensures Valid()
      ensures !old(isDrawing) ==> unchanged(this)
      ensures old(isDrawing) ==>
                && currentRect == Some(RectBetween(old(startPoint).value, p))
                && AnchoredAt(currentRect.value, startPoint.value)
                && zones == old(zones) && stored == old(stored) && isDrawing && startPoint == old(startPoint)
                && isDrawingMode == old(isDrawingMode) && selectedZone == old(selectedZone)
                && isGridVisible == old(isGridVisible) && forecasts == old(forecasts)
    {
      if !isDrawing || startPoint.None? {
        return;
      }
      currentRect := Some(RectBetween(startPoint.value, p));
    }

    /** `handleMouseUp`, with `answer` the prompt's reply (`None` when it is
        cancelled) and `id` the timestamp the new zone is given. A drag with a
        candidate of at least 1×1 and a reply that is not blank after
        trimming appends exactly one zone; every release ends the drag. */
    method MouseUp(answer: Option<string>, id: string)
      requires Valid()
      modifies this
      ensures Valid()
      ensures var accepted := old(isDrawing) && old(currentRect).Some? && BigEnough(old(currentRect).value)
                              && ZoneName(answer).Some?;
              zones == if accepted then old(zones) + [NewZone(id, ZoneName(answer).value, old(currentRect).value, |old(zones)|)]
                       else old(zones)
      ensures old(PaletteConsistent(zones)) ==> PaletteConsistent(zones)
      ensures !isDrawing && startPoint == None && currentRect == None
      ensures isDrawingMode == old(isDrawingMode) && selectedZone == old(selectedZone)
      ensures isGridVisible == old(isGridVisible) && forecasts == old(forecasts)
    {
      if !isDrawing || currentRect.None? || currentRect.value.width < 1.0 || currentRect.value.height < 1.0 {
        EndDrag();
        return;
      }
      var name := ZoneName(answer);
      if name.Some? {
        AppendZone(NewZone(id, name.value, currentRect.value, |zones|));
      }
      EndDrag();
    }

    /** Appends a zone built for the current count and saves the list. */
    method AppendZone(z: Zone)
      requires Valid()
      requires z.color == ZONE_COLORS[|zones| % 5] && z.borderColor == ZONE_BORDER_COLORS[|zones| % 5]
      modifies this
      ensures Valid()
      ensures zones == old(zones) + [z]
      ensures old(PaletteConsistent(zones)) ==> PaletteConsistent(zones)
      ensures isDrawing == old(isDrawing) && startPoint == old(startPoint) && currentRect == old(currentRect)
      ensures isDrawingMode == old(isDrawingMode) && selectedZone == old(selectedZone)
      ensures isGridVisible == old(isGridVisible) && forecasts == old(forecasts)
    {
      zones := zones + [z];
      stored := zones;
    }

    /** Every release ends the drag and drops the candidate. */
    method EndDrag()
      requires Valid()
      modifies this
      ensures Valid()
      ensures !isDrawing && startPoint == None && currentRect == None
      ensures zones == old(zones) && isDrawingMode == old(isDrawingMode) && selectedZone == old(selectedZone)
      ensures isGridVisible == old(isGridVisible) && forecasts == old(forecasts)
    {
      isDrawing := false;
      startPoint := None;
      currentRect := None;
    }

    /** Leaving the map during a drag releases it there. */
    method MouseLeave(answer: Option<string>, id: string)
      requires Valid()
      modifies this
      ensures Valid()
      ensures !old(isDrawing) ==> unchanged(this)
      ensures !isDrawing && startPoint == None && currentRect == None
      ensures var accepted := old(isDrawing) && old(currentRect).Some? && BigEnough(old(currentRect).value)
                              && ZoneName(answer).Some?;
              zones == if accepted then old(zones) + [NewZone(id, ZoneName(answer).value, old(currentRect).value, |old(zones)|)]
                       else old(zones)
      ensures isDrawingMode == old(isDrawingMode) && selectedZone == old(selectedZone)
      ensures isGridVisible == old(isGridVisible) && forecasts == old(forecasts)
    {
      if isDrawing {
        MouseUp(answer, id);
      }
    }

    /** `handleClearZones`: on confirmation every zone goes and the selection
        with them; otherwise nothing changes. */
    method ClearZones(confirmed: bool)
      requires Valid()
      modifies this
      ensures Valid()
      ensures !confirmed ==> unchanged(this)
      ensures confirmed ==>
                && zones == [] && selectedZone == None && PaletteConsistent(zones)
                && isDrawingMode == old(isDrawingMode) && isDrawing == old(isDrawing)
                && startPoint == old(startPoint) && currentRect == old(currentRect)
                && isGridVisible == old(isGridVisible) && forecasts == old(forecasts)
    {
      if confirmed {
        zones := [];
        stored := [];
        selectedZone := None;
      }
    }

    /** The draw button: flips draw mode and drops the selection. */
    method ToggleDrawMode()
      requires Valid()
      modifies this
      ensures Valid()
      ensures isDrawingMode == !old(isDrawingMode) && selectedZone == None
      ensures zones == old(zones) && isDrawing == old(isDrawing) && startPoint == old(startPoint)
      ensures currentRect == old(currentRect) && isGridVisible == old(isGridVisible) && forecasts == old(forecasts)
    {
      isDrawingMode := !isDrawingMode;
      selectedZone := None;
    }

    /** The grid button flips the grid and nothing else. */
    method ToggleGrid()
      requires Valid()
      modifies this
      ensures Valid()
      ensures isGridVisible == !old(isGridVisible)
      ensures zones == old(zones) && isDrawingMode == old(isDrawingMode) && isDrawing == old(isDrawing)
      ensures startPoint == old(startPoint) && currentRect == old(currentRect)
      ensures selectedZone == old(selectedZone) && forecasts == old(forecasts)
    {
      isGridVisible := !isGridVisible;
    }

    /** A click on the map outside any zone drops the selection, outside
        draw mode only. */
    method BackgroundClick()
      requires Valid()
      modifies this
      ensures Valid()
      ensures old(isDrawingMode) ==> unchanged(this)
      ensures !old(isDrawingMode) ==> selectedZone == None
      ensures zones == old(zones) && isDrawingMode == old(isDrawingMode) && isDrawing == old(isDrawing)
      ensures startPoint == old(startPoint) && currentRect == old(currentRect)
      ensures isGridVisible == old(isGridVisible) && forecasts == old(forecasts)
    {
      if !isDrawingMode {
        selectedZone := None;
      }
    }

    /** A click on zone `z` selects it, outside draw mode only. */
    method ZoneClick(z: Zone)
      requires Valid() && z in zones
      modifies this
      ensures Valid()
      ensures old(isDrawingMode) ==> unchanged(this)
      ensures !old(isDrawingMode) ==> selectedZone == Some(z)
      ensures zones == old(zones) && isDrawingMode == old(isDrawingMode) && isDrawing == old(isDrawing)
      ensures startPoint == old(startPoint) && currentRect == old(currentRect)
      ensures isGridVisible == old(isGridVisible) && forecasts == old(forecasts)
    {
      if !isDrawingMode {
        selectedZone := Some(z);
      }
    }

    /** The side panel's close button. */
    method CloseSidePanel()
      requires Valid()
      modifies this
      ensures Valid()
      ensures selectedZone == None
      ensures zones == old(zones) && isDrawingMode == old(isDrawingMode) && isDrawing == old(isDrawing)
      ensures startPoint == old(startPoint) && currentRect == old(currentRect)
      ensures isGridVisible == old(isGridVisible) && forecasts == old(forecasts)
    {
      selectedZone := None;
    }

    /** The weather effect when the coordinates change, with the guard as
        written: only when both coordinates are known and neither is 0 does
        the forecast service's answer `data` replace the forecasts. */
    method LocationChanged(latitude: Option<real>, longitude: Option<real>, data: seq<DailyForecast>)
      requires Valid()
      modifies this
      ensures Valid()
      ensures forecasts == if ShouldFetchWeatherAsWritten(latitude, longitude) then data else old(forecasts)
      ensures zones == old(zones) && isDrawingMode == old(isDrawingMode) && isDrawing == old(isDrawing)
      ensures startPoint == old(startPoint) && currentRect == old(currentRect)
      ensures isGridVisible == old(isGridVisible) && selectedZone == old(selectedZone)
    {
      if ShouldFetchWeatherAsWritten(latitude, longitude) {
        forecasts := data;
      }
    }
  }

  /** A freshly opened map of a field on the equator never shows a forecast,
      whatever the weather service would have answered. */
  method EquatorMapHasNoForecast(data: seq<DailyForecast>) returns (shown: seq<DailyForecast>)
    ensures shown == []
  {
    var editor := new FieldMapState(2.0, "project", None);
    editor.LocationChanged(Some(0.0), Some(9.45), data);
    shown := editor.forecasts;
  }

  /** Whatever was saved before, clearing and then drawing a named 20×30
      zone leaves exactly that zone on the map, with the first palette
      entry. */
  method ZoneAfterClear(saved: seq<Zone>, name: string, id: string) returns (zone: Zone)
    requires Trim(name) != ""
    ensures zone == Zone(id, Trim(name), 10.0, 10.0, 20.0, 30.0, ZONE_COLORS[0], ZONE_BORDER_COLORS[0])
  {
    var editor := new FieldMapState(2.0, "project", Some(saved));
    editor.ToggleDrawMode();
    editor.ClearZones(true);
    editor.MouseDown(Point(30.0, 10.0));
    editor.MouseMove(Point(10.0, 40.0));
    var r := Rect(10.0, 10.0, 20.0, 30.0);
    assert RectBetween(Point(30.0, 10.0), Point(10.0, 40.0)) == r;
    assert editor.zones == [] && editor.currentRect == Some(r) && BigEnough(r);
    var zoneName := ZoneName(Some(name));
    assert zoneName == Some(Trim(name));
    editor.MouseUp(Some(name), id);
    assert editor.zones == [NewZone(id, Trim(name), r, 0)];
    zone := editor.zones[0];
  }
}
