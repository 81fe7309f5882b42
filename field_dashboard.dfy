/**
 * The field dashboard page of the front end: the smoothing of the temperature series, the
 * days-to-cutting message, the check that places the cutting-date marker on the forecast
 * chart, and the guards of the two forms (new sensor, new reset date). Dates are
 * JavaScript time values in milliseconds; `parseDate` stands for `new Date(text)`, None
 * being the invalid date. The clock reading is the `now` parameter.
 */
module FieldDashboard {
  import opened Wrappers
  import opened Text
  import opened Stats
  import opened Countdown

  /** `{ date, value }` of a forecast series. */
  datatype ForecastData = ForecastData(date: Text, value: real)

  /** A sensor as the field dashboard receives it. */
  datatype SensorModel = SensorModel(sensorId: Text, serialNo: Text, optimalGdd: real, sensorResetDate: Text, state: Text)

  /** The part of the field dashboard response the page computes with. */
  datatype FieldView = FieldView(
    fieldName: Text,
    cuttingDateCalculated: Option<Text>,
    fieldSensors: seq<SensorModel>,
    sevenDayTempForecast: seq<ForecastData>,
    sevenDayGddForecast: seq<ForecastData>,
    sevenDayHumidityForecast: seq<ForecastData>)

  /** The new-sensor form. */
  datatype NewSensor = NewSensor(serialNo: Text, optimalGdd: real, long: real, lat: real)

  const EmptySensor: NewSensor := NewSensor("", 0.0, 0.0, 0.0)

  /** The body posted to `fields/newsensor`. */
  datatype SensorRequest = SensorRequest(fieldId: Text, serialNo: Text, optimalGdd: real, long: real, lat: real)

  /** The body put to `fields/sensor/resetdate`. */
  datatype ResetRequest = ResetRequest(sensorId: Text, newResetDate: Text)

  // ---------------------------------------------------------------------------------------
  // Smoothing

  /** `Math.floor(w / 2)` (Dafny's division by a positive divisor rounds down). */
  function HalfDown(w: int): int { w / 2 }

  /** `Math.ceil(w / 2)`. */
  function HalfUp(w: int): (h: int)
    ensures HalfDown(w) + h == w
  {
    -((-w) / 2)
  }

  /** `array.slice(start, end)`: a negative bound counts from the end, bounds are clipped. */
  function JsSlice<T>(xs: seq<T>, start: int, end: int): (s: seq<T>)
    ensures |s| <= |xs|
    ensures forall k :: 0 <= k < |s| ==> s[k] in xs
  {
    var n := |xs|;
    var from := if start < 0 then (if n + start < 0 then 0 else n + start) else (if start > n then n else start);
    var to := if end < 0 then (if n + end < 0 then 0 else n + end) else (if end > n then n else end);
    if from < to then xs[from..to] else []
  }

  function Max(a: int, b: int): int { if a >= b then a else b }
  function Min(a: int, b: int): int { if a <= b then a else b }

  /** The window of element `i`: `[max(0, i - floor(w/2)), min(n, i + ceil(w/2)))`. */
  function Window(data: seq<real>, w: int, i: int): (s: seq<real>)
    ensures forall k :: 0 <= k < |s| ==> s[k] in data
    ensures w >= 1 && 0 <= i < |data| ==>
      var lo := Max(0, i - HalfDown(w));
      var hi := Min(|data|, i + HalfUp(w));
      lo <= i < hi && s == data[lo..hi]
  {
    JsSlice(data, Max(0, i - HalfDown(w)), Min(|data|, i + HalfUp(w)))
  }

  /** The average of element `i`'s window; None is NaN, what `0 / 0` gives for an empty window. */
  function SmoothAt(data: seq<real>, w: int, i: int): (r: Option<real>)
    ensures w >= 1 && 0 <= i < |data| ==> r.Some?
    ensures w == 0 && 0 <= i ==> r.None?
  {
    assert w == 0 && 0 <= i ==> Window(data, w, i) == [];
    var subset := Window(data, w, i);
    if |subset| == 0 then None else Some(Mean(subset))
  }

  /** `smoothData`: each element replaced by the mean of its window. */
  function SmoothData(data: seq<real>, w: int): (r: seq<Option<real>>)
    ensures |r| == |data|
  {
    seq(|data|, i requires 0 <= i < |data| => SmoothAt(data, w, i))
  }

  /**
   * For a window size of at least 1 every element's window is the clipped range around it
   * and contains the element itself, so every smoothed value is a number.
   */
  lemma SmoothWindowContainsPoint(data: seq<real>, w: int, i: int)
    requires w >= 1 && 0 <= i < |data|
    ensures var lo := Max(0, i - HalfDown(w));
      var hi := Min(|data|, i + HalfUp(w));
      && lo <= i < hi
      && SmoothData(data, w)[i] == Some(Mean(data[lo..hi]))
  {
    var lo := Max(0, i - HalfDown(w));
    var hi := Min(|data|, i + HalfUp(w));
    assert HalfDown(w) >= 0 && HalfUp(w) >= 1;
    assert Window(data, w, i) == data[lo..hi];
  }

  /** With the window of 3 the chart uses, element `i` is the mean of its clipped neighbours `i-1 .. i+1`. */
  lemma SmoothThreeAveragesNeighbours(data: seq<real>, i: int)
    requires 0 <= i < |data|
    ensures SmoothData(data, 3)[i] == Some(Mean(data[Max(0, i - 1)..Min(|data|, i + 2)]))
  {
    SmoothWindowContainsPoint(data, 3, i);
  }

  /** A window of 1 leaves the series as it is. */
  lemma SmoothOneIsIdentity(data: seq<real>, i: int)
    requires 0 <= i < |data|
    ensures SmoothData(data, 1)[i] == Some(data[i])
  {
    SmoothWindowContainsPoint(data, 1, i);
    assert data[i..i + 1] == [data[i]];
    MeanConstant(data[i..i + 1], data[i]);
  }

  /** A window of 0 is empty everywhere, so every smoothed value is NaN. */
  lemma SmoothZeroIsUndefined(data: seq<real>, i: int)
    requires 0 <= i < |data|
    ensures SmoothData(data, 0)[i] == None
  {
  }

  /** Smoothing stays within the bounds of the series. */
  lemma SmoothWithinBounds(data: seq<real>, w: int, i: int, lo: real, hi: real)
    requires w >= 1 && 0 <= i < |data|
    requires forall k :: 0 <= k < |data| ==> lo <= data[k] <= hi
    ensures SmoothData(data, w)[i].Some?
    ensures lo <= SmoothData(data, w)[i].value <= hi
  {
    SmoothWindowContainsPoint(data, w, i);
    var a := Max(0, i - HalfDown(w));
    var b := Min(|data|, i + HalfUp(w));
    var sub := data[a..b];
    assert forall k :: 0 <= k < |sub| ==> sub[k] == data[a + k];
    MeanBounds(sub, lo, hi);
  }

  /** A constant series is its own smoothing. */
  lemma SmoothConstant(data: seq<real>, w: int, i: int, c: real)
    requires w >= 1 && 0 <= i < |data|
    requires forall k :: 0 <= k < |data| ==> data[k] == c
    ensures SmoothData(data, w)[i] == Some(c)
  {
    SmoothWithinBounds(data, w, i, c, c);
  }

  // ---------------------------------------------------------------------------------------
  // Days to cutting

  /** `setHours(0, 0, 0, 0)`: the start of the day holding `t`. */
  function Midnight(t: int): (m: int)
    ensures m <= t < m + MillisPerDay && m % MillisPerDay == 0
  {
    (t / MillisPerDay) * MillisPerDay
  }

  /** A time value already at midnight stays where it is. */
  lemma MidnightFixed(t: int)
    requires t % MillisPerDay == 0
    ensures Midnight(t) == t
  {
    assert t == (t / MillisPerDay) * MillisPerDay + t % MillisPerDay;
  }

  /** The day number of a time value, counted from 1970-01-01. */
  function Day(t: int): int { t / MillisPerDay }

  /**
   * `calculateDaysToCutting` on this page: without a cutting date (or with an empty one)
   * the relaxed message; otherwise both dates are moved to midnight and their gap, in
   * whole days rounded up, is classified. An unparsable date gives NaN and so "passed".
   */
  function DaysToCutting(fieldData: Option<FieldView>, now: int, parseDate: Text -> Option<int>): (o: Outcome)
    ensures o == Relax
      <==> fieldData.None? || fieldData.value.cuttingDateCalculated.None? || fieldData.value.cuttingDateCalculated.value == ""
    ensures o != Relax && parseDate(fieldData.value.cuttingDateCalculated.value).None? ==> o == Passed
  {
    if fieldData.None? || fieldData.value.cuttingDateCalculated.None? || fieldData.value.cuttingDateCalculated.value == "" then
      Relax
    else
      match parseDate(fieldData.value.cuttingDateCalculated.value)
      case None => DifferenceOutcome(None)
      case Some(c) => DifferenceOutcome(Some(CeilDays(Midnight(c) - Midnight(now))))
  }

  /** After the midnight normalisation the day difference is the difference of the day numbers. */
  lemma MidnightDifference(c: int, now: int)
    ensures CeilDays(Midnight(c) - Midnight(now)) == Day(c) - Day(now)
  {
    assert Midnight(c) - Midnight(now) == (Day(c) - Day(now)) * MillisPerDay;
    CeilDaysOfWholeDays(Day(c) - Day(now));
  }

  /**
   * With a parsable cutting date the page says "today" exactly when it falls on the current
   * day, "in n days" exactly when it is n days ahead, and "passed" exactly when it lies on
   * an earlier day.
   */
  lemma DaysToCuttingByDay(fieldData: Option<FieldView>, now: int, parseDate: Text -> Option<int>, c: int)
    requires fieldData.Some? && fieldData.value.cuttingDateCalculated.Some?
    requires fieldData.value.cuttingDateCalculated.value != ""
    requires parseDate(fieldData.value.cuttingDateCalculated.value) == Some(c)
    ensures DaysToCutting(fieldData, now, parseDate) == Today <==> Day(c) == Day(now)
    ensures DaysToCutting(fieldData, now, parseDate) == Passed <==> Day(c) < Day(now)
    ensures forall n: nat :: DaysToCutting(fieldData, now, parseDate) == InDays(n) <==> n > 0 && Day(c) - Day(now) == n
  {
    MidnightDifference(c, now);
  }

  // ---------------------------------------------------------------------------------------
  // The cutting-date marker

  /**
   * `isCuttingDateInRange`: a non-empty cutting date that parses and lies between the first
   * and the last forecast date, both inclusive. Any comparison with an invalid date, or with
   * the missing first element of an empty list, is false.
   */
  predicate CuttingDateInRange(cutting: Option<Text>, forecastDates: seq<Text>, parseDate: Text -> Option<int>)
    ensures CuttingDateInRange(cutting, forecastDates, parseDate) ==>
      cutting.Some? && parseDate(cutting.value).Some? &&
      exists i, j :: 0 <= i < |forecastDates| && 0 <= j < |forecastDates|
        && parseDate(forecastDates[i]).Some? && parseDate(forecastDates[j]).Some?
        && parseDate(forecastDates[i]).value <= parseDate(cutting.value).value <= parseDate(forecastDates[j]).value
  {
    && cutting.Some? && cutting.value != ""
    && |forecastDates| > 0
    && parseDate(cutting.value).Some?
    && parseDate(forecastDates[0]).Some?
    && parseDate(forecastDates[|forecastDates| - 1]).Some?
    && parseDate(forecastDates[0]).value <= parseDate(cutting.value).value <= parseDate(forecastDates[|forecastDates| - 1]).value
  }

  const ShortWeekdays: seq<Text> := ["Thu", "Fri", "Sat", "Sun", "Mon", "Tue", "Wed"]

  /** `toLocaleDateString('en-US', { weekday: 'short' })`; 1970-01-01 was a Thursday. */
  function ShortWeekday(t: int): (name: Text)
    ensures name in ShortWeekdays
  {
    ShortWeekdays[Day(t) % 7]
  }

  /** `cuttingDateLabel`: the weekday of the cutting date when it is in range, none otherwise. */
  function CuttingDateLabel(cutting: Option<Text>, forecastDates: seq<Text>, parseDate: Text -> Option<int>): (marker: Option<Text>)
    ensures marker.Some? <==> CuttingDateInRange(cutting, forecastDates, parseDate)
    ensures marker.Some? ==> marker.value in ShortWeekdays
  {
    if CuttingDateInRange(cutting, forecastDates, parseDate) then Some(ShortWeekday(parseDate(cutting.value).value)) else None
  }

  /** Parsed dates in ascending order. */
  predicate AscendingDates(ds: seq<Text>, parseDate: Text -> Option<int>)
  {
    && (forall i :: 0 <= i < |ds| ==> parseDate(ds[i]).Some?)
    && (forall i, j :: 0 <= i <= j < |ds| ==> parseDate(ds[i]).value <= parseDate(ds[j]).value)
  }

  /**
   * For an ascending list of forecast dates the marker is drawn exactly when the cutting
   * date is on or after some forecast date and on or before some forecast date, and its
   * label is then the cutting date's weekday.
   */
  lemma LabelWithinForecast(cutting: Text, forecastDates: seq<Text>, parseDate: Text -> Option<int>)
    requires cutting != "" && parseDate(cutting).Some?
    requires AscendingDates(forecastDates, parseDate)
    ensures var c := parseDate(cutting).value;
      (CuttingDateLabel(Some(cutting), forecastDates, parseDate).Some? <==>
        exists i, j :: 0 <= i < |forecastDates| && 0 <= j < |forecastDates|
          && parseDate(forecastDates[i]).value <= c <= parseDate(forecastDates[j]).value)
    ensures CuttingDateLabel(Some(cutting), forecastDates, parseDate).Some? ==>
      CuttingDateLabel(Some(cutting), forecastDates, parseDate) == Some(ShortWeekday(parseDate(cutting).value))
  {
    var c := parseDate(cutting).value;
    var n := |forecastDates|;
    if exists i, j :: 0 <= i < n && 0 <= j < n
         && parseDate(forecastDates[i]).value <= c <= parseDate(forecastDates[j]).value {
      var i, j :| 0 <= i < n && 0 <= j < n
         && parseDate(forecastDates[i]).value <= c <= parseDate(forecastDates[j]).value;
      assert parseDate(forecastDates[0]).value <= parseDate(forecastDates[i]).value;
      assert parseDate(forecastDates[j]).value <= parseDate(forecastDates[n - 1]).value;
    }
    if CuttingDateInRange(Some(cutting), forecastDates, parseDate) {
      assert parseDate(forecastDates[0]).value <= c <= parseDate(forecastDates[n - 1]).value;
    }
  }

  /** No cutting date, an empty one, or no forecast: no marker. */
  lemma NoLabelWithoutDates(cutting: Option<Text>, forecastDates: seq<Text>, parseDate: Text -> Option<int>)
    requires cutting.None? || cutting == Some("") || forecastDates == []
    ensures CuttingDateLabel(cutting, forecastDates, parseDate) == None
  {
  }

  // ---------------------------------------------------------------------------------------
  // The page

  /** The page's state: the loaded dashboard, the new-sensor form and the reset-date dialog. */
  class FieldDashboardComponent {
    var fieldData: Option<FieldView>
    var newSensor: NewSensor
    var selectedSensor: Option<SensorModel>
    var selectedResetDate: Option<Text>

    constructor()
      ensures fieldData == None && newSensor == EmptySensor
      ensures selectedSensor == None && selectedResetDate == None
    {
      fieldData := None;
      newSensor := EmptySensor;
      selectedSensor := None;
      selectedResetDate := None;
    }

    /** A dashboard response replaces the page's data. */
    method OnDashboardLoaded(data: FieldView)
      modifies this
      ensures fieldData == Some(data)
      ensures newSensor == old(newSensor) && selectedSensor == old(selectedSensor) && selectedResetDate == old(selectedResetDate)
    {
      fieldData := Some(data);
    }

    /**
     * `createSensor`: an invalid form, or a route without a field id (missing or empty),
     * sends nothing; otherwise the request carries the route's field id and the form.
     */
    method CreateSensor(formInvalid: bool, routeFieldId: Option<Text>) returns (request: Option<SensorRequest>)
      ensures request.Some? <==> !formInvalid && routeFieldId.Some? && routeFieldId.value != ""
      ensures request.Some? ==> request.value == SensorRequest(routeFieldId.value, newSensor.serialNo, newSensor.optimalGdd, newSensor.long, newSensor.lat)
    {
      if formInvalid {
        return None;
      }
      if routeFieldId.None? || routeFieldId.value == "" {
        return None;
      }
      request := Some(SensorRequest(routeFieldId.value, newSensor.serialNo, newSensor.optimalGdd, newSensor.long, newSensor.lat));
    }

    /** `closeSensorModal`: the form goes back to an empty serial and zero numbers. */
    method CloseSensorModal()
      modifies this
      ensures newSensor == EmptySensor
      ensures fieldData == old(fieldData) && selectedSensor == old(selectedSensor) && selectedResetDate == old(selectedResetDate)
    {
      newSensor := EmptySensor;
    }

    /** `openResetDateModal`: the sensor is selected and any earlier date choice is cleared. */
    method OpenResetDateModal(sensor: SensorModel)
      modifies this
      ensures selectedSensor == Some(sensor) && selectedResetDate == None
      ensures fieldData == old(fieldData) && newSensor == old(newSensor)
    {
      selectedSensor := Some(sensor);
      selectedResetDate := None;
    }

    /** The date picker of the reset dialog. */
    method SelectResetDate(date: Text)
      modifies this
      ensures selectedResetDate == Some(date)
      ensures fieldData == old(fieldData) && newSensor == old(newSensor) && selectedSensor == old(selectedSensor)
    {
      selectedResetDate := Some(date);
    }

    /**
     * `updateResetDate`: nothing is sent unless a sensor and a non-empty date are
     * selected; the request names the selected sensor's id and the date.
     */
    method UpdateResetDate() returns (request: Option<ResetRequest>)
      ensures request.Some? <==> selectedSensor.Some? && selectedResetDate.Some? && selectedResetDate.value != ""
      ensures request.Some? ==> request.value == ResetRequest(selectedSensor.value.sensorId, selectedResetDate.value)
    {
      if selectedSensor.None? || selectedResetDate.None? || selectedResetDate.value == "" {
        return None;
      }
      request := Some(ResetRequest(selectedSensor.value.sensorId, selectedResetDate.value));
    }
  }

  /** Opening the reset dialog and sending at once sends nothing: a date must be picked first. */
  method ResetNeedsFreshDate(page: FieldDashboardComponent, sensor: SensorModel, date: Text) returns (first: Option<ResetRequest>, second: Option<ResetRequest>)
    modifies page
    ensures first == None
    ensures date != "" ==> second == Some(ResetRequest(sensor.sensorId, date))
  {
    page.OpenResetDateModal(sensor);
    first := page.UpdateResetDate();
    page.SelectResetDate(date);
    second := page.UpdateResetDate();
  }
}
