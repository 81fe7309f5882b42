/**
 * The home page of the front end: the farm list and the selected farm, the days-to-cutting
 * message next to each field, and the guard of the new-field form. The farm list is the
 * farms dashboard response. Dates are JavaScript time values in milliseconds; `parseDate`
 * stands for `new Date(text)` and the clock reading is the `now` parameter.
 */
module HomePage {
  import opened Wrappers
  import opened Text
  import opened Countdown
  import opened FarmsRoutes
  import FieldDashboard

  /** The new-field form; the altitude starts out empty (`null`). */
  datatype NewField = NewField(name: Text, altitude: Option<real>)

  const EmptyField: NewField := NewField("", None)

  /** The body posted to `fields/newfield`. */
  datatype FieldRequest = FieldRequest(name: Text, altitude: Option<real>, farmId: Text)

  /**
   * `calculateDaysToCutting` on this page: without a cutting date (or with an empty one) the
   * relaxed message; otherwise the gap from now to the cutting date in days, rounded up,
   * without moving either time to midnight. An unparsable date gives NaN and so "passed".
   */
  function DaysToCutting(optimalCuttingDate: Option<Text>, now: int, parseDate: Text -> Option<int>): (o: Outcome)
    ensures o == Relax <==> optimalCuttingDate.None? || optimalCuttingDate.value == ""
    ensures o != Relax && parseDate(optimalCuttingDate.value).None? ==> o == Passed
  {
    if optimalCuttingDate.None? || optimalCuttingDate.value == "" then Relax
    else
      match parseDate(optimalCuttingDate.value)
      case None => DifferenceOutcome(None)
      case Some(c) => DifferenceOutcome(Some(CeilDays(c - now)))
  }

  /**
   * The home page says "today" exactly when the cutting time is at most one day before now
   * and not after it, "passed" exactly when it is a whole day or more in the past, and "in n
   * days" exactly when it lies more than n - 1 and at most n days ahead.
   */
  lemma DaysToCuttingByGap(cutting: Text, now: int, parseDate: Text -> Option<int>, c: int)
    requires cutting != "" && parseDate(cutting) == Some(c)
    ensures DaysToCutting(Some(cutting), now, parseDate) == Today <==> now - MillisPerDay < c <= now
    ensures DaysToCutting(Some(cutting), now, parseDate) == Passed <==> c <= now - MillisPerDay
    ensures forall n: nat :: DaysToCutting(Some(cutting), now, parseDate) == InDays(n) <==>
      n > 0 && (n - 1) * MillisPerDay < c - now <= n * MillisPerDay
  {
    var d := CeilDays(c - now);
    forall n: nat | n > 0 && (n - 1) * MillisPerDay < c - now <= n * MillisPerDay
      ensures d == n
    {
      assert (d - 1) * MillisPerDay < n * MillisPerDay && (n - 1) * MillisPerDay < d * MillisPerDay;
    }
  }

  /** The two pages agree whenever the cutting time and now both fall on midnights. */
  lemma PagesAgreeAtMidnight(view: FieldDashboard.FieldView, now: int, parseDate: Text -> Option<int>)
    requires now % MillisPerDay == 0
    requires var cd := view.cuttingDateCalculated;
      cd.Some? && cd.value != "" && parseDate(cd.value).Some? ==> parseDate(cd.value).value % MillisPerDay == 0
    ensures FieldDashboard.DaysToCutting(Some(view), now, parseDate) == DaysToCutting(view.cuttingDateCalculated, now, parseDate)
  {
    match view.cuttingDateCalculated
    case None =>
    case Some(t) =>
      if t != "" {
        match parseDate(t)
        case None =>
        case Some(c) =>
          FieldDashboard.MidnightFixed(c);
          FieldDashboard.MidnightFixed(now);
      }
  }

  /**
   * The two pages can disagree: an hour before the cutting time, on the same day, the field
   * page says "today" while the home page counts one more day.
   */
  lemma PagesDisagreeWithinTheDay(view: FieldDashboard.FieldView, parseDate: Text -> Option<int>)
    requires view.cuttingDateCalculated.Some? && view.cuttingDateCalculated.value != ""
    requires parseDate(view.cuttingDateCalculated.value) == Some(3600000)
    ensures FieldDashboard.DaysToCutting(Some(view), 0, parseDate) == Today
    ensures DaysToCutting(view.cuttingDateCalculated, 0, parseDate) == InDays(1)
  {
    FieldDashboard.MidnightDifference(3600000, 0);
    assert CeilDays(3600000) == 1;
  }

  /** `farms.find(farm => farm.FarmId === farmId) || null`: the first farm with that id. */
  function FindFarm(farms: seq<FarmDashboard>, farmId: Text): (r: Option<FarmDashboard>)
    ensures r.None? <==> forall i :: 0 <= i < |farms| ==> farms[i].farmId != farmId
    ensures r.Some? ==> exists i :: 0 <= i < |farms| && farms[i] == r.value && farms[i].farmId == farmId
                          && forall j :: 0 <= j < i ==> farms[j].farmId != farmId
  {
    if farms == [] then None
    else if farms[0].farmId == farmId then Some(farms[0])
    else
      var r := FindFarm(farms[1..], farmId);
      assert forall i :: 1 <= i < |farms| ==> farms[i] == farms[1..][i - 1];
      if r.Some? then
        var k :| 0 <= k < |farms[1..]| && farms[1..][k] == r.value && farms[1..][k].farmId == farmId
                  && forall j :: 0 <= j < k ==> farms[1..][j].farmId != farmId;
        assert farms[k + 1] == r.value && forall j :: 0 <= j < k + 1 ==> farms[j].farmId != farmId;
        r
      else
        r
  }

  /** The page's state: the farm list, the selected farm and the new-field form. */
  class HomeComponent {
    var farms: seq<FarmDashboard>
    var selectedFarm: Option<FarmDashboard>
    var newField: NewField

    constructor()
      ensures farms == [] && selectedFarm == None && newField == EmptyField
    {
      farms := [];
      selectedFarm := None;
      newField := EmptyField;
    }

    /**
     * `fetchFarmDashboard` on success: the list is replaced and, when it is non-empty, its
     * first farm is selected; an empty list keeps the earlier selection.
     */
    method OnDashboardLoaded(data: seq<FarmDashboard>)
      modifies this
      ensures farms == data
      ensures selectedFarm == if |data| > 0 then Some(data[0]) else old(selectedFarm)
      ensures newField == old(newField)
    {
      farms := data;
      if |farms| > 0 {
        selectedFarm := Some(farms[0]);
      }
    }

    /** `onFarmChange`: the first farm with the chosen id, or none when no farm has it. */
    method OnFarmChange(farmId: Text)
      modifies this
      ensures selectedFarm == FindFarm(farms, farmId)
      ensures farms == old(farms) && newField == old(newField)
    {
      selectedFarm := FindFarm(farms, farmId);
    }

    /**
     * `createField`: nothing is sent without a selected farm; otherwise the request carries
     * the form and the selected farm's id.
     */
    method CreateField() returns (request: Option<FieldRequest>)
      ensures request.Some? <==> selectedFarm.Some?
      ensures request.Some? ==> request.value == FieldRequest(newField.name, newField.altitude, selectedFarm.value.farmId)
    {
      if selectedFarm.None? {
        return None;
      }
      request := Some(FieldRequest(newField.name, newField.altitude, selectedFarm.value.farmId));
    }

    /** A created field resets the form to an empty name and no altitude. */
    method OnFieldCreated()
      modifies this
      ensures newField == EmptyField
      ensures farms == old(farms) && selectedFarm == old(selectedFarm)
    {
      newField := EmptyField;
    }
  }

  /** Choosing in the list the farm the page selected after loading keeps that farm selected. */
  lemma ReselectingFirstFarm(farms: seq<FarmDashboard>)
    requires |farms| > 0
    ensures FindFarm(farms, farms[0].farmId) == Some(farms[0])
  {
  }

  /** The farm chosen in the list is always one of the loaded farms, and carries the chosen id. */
  lemma ChosenFarmIsListed(farms: seq<FarmDashboard>, farmId: Text)
    ensures FindFarm(farms, farmId).Some? ==>
      FindFarm(farms, farmId).value in farms && FindFarm(farms, farmId).value.farmId == farmId
  {
  }
}
