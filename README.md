# FarmAdvisor GDD pipeline in Dafny

FarmAdvisor tells a farmer when to cut a grass field by counting growing degree days
(GDD). This project models that pipeline and proves properties of the model.

What the model covers:

- **Simulator.** It publishes hourly temperature readings as CSV payloads over MQTT.
- **Data processor.**
  - It stores each payload in the `weatherdata` table.
  - On every pass it fetches each sensor's weather forecast.
  - It then computes daily means into `gdddata`: `GddForecast` from the air temperature and `GddActual` from the measured temperature.
  - From those, it computes each sensor's cutting date: the first day on which the running GDD total since the sensor's latest reset reaches the sensor's optimal GDD.
- **REST routers.** They assemble the farm dashboard and the field dashboard from both tables.
- **Front-end pages.** Two Angular pages show the countdown to the cutting date, the smoothed forecast chart and the form guards.

Modules, following the program's structure:

| module | models |
|---|---|
| `AzureTables` | The two Azure tables as nested maps (partition, then RowKey, then properties). Covers queries in ascending RowKey order, RowKey range filters, and merge upserts. |
| `GddSpec` | Specification functions for the table service: grouping and daily means, the actual-or-forecast rules, the threshold crossing, the cumulative window. |
| `TableService` | The `AzureTableService` class. Its methods change the two tables in place and are proved against `GddSpec`. |
| `GddProperties` | Lemmas about the service: sort order, where a cutting date comes from, monotonicity, the cumulative sums, the seven-day series bounds. |
| `DataProcessor`, `PassProperties` | `on_message`, and one pass of `fetch_weather_forecast`. |
| `SensorSimulator` | `create_sensor_data` and `generate_past_20_days_data`. |
| `FarmsRoutes`, `FieldsRoutes` | The two routers. |
| `Countdown`, `FieldDashboard`, `HomePage` | The front-end pages. |
| `Text`, `Stats`, `Ordering`, `Records`, `Formats`, `Wrappers`, `Seqs` | Text order, `split`, sums and means, stable sorting, the MySQL rows the services read, the date and number parsers (as parameters), and small sequence facts. |

How the model represents the program:

- **Dates and row keys** are text. They are compared character by character, which is how the table service compares `RowKey ge/le` filters. For the fixed-width `YYYY-MM-DD` keys this is the calendar order.
- **Front-end times** are JavaScript time values in milliseconds. `new Date(text)` is a parameter that returns None for an invalid date.
- **Numbers** are exact reals.

Facts of the code that the model keeps:

- **Actual-or-forecast rule.** The service picks a day's value in three different ways, and the model keeps all three:
  - `GddActual or GddForecast`, at service.py:272;
  - `GddForecast or 0`, at service.py:315;
  - `GddActual or GddForecast or 0`, at service.py:362 and 499.
- **The filter at service.py:318.** `"GddForecast" or 0 in entity` is always true, so every row enters the forecast scan with value 0 when it has no forecast. `ForecastFilterHarmless` proves that for a positive optimal GDD this gives the same date as the evidently intended filter. `ForecastFilterAtZero` shows that the two filters differ at 0.
- **Error mapping in the field router.** Both handlers raise their 404 inside a `try` whose `except Exception` turns it into a 500, so the client never sees the 404.
- **The seven-day window.** The query bound `RowKey le '<today+7>'` drops every timestamped row of the last day. So the temperature and humidity series end strictly before that day.
- **Countdown messages.** `calculateDaysToCutting` returns one of four texts. The model returns which one, as a `Countdown.Outcome`, and `Countdown.Message` renders it. `MessagesDistinct` shows the four kinds render differently.
- **Two countdowns.** The home page computes the days to cutting without moving the times to midnight, so it can disagree with the field page within a day (`PagesDisagreeWithinTheDay`).

## Model

Source paths are relative to the repository root.

| member | source | states |
|---|---|---|
| AzureTables.PartitionEntities | azure_table_service/service.py:44-51 | A partition query returns every entity of the partition exactly once, each as stored, all with that PartitionKey, in strictly ascending RowKey order |
| AzureTables.AllEntities | azure_table_service/service.py:52-57 | A query without a partition filter returns exactly the entities the table holds: each listed entity is stored, and each stored entity is listed |
| AzureTables.Upsert | azure_table_service/service.py:115-123 | `upsert_entity` in merge mode: the row exists afterwards, carries every property the entity gives, and every other partition is unchanged |
| AzureTables.KeyRange | azure_table_service/service.py:353-358 | A RowKey range filter keeps every entity whose key lies within the given bounds and returns no other entity |
| AzureTables.KeyRangeListsKey | azure_table_service/service.py:353-358 | Every row key of the partition listing that passes the range filter is a row key of the filtered result |
| AzureTables.KeyRangeAscending | azure_table_service/service.py:264-265 | Filtering a partition's ascending listing by RowKey keeps it strictly ascending |
| AzureTables.UpsertReads | azure_table_service/service.py:115-123 | After a merge upsert a row exists exactly when it existed or is the upserted key; each property reads as the upsert wrote it, or as before when the upsert did not carry it |
| AzureTables.UpsertAllFrame | azure_table_service/service.py:137-138 | Upserting a list leaves every row that no listed entity addresses exactly as it was |
| Text.Split | DataProcessor/main.py:48 | `split(',')` yields at least one piece and no piece contains the separator |
| Text.SplitLength | DataProcessor/main.py:48 | `split` yields one more piece than there are separators, so three fields means exactly two commas |
| Text.DatePart | azure_table_service/service.py:170 | `RowKey.split(" ")[0]` contains no space |
| Text.DatePartOfTimestamp | azure_table_service/service.py:170 | The date part of a `date time` key is the date |
| Text.DatePartBelow | azure_table_service/service.py:386-389 | A timestamp key no greater than a day bound has a date part strictly below that day |
| Text.Replace | DataProcessor/main.py:124 | After `replace('Z', r)` with an `r` free of `Z`, no `Z` is left |
| Text.NatText | Frontend/src/app/pages/field-dashboard/field-dashboard.component.ts:316 | The decimal rendering of a day count is non-empty and made of digits |
| Stats.MeanBounds | azure_table_service/service.py:180 | The mean of a group lies between any lower and upper bound of its readings |
| Stats.SumNonNegative | azure_table_service/service.py:361-364 | A sum of values none of which is negative is not negative |
| Stats.Ceil | RESTApi/app/routers/farmsroutes.py:58-59 | `math.ceil` gives the least integer not below its argument |
| Ordering.SortByDate | azure_table_service/service.py:268-278 | The stable sort by date returns a permutation of its input |
| Ordering.SortByDateSorted | azure_table_service/service.py:268-278 | The sort's result is in non-decreasing date order |
| Ordering.SortByDateOfSorted | azure_table_service/service.py:492-504 | Sorting records that are already in date order leaves them unchanged (stability) |
| Ordering.SortByDateAscending | azure_table_service/service.py:415 | Sorting rows whose dates are distinct gives strictly ascending dates |
| Ordering.AscendingUnique | azure_table_service/service.py:415 | Two strictly ascending listings of the same dates are the same listing |
| GddSpec.WeatherRows | azure_table_service/service.py:44-57 | The weather query returns only stored rows, and with a non-empty partition key only rows of that partition (an empty key queries every partition) |
| GddSpec.ReadingDatesNonEmpty | azure_table_service/service.py:163-175 | A date is grouped exactly when it has at least one reading of the attribute |
| GddSpec.ReadingsFrom | azure_table_service/service.py:163-175 | Every reading grouped under a date comes from a row of that date that carries the attribute |
| GddSpec.DailyMeans | azure_table_service/service.py:177-185 | There is one daily mean for each date that has a reading, and for no other date |
| GddSpec.DailyMeanBounds | azure_table_service/service.py:177-180 | Each daily mean lies within any bounds that hold for all readings of the rows |
| GddSpec.DailyMeansSkipMissing | azure_table_service/service.py:164-167 | A row without the attribute changes no daily mean: it is skipped, not counted as 0 |
| GddSpec.DailyMeansOtherDate | azure_table_service/service.py:170-175 | A reading for one date leaves the means of all other dates unchanged |
| GddSpec.WithDailyMeansReads | azure_table_service/service.py:181-193 | After `add_gdd_*`'s upserts, a day-row of the partition exists exactly when it existed or has a mean; it carries that mean in the GDD field and keeps its other properties; other partitions are untouched |
| GddSpec.WithDailyMeans | azure_table_service/service.py:178-193 | Upserting the day-rows sets the GDD field of every date with a mean to that mean and leaves every other partition unchanged |
| GddSpec.ActualOrForecast | azure_table_service/service.py:272 | Python's `or`: the actual when present and non-zero, otherwise the forecast, which may be absent |
| GddSpec.ActualOrForecastOrZero | azure_table_service/service.py:362 | The same rule with 0 when both fail |
| GddSpec.ActualWins | azure_table_service/service.py:272 | A day with actual 5 and forecast 9 contributes 5; the two are not added |
| GddSpec.ZeroActualFallsThrough | azure_table_service/service.py:272 | An actual of exactly 0 is falsy: the forecast is used, or nothing, or 0 in the defaulting variant |
| GddSpec.FirstCrossing | azure_table_service/service.py:281-293 | The index of the first record with a value at which the running total of present values reaches the threshold; None exactly when no record reaches it |
| GddSpec.CrossingMonotone | azure_table_service/service.py:288-290 | A higher threshold is reached no earlier than a lower one, and only if the lower one is reached |
| GddSpec.CuttingRecordOrigin | azure_table_service/service.py:268-276 | Every record the cutting scan sees comes from a row carrying GddActual or GddForecast, with that row's date and value |
| GddSpec.CuttingRecordsComplete | azure_table_service/service.py:275 | Every row carrying GddActual or GddForecast gives a scanned record |
| GddSpec.ForecastRecords | azure_table_service/service.py:311-321 | The forecast scan has one record per row, as written: the forecast value, or 0 when it is absent or 0 |
| GddSpec.CrossingDate | azure_table_service/service.py:281-293 | The date returned is the date of a record at which the running total reaches `optimal_gdd`; None exactly when no record reaches it |
| GddSpec.CuttingScan | azure_table_service/service.py:264-278 | The records `calculate_cutting_date` scans are in date order, at most one per stored day of the sensor |
| GddSpec.ForecastScan | azure_table_service/service.py:307-321 | The records `calculate_forcast_cutting_date` scans are in date order, exactly one per row from the reset day on |
| GddSpec.SensorValues | azure_table_service/service.py:361-363 | Each summed row contributes its actual-or-forecast-or-0 value |
| GddSpec.SensorGdd | azure_table_service/service.py:353-364 | With no row between the reset day and today the sensor's GDD is 0 |
| GddSpec.RowsBetween | azure_table_service/service.py:353-358 | A date-range query (here, and likewise at lines 386-389 and 484-489) returns exactly the stored rows of the partition keyed within [from, to]: each returned row is stored and in range, and every stored row in range is returned, in strictly ascending RowKey order |
| GddSpec.ForecastPoints | azure_table_service/service.py:492-502 | One record per row, dated by its RowKey, valued actual-or-forecast-or-0 |
| GddSpec.CumulativeScan | azure_table_service/service.py:484-504 | The records of `calculate_cumulative_gdd_forecast` are in date order, one per row dated within [reset, weekEnd] |
| GddSpec.Cumulative | azure_table_service/service.py:506-523 | The loop emits at most one entry per record, and only entries dated inside [today, weekEnd] |
| GddSpec.DailySeries | azure_table_service/service.py:395-415 | The seven-day series lists each date that has a reading exactly once, in strictly ascending order, with that date's mean |
| GddProperties.CuttingRecordsSorted | azure_table_service/service.py:268-278 | Rows in ascending RowKey order give cutting records in date order |
| GddProperties.ForecastRecordsSorted | azure_table_service/service.py:311-321 | Rows in ascending RowKey order give forecast records in date order |
| GddProperties.CuttingScanInRowOrder | azure_table_service/service.py:264-278 | The sort in `calculate_cutting_date` leaves the records of the rows from the reset day on in RowKey order |
| GddProperties.ForecastScanInRowOrder | azure_table_service/service.py:307-321 | The same holds for `calculate_forcast_cutting_date` |
| GddProperties.CuttingDateIsStoredDay | azure_table_service/service.py:264-290 | A cutting date, when there is one, is a day stored for the sensor, on or after the reset day, carrying GddActual or GddForecast |
| GddProperties.RangeRowStored | azure_table_service/service.py:264-265 | A row of the reset-day query is a stored row of the sensor dated on or after the reset day |
| GddProperties.CuttingDateMonotone | azure_table_service/service.py:256-293 | Raising `optimal_gdd` never gives an earlier cutting date, nor a date where there was none |
| GddProperties.ScanIsCrossingDate | azure_table_service/service.py:281-293 | The loop with its early `return` computes exactly the first-crossing date |
| GddProperties.CrossingExample | azure_table_service/service.py:281-293 | For totals 5, none, 11, 15: threshold 5 is met on day 1, 10 on day 3 (the record without a value is skipped), 100 never |
| GddProperties.ScanSkipsRowsWithoutForecast | azure_table_service/service.py:315-333 | Below the threshold, a row without a forecast contributes 0 and leaves the scan's outcome unchanged |
| GddProperties.ForecastFilterHarmless | azure_table_service/service.py:318 | For a positive `optimal_gdd` the always-true filter gives the same date as `"GddForecast" in entity` |
| GddProperties.ForecastFilterAtZero | azure_table_service/service.py:318 | For `optimal_gdd` 0 the two filters give different dates |
| GddProperties.SensorGddNonNegative | azure_table_service/service.py:361-364 | With no negative value stored, a sensor's GDD since its reset is not negative |
| GddProperties.RowsBetweenStored | azure_table_service/service.py:353-358 | A row of the date-range query is a stored row of that partition |
| GddProperties.ValueNonNegative | azure_table_service/service.py:362 | With non-negative properties, actual-or-forecast-or-0 is not negative |
| GddProperties.TotalFromAll | azure_table_service/service.py:510-514 | When no record predates the reset day, the running total is the plain sum of the values |
| GddProperties.CumulativeEntries | azure_table_service/service.py:507-523 | Every emitted entry is a record inside [today, weekEnd] with the running total through it, and every record inside the window is emitted |
| GddProperties.CumulativeSorted | azure_table_service/service.py:517-521 | Records in date order give entries in date order |
| GddProperties.ForecastPointsSorted | azure_table_service/service.py:492-504 | Rows in ascending RowKey order give records in date order |
| GddProperties.CumulativeScanInRowOrder | azure_table_service/service.py:484-504 | The sort leaves the queried rows in RowKey order, and every record is dated on or after the reset day |
| GddProperties.RowsBetweenFrom | azure_table_service/service.py:484-489 | Every row of the date-range query is dated on or after the lower bound |
| GddProperties.RunningSums | azure_table_service/service.py:507-523 | Over sorted records from the reset day on, the entries are in date order, in the window, and each carries the plain sum of all records up to and including it |
| GddProperties.TotalsArePlainSums | azure_table_service/service.py:513-514 | With no record before the reset day, every running total is the sum of its prefix |
| GddProperties.CumulativeForecastSums | azure_table_service/service.py:471-527 | `calculate_cumulative_gdd_forecast` emits, in date order and inside the window, entries each carrying the sum of all records up to it, including those before the window |
| GddProperties.CumulativeExample | azure_table_service/service.py:513-521 | With reset on June 1 and the window from June 2, the June 2 entry already holds June 1's value |
| GddProperties.CarriedIntoWindow | azure_table_service/service.py:513-521 | A record after the reset day but before the window is carried into the next in-window entry |
| GddProperties.CumulativeSnoc | azure_table_service/service.py:510-521 | One more record adds its value to the total when it is on or after the reset day, and one entry when it is inside the window |
| GddProperties.ReadingDatesFrom | azure_table_service/service.py:396-402 | Each grouped date is the date part of a row carrying the attribute |
| GddProperties.SeriesDateFromRow | azure_table_service/service.py:396-415 | Each date of the seven-day series is the date part of one of the queried rows |
| GddProperties.SevenDayEndsBeforeWeekEnd | azure_table_service/service.py:386-401 | With timestamp row keys, each date of the seven-day series is strictly before `seven_days_ahead` |
| GddProperties.WindowRowBeforeWeekEnd | azure_table_service/service.py:386-389 | The date part of a timestamp key inside [today, weekEnd] is before weekEnd |
| TableService.GroupByDate | azure_table_service/service.py:159-175 | The grouping dict has exactly the dates with readings as keys; each holds that date's readings in row order; the insertion order lists each key once |
| TableService.AddReading | azure_table_service/service.py:163-175 | One row preserves the grouping invariant for the rows seen so far |
| TableService.ScanForCrossing | azure_table_service/service.py:281-293 | The accumulation loop returns the first-crossing date |
| TableService.UpsertDailyMean | azure_table_service/service.py:192-193 | Upserting one more day-row extends the daily-means table by that date |
| TableService.RunningTotals | azure_table_service/service.py:507-523 | The accumulation loop emits the cumulative window entries |
| TableService.DailyRows | azure_table_service/service.py:178-185 | One row per grouped date, in insertion order, keyed by the partition and the date, carrying only the GDD field set to that date's mean |
| TableService.AzureTableService.constructor | azure_table_service/service.py:12-17 | The service starts out over the given two tables |
| TableService.AzureTableService.StoreEntity | azure_table_service/service.py:115-123 | One merge upsert into the named table; the other table is unchanged |
| TableService.AzureTableService.SaveWeatherDataList | azure_table_service/service.py:125-146 | The list is upserted into `weatherdata` in order; `gdddata` is unchanged |
| TableService.AzureTableService.AddDailyMeans | azure_table_service/service.py:148-200 | `gdddata` becomes the old table with the daily means of the partition's readings upserted; `weatherdata` is unchanged |
| TableService.AzureTableService.WriteDailyRows | azure_table_service/service.py:192-193 | The upsert loop over the day-rows yields the old table with every listed mean merged in |
| TableService.AzureTableService.AddGddForecast | azure_table_service/service.py:148-200 | Daily means of `air_temperature` are stored as `GddForecast`; nothing else changes |
| TableService.AzureTableService.AddGddActual | azure_table_service/service.py:202-254 | Daily means of `temperature_actual` are stored as `GddActual`; nothing else changes |
| TableService.AzureTableService.CalculateCuttingDate | azure_table_service/service.py:256-297 | The first-crossing date over the sensor's actual-or-forecast records from the reset day, sorted |
| TableService.AzureTableService.CalculateForecastCuttingDate | azure_table_service/service.py:299-340 | The first-crossing date over the forecast-or-0 records of every row from the reset day |
| TableService.AzureTableService.SevenDayForecast | azure_table_service/service.py:386-416 | The daily series of the attribute over the partition's rows keyed within [today, weekEnd] |
| TableService.AzureTableService.SevenDayTemperatureForecast | azure_table_service/service.py:375-421 | The daily air-temperature series over the window |
| TableService.AzureTableService.SevenDayHumidityForecast | azure_table_service/service.py:423-469 | The daily relative-humidity series over the window |
| TableService.AzureTableService.CumulativeGddForecast | azure_table_service/service.py:471-527 | The cumulative window entries over the sensor's rows dated in [reset, weekEnd], sorted |
| TableService.SameSeries | azure_table_service/service.py:404-415 | Averaging the groups and sorting by date yields exactly the ascending daily series |
| TableService.GroupMeans | azure_table_service/service.py:404-412 | The averaged list has distinct dates, exactly the dates with readings, each with its mean |
| TableService.SortedMeans | azure_table_service/service.py:415 | An ascending permutation of the means list is dated by the sorted keys, each with its mean |
| DataProcessor.DecodeMessage | DataProcessor/main.py:44-71 | Accepts exactly a UTF-8 payload that splits on `,` into three fields whose timestamp and number both parse. The entity then has the first field (the serial) as PartitionKey, the parsed timestamp re-rendered as RowKey, and `temperature_actual` = the parsed number as its only property |
| DataProcessor.OnMessage | DataProcessor/main.py:39-81 | A payload is stored (merge upsert into `weatherdata`) exactly when it decodes; otherwise nothing changes; `gdddata` never changes |
| DataProcessor.ForecastRow | DataProcessor/main.py:123-135 | An item becomes a row exactly when it has a `time` that parses after the `Z` rewrite and has details; the row is keyed by the serial and the re-rendered time, and carries every detail with its value (except ones named PartitionKey or RowKey, which the keys overwrite) |
| DataProcessor.ForecastRows | DataProcessor/main.py:122-135 | The items become rows exactly when each one does, one row per item in order |
| DataProcessor.BuildForecastRows | DataProcessor/main.py:122-135 | The item loop returns the rows of all items, or the error of the first failing one |
| DataProcessor.AfterRows | DataProcessor/main.py:137-148 | The weather table gains the rows (none saved for an empty list), then both daily-mean series are written |
| DataProcessor.SensorStep | DataProcessor/main.py:116-165 | A failed step leaves both tables unchanged; a successful one writes a cutting date for the sensor's own serial |
| DataProcessor.ProcessSensor | DataProcessor/main.py:116-165 | The per-sensor `try` changes the tables and returns the write as the step says |
| DataProcessor.Advance | DataProcessor/main.py:116-165 | A sensor adds at most one cutting-date write to the pass |
| DataProcessor.RunPass | DataProcessor/main.py:104-165 | A pass over the sensors writes at most one cutting date per sensor, each for the serial of a visited sensor |
| DataProcessor.ProcessFieldSensors | DataProcessor/main.py:104-165 | The inner sensor loop continues the pass over the field's sensors, in order |
| DataProcessor.FetchWeatherForecast | DataProcessor/main.py:97-165 | One pass visits every sensor of every field in order, each in its own step; the tables and writes are those of the pass |
| PassProperties.FailedSensorChangesNothing | DataProcessor/main.py:157-165 | A sensor whose request or items fail leaves the pass exactly as it was |
| PassProperties.PassAllFail | DataProcessor/main.py:100-165 | If every request fails, the pass writes nothing and changes neither table |
| PassProperties.StepSucceeds | DataProcessor/main.py:116-155 | Whether a step writes a cutting date depends only on its response, not on the tables |
| PassProperties.PassWritesSucceeding | DataProcessor/main.py:100-155 | The pass writes one cutting date per sensor whose response yields rows, in visit order |
| PassProperties.AllSucceedingSerials | DataProcessor/main.py:100-155 | When every response yields rows, the writes name the sensors one to one |
| PassProperties.AfterRowsWritesBothSeries | DataProcessor/main.py:147-148 | After a sensor's step its partition holds, for every day with readings, GddForecast as the mean air temperature and GddActual as the mean measured temperature |
| PassProperties.AfterRowsOtherPartitions | DataProcessor/main.py:147-148 | A sensor's step writes only that sensor's `gdddata` partition |
| PassProperties.StepCuttingDateIsStoredDay | DataProcessor/main.py:151-155 | A written cutting date is a day stored for the sensor in the `gdddata` the step produced, on or after the reset day |
| SensorSimulator.TruncateToHour | SensorsSim/sensor_simulator.py:98 | The anchor is a whole hour no later than now and less than an hour before it |
| SensorSimulator.Instant | SensorsSim/sensor_simulator.py:85-89 | A sensor's k-th message is stamped a whole number of hours from the anchor; it is before the anchor exactly for the first 480, and message 480 is the anchor hour itself |
| SensorSimulator.Round2 | SensorsSim/sensor_simulator.py:56 | `round(x, 2)` is within 0.005 of x |
| SensorSimulator.Temperature | SensorsSim/sensor_simulator.py:56 | Every generated temperature lies in [-10, 35] and is a whole number of hundredths |
| SensorSimulator.CreateSensorData | SensorsSim/sensor_simulator.py:54-60 | With comma-free parts the payload splits back into serial, timestamp and temperature |
| SensorSimulator.PayloadDecodes | SensorsSim/sensor_simulator.py:54-60 | For parsers that read back rendered timestamps and two-decimal numbers (`Formats.TallyFormats` shows such parsers exist), a payload for a comma-free serial is accepted by `on_message` and stored as the reading it was made from |
| SensorSimulator.ScheduleCoversEachHourOnce | SensorsSim/sensor_simulator.py:85-89 | A sensor's instants strictly increase and cover every hour from 480 hours before the anchor to 23 after, exactly once each |
| SensorSimulator.SensorPublications | SensorsSim/sensor_simulator.py:85-93 | One sensor publishes 504 messages (21 days of 24 hours) |
| SensorSimulator.FieldPublications | SensorsSim/sensor_simulator.py:81-93 | A field publishes 504 messages per sensor, all to the field's topic |
| SensorSimulator.RunPublications | SensorsSim/sensor_simulator.py:77-93 | A run publishes 504 messages per sensor of all fields |
| SensorSimulator.PublishSensor | SensorsSim/sensor_simulator.py:85-93 | The day and hour loops publish exactly the sensor's schedule, in order |
| SensorSimulator.PublishField | SensorsSim/sensor_simulator.py:83-93 | The sensor loop publishes the field's messages, sensor after sensor |
| SensorSimulator.GeneratePast20DaysData | SensorsSim/sensor_simulator.py:77-93 | The field loop publishes the run's messages, field after field |
| SensorSimulator.RunPublicationsAccepted | SensorsSim/sensor_simulator.py:77-93 | With comma-free serials every message of a run is accepted by `on_message` with a temperature in [-10, 35] |
| SensorSimulator.RunTopics | SensorsSim/sensor_simulator.py:81 | Every message goes to the topic of one of the fields |
| SensorSimulator.Topic | SensorsSim/sensor_simulator.py:79-81 | The topic is `prefix/farm_id/fields/field_id`: it starts with the prefix and a slash and ends with `/fields/` and the field id |
| FarmsRoutes.SensorGdds | RESTApi/app/routers/farmsroutes.py:43-51 | One GDD per sensor, each from that sensor's own latest reset |
| FarmsRoutes.CuttingDates | RESTApi/app/routers/farmsroutes.py:53-55 | The dates are exactly the stored cutting dates of the sensors that have one |
| FarmsRoutes.Earliest | RESTApi/app/routers/farmsroutes.py:62-63 | None exactly for no dates; otherwise one of the dates, no later than any other |
| FarmsRoutes.CurrentGdd | RESTApi/app/routers/farmsroutes.py:58-59 | 0 without sensors; otherwise the mean of the sensors' GDD rounded up |
| FarmsRoutes.FieldDetailOf | RESTApi/app/routers/farmsroutes.py:40-72 | A field's detail keeps its id and name; its GDD is 0 without sensors; its date is None exactly when no sensor has a cutting date, and otherwise a sensor's date no later than any other |
| FarmsRoutes.FarmDashboardOf | RESTApi/app/routers/farmsroutes.py:38-80 | A farm's entry keeps its id and name and has one detail per field, in order, each the detail `FieldDetailOf` computes for that field |
| FarmsRoutes.ReadFieldDetail | RESTApi/app/routers/farmsroutes.py:40-72 | The sensor loop, mean and minimum compute the field's detail |
| FarmsRoutes.ReadFarm | RESTApi/app/routers/farmsroutes.py:38-80 | The field loop computes the farm's entry |
| FarmsRoutes.ReadFarmDashboard | RESTApi/app/routers/farmsroutes.py:22-82 | One entry per farm, in the order the farms come back |
| FarmsRoutes.CurrentGddBounds | RESTApi/app/routers/farmsroutes.py:58-59 | A field's GDD is at least any lower bound of its sensors' GDDs and below any upper bound plus one |
| FarmsRoutes.SingleSensorGdd | RESTApi/app/routers/farmsroutes.py:58-59 | With one sensor the field's GDD is that sensor's GDD rounded up |
| FarmsRoutes.UndatedSensorStillAveraged | RESTApi/app/routers/farmsroutes.py:43-59 | A sensor without a cutting date does not change the field's date but does enter the average |
| FarmsRoutes.FieldCuttingDateIsEarliest | RESTApi/app/routers/farmsroutes.py:53-63 | The field's date is None exactly when no sensor has one; otherwise it is some sensor's date and no later than any sensor's |
| FarmsRoutes.CurrentGddOfNonNegative | RESTApi/app/routers/farmsroutes.py:58-59 | Averaging non-negative values and rounding up gives no negative number |
| FarmsRoutes.CurrentGddNonNegative | RESTApi/app/routers/farmsroutes.py:43-59 | With no negative value stored, no field shows a negative GDD |
| FieldsRoutes.Graph | RESTApi/app/routers/fieldsroutes.py:59-76 | One graph point per record, with its date and value |
| FieldsRoutes.FieldSensors | RESTApi/app/routers/fieldsroutes.py:88-96 | One entry per sensor, with that sensor's own reset date |
| FieldsRoutes.SensorDashboard | RESTApi/app/routers/fieldsroutes.py:49-101 | For a field with sensors: its name and altitude, a current GDD, the first sensor's optimal GDD and stored cutting date, and one sensor entry per sensor |
| FieldsRoutes.FieldDashboardBody | RESTApi/app/routers/fieldsroutes.py:30-101 | The `try` body succeeds exactly when a field is found, raises 404 for a missing one, shows the field's name and altitude, and for no sensors an empty sensor list and no GDD |
| FieldsRoutes.CatchAll | RESTApi/app/routers/fieldsroutes.py:103-105 | A result passes through; any error, the 404 included, becomes 500 |
| FieldsRoutes.ReadFieldDashboard | RESTApi/app/routers/fieldsroutes.py:23-105 | Fails, always with 500, exactly when the lookup fails or finds no field; otherwise it shows the field's name and altitude |
| FieldsRoutes.UpdateSensorResetDate | RESTApi/app/routers/fieldsroutes.py:133-153 | Succeeds with `true` exactly when the update returns true; otherwise 500 |
| FieldsRoutes.MissingFieldIs500 | RESTApi/app/routers/fieldsroutes.py:32-34 | A missing field raises 404 inside the `try`, and the client receives 500 |
| FieldsRoutes.NoSensorsDashboard | RESTApi/app/routers/fieldsroutes.py:41-47 | A field without sensors shows its name and altitude and all defaults |
| FieldsRoutes.FirstSensorDecides | RESTApi/app/routers/fieldsroutes.py:50-56 | Every figure except the sensor list depends only on the first sensor |
| FieldsRoutes.SensorFigures | RESTApi/app/routers/fieldsroutes.py:79-96 | The current GDD is the first sensor's GDD rounded up, with its optimal GDD and its stored (not recomputed) cutting date, plus one entry per sensor |
| FieldsRoutes.GddGraphInWindow | RESTApi/app/routers/fieldsroutes.py:53-61 | The GDD graph is in date order and inside [today, weekEnd] |
| FieldsRoutes.WeatherGraphsBeforeWeekEnd | RESTApi/app/routers/fieldsroutes.py:63-76 | The temperature graph is strictly ascending, and both weather graphs end before weekEnd |
| FieldsRoutes.FailedUpdateIs500 | RESTApi/app/routers/fieldsroutes.py:147-153 | A `false` update raises 404 inside the `try`, and the client receives 500 |
| Countdown.CeilDays | Frontend/src/app/pages/field-dashboard/field-dashboard.component.ts:309-311 | `Math.ceil(ms / day)` is the d with (d-1) days < ms <= d days |
| Countdown.CeilDaysOfWholeDays | Frontend/src/app/pages/field-dashboard/field-dashboard.component.ts:309-311 | A gap of n whole days gives n |
| Countdown.Message | Frontend/src/app/pages/field-dashboard/field-dashboard.component.ts:299-319 | The text shown is "Relax, take it easy" exactly for the no-date outcome |
| Countdown.MessagesDistinct | Frontend/src/app/pages/field-dashboard/field-dashboard.component.ts:299-319 | The relaxed, today, in-n-days and passed messages are pairwise different texts |
| Countdown.DifferenceOutcome | Frontend/src/app/pages/field-dashboard/field-dashboard.component.ts:313-319 | "today" exactly for 0, "in n days" exactly for a positive n, "passed" exactly for a negative difference or NaN; never the relaxed message |
| FieldDashboard.HalfUp | Frontend/src/app/pages/field-dashboard/field-dashboard.component.ts:360-361 | `floor(w/2) + ceil(w/2) == w` |
| FieldDashboard.JsSlice | Frontend/src/app/pages/field-dashboard/field-dashboard.component.ts:362 | `slice` returns no more elements than the array has |
| FieldDashboard.Window | Frontend/src/app/pages/field-dashboard/field-dashboard.component.ts:360-362 | The subset holds only elements of the series; for a window size of at least 1 it is the slice from max(0, i - floor(w/2)) to min(n, i + ceil(w/2)), which contains i |
| FieldDashboard.SmoothAt | Frontend/src/app/pages/field-dashboard/field-dashboard.component.ts:359-363 | Each element's mean is a number for a window size of at least 1, and NaN for a window of 0 |
| FieldDashboard.SmoothData | Frontend/src/app/pages/field-dashboard/field-dashboard.component.ts:358-365 | One smoothed value per element |
| FieldDashboard.SmoothWindowContainsPoint | Frontend/src/app/pages/field-dashboard/field-dashboard.component.ts:358-365 | For window size at least 1, each element's window is its clipped neighbourhood, contains the element, and the value is its mean |
| FieldDashboard.SmoothThreeAveragesNeighbours | Frontend/src/app/pages/field-dashboard/field-dashboard.component.ts:189-192 | With the window of 3, element i is the mean of its clipped neighbours i-1 .. i+1 |
| FieldDashboard.SmoothOneIsIdentity | Frontend/src/app/pages/field-dashboard/field-dashboard.component.ts:358-365 | A window of 1 leaves the series as it is |
| FieldDashboard.SmoothZeroIsUndefined | Frontend/src/app/pages/field-dashboard/field-dashboard.component.ts:358-365 | A window of 0 is empty, so every value is NaN |
| FieldDashboard.SmoothWithinBounds | Frontend/src/app/pages/field-dashboard/field-dashboard.component.ts:358-365 | Smoothed values are numbers within the bounds of the series |
| FieldDashboard.SmoothConstant | Frontend/src/app/pages/field-dashboard/field-dashboard.component.ts:358-365 | A constant series is its own smoothing |
| FieldDashboard.Midnight | Frontend/src/app/pages/field-dashboard/field-dashboard.component.ts:306-307 | `setHours(0,0,0,0)` moves a time to the start of its day: at most the time, less than a day before it, on a day boundary |
| FieldDashboard.MidnightDifference | Frontend/src/app/pages/field-dashboard/field-dashboard.component.ts:303-311 | After the midnight normalisation the day count is the difference of the day numbers |
| FieldDashboard.DaysToCutting | Frontend/src/app/pages/field-dashboard/field-dashboard.component.ts:298-320 | The relaxed message exactly when there is no dashboard or no (or an empty) cutting date; an unparsable date reads as passed |
| FieldDashboard.DaysToCuttingByDay | Frontend/src/app/pages/field-dashboard/field-dashboard.component.ts:303-320 | "today" exactly on the current day, "passed" exactly on an earlier day, "in n days" exactly when the cutting day is n days ahead |
| FieldDashboard.ShortWeekday | Frontend/src/app/pages/field-dashboard/field-dashboard.component.ts:177 | The label is one of the seven short weekday names |
| FieldDashboard.CuttingDateInRange | Frontend/src/app/pages/field-dashboard/field-dashboard.component.ts:163-174 | In range only for a cutting date that parses and lies between two parsable forecast dates |
| FieldDashboard.CuttingDateLabel | Frontend/src/app/pages/field-dashboard/field-dashboard.component.ts:176-178 | A label exists exactly when the cutting date is in range, and it is a short weekday name |
| FieldDashboard.LabelWithinForecast | Frontend/src/app/pages/field-dashboard/field-dashboard.component.ts:163-178 | For ascending forecast dates the marker is drawn exactly when the cutting date lies between two forecast dates, labelled with its weekday |
| FieldDashboard.NoLabelWithoutDates | Frontend/src/app/pages/field-dashboard/field-dashboard.component.ts:163-178 | No cutting date, an empty one, or no forecast: no marker |
| FieldDashboard.FieldDashboardComponent.constructor | Frontend/src/app/pages/field-dashboard/field-dashboard.component.ts:25-37 | The page starts without data, with an empty sensor form and nothing selected |
| FieldDashboard.FieldDashboardComponent.OnDashboardLoaded | Frontend/src/app/pages/field-dashboard/field-dashboard.component.ts:65-72 | A response replaces the page's data and nothing else |
| FieldDashboard.FieldDashboardComponent.CreateSensor | Frontend/src/app/pages/field-dashboard/field-dashboard.component.ts:79-107 | A request is sent exactly when the form is valid and the route has a field id, and it carries the id and the form |
| FieldDashboard.FieldDashboardComponent.CloseSensorModal | Frontend/src/app/pages/field-dashboard/field-dashboard.component.ts:117-124 | The form is reset to an empty serial and zeros; nothing else changes |
| FieldDashboard.FieldDashboardComponent.OpenResetDateModal | Frontend/src/app/pages/field-dashboard/field-dashboard.component.ts:321-323 | The sensor is selected and any earlier date is cleared |
| FieldDashboard.FieldDashboardComponent.SelectResetDate | Frontend/src/app/pages/field-dashboard/field-dashboard.component.ts:37 | Picking a date sets only the selected date |
| FieldDashboard.FieldDashboardComponent.UpdateResetDate | Frontend/src/app/pages/field-dashboard/field-dashboard.component.ts:330-340 | A request is sent exactly when a sensor and a non-empty date are selected, and it names them |
| FieldDashboard.ResetNeedsFreshDate | Frontend/src/app/pages/field-dashboard/field-dashboard.component.ts:321-340 | Right after opening the dialog nothing is sent; after picking a date the request is sent |
| HomePage.DaysToCutting | Frontend/src/app/pages/home/home.component.ts:64-80 | The relaxed message exactly for a null or empty cutting date; an unparsable date reads as passed |
| HomePage.DaysToCuttingByGap | Frontend/src/app/pages/home/home.component.ts:67-79 | "today" exactly when the cutting time is within the last day, "passed" exactly when a day or more in the past, "in n days" exactly when more than n-1 and at most n days ahead |
| HomePage.PagesAgreeAtMidnight | Frontend/src/app/pages/home/home.component.ts:64-80 | When both times fall on midnights, the home page and the field page show the same message |
| HomePage.PagesDisagreeWithinTheDay | Frontend/src/app/pages/home/home.component.ts:67-71 | An hour before the cutting time the field page says "today" and the home page says "in 1 days" |
| HomePage.FindFarm | Frontend/src/app/pages/home/home.component.ts:56-57 | None exactly when no farm has the id; otherwise the first farm with it |
| HomePage.HomeComponent.constructor | Frontend/src/app/pages/home/home.component.ts:20-32 | No farms, none selected, an empty field form |
| HomePage.HomeComponent.OnDashboardLoaded | Frontend/src/app/pages/home/home.component.ts:42-46 | The list is replaced; a non-empty list selects its first farm, an empty list keeps the selection |
| HomePage.HomeComponent.OnFarmChange | Frontend/src/app/pages/home/home.component.ts:54-58 | The selection becomes the first farm with the chosen id, or none |
| HomePage.HomeComponent.CreateField | Frontend/src/app/pages/home/home.component.ts:94-104 | A request is sent exactly when a farm is selected, with the form and that farm's id |
| HomePage.HomeComponent.OnFieldCreated | Frontend/src/app/pages/home/home.component.ts:110-114 | The form is reset to an empty name and no altitude |
| HomePage.ReselectingFirstFarm | Frontend/src/app/pages/home/home.component.ts:43-57 | Choosing the farm selected after loading keeps it selected |
| HomePage.ChosenFarmIsListed | Frontend/src/app/pages/home/home.component.ts:54-58 | A chosen farm is one of the loaded farms and has the chosen id |

## Left out

- **Connections and loops.**
  - MQTT connect, subscribe and publish result codes: DataProcessor/main.py:30-36, SensorsSim/sensor_simulator.py:26-38 and 64-73.
  - HTTP requests, threads, `time.sleep`, and the endless `while True` loops: DataProcessor/main.py:93 and 167-180, SensorsSim/sensor_simulator.py:97-108.
  - All logging.
  - The table service's connection and table-creation plumbing: azure_table_service/service.py:12-31.
  - Why: these are I/O. The model takes one pass, or one run, at a time. The simulator's publications are its result.
- **Parsers.** `strptime`, `strftime`, `fromisoformat`, `float`, `str` and UTF-8 decoding are parameters. Why: the model does not reimplement them. `PayloadDecodes` and the `...Accepted` lemmas require, through `Formats.RoundTrips`, that a rendered timestamp parses back, that a rendered number with two decimals parses back, and that rendered text has no comma; `Formats.TallyFormatsRoundTrip` shows parsers with these properties exist.
- **Clocks and randomness.** Clock readings (`datetime.now()`, `new Date()`) and `random.uniform` draws are parameters. Why: they are outside inputs.
- **MySQL.** Lookups are inputs and the cutting-date updates are results. Why: mysql_service is not part of this model. This also leaves out the reset-date fallback inside it, and `create_farm`, `create_field` and the new-sensor route (RESTApi/app/routers/farmsroutes.py:85-100, RESTApi/app/routers/fieldsroutes.py:108-130), which only pass data through to MySQL.
- **Store errors.**
  - `ResourceNotFoundError` returning `[]` (azure_table_service/service.py:66-68 and 107-109), and the re-raised store exceptions.
  - Why: the in-memory tables always exist and never fail.
- **Query details.**
  - Select projections are left out. Why: grouping reads only the projected attribute.
  - The model assumes `upsert_entity` works in its default merge mode.
- **Malformed keys.**
  - `strptime` raising on a RowKey that is not `%Y-%m-%d` or `%Y-%m-%d %H:%M:%S` (service.py:271, 314, 400-401, 496).
  - Why: dates stay as text and the date part is the text before the first space. The returned cutting date is that RowKey text, not a `datetime`.
- **Numbers.**
  - JSON forecast details that are not numbers are left out. Why: every property is a real; met.no instant details are numbers.
  - Floating-point rounding is left out. Why: numbers are exact reals.
- **JavaScript time.**
  - Time zones and daylight saving are left out: local time is taken as UTC. Why: `new Date` and `setHours` offsets depend on the browser.
  - The x-axis weekday labels (field-dashboard.component.ts:183-185, 265-267) are not built as lists. Only the weekday function the cutting marker uses is modelled.
- **Rendering and navigation.** Chart.js drawing, bootstrap modals, `window.location.reload`, `goBack`, navigation and `createFarm` on the home page. Why: they are rendering and navigation, not state the pages compute from.
- **Other files.** The auth module, the MySQL service and the front end's wiring are not part of this model.
- `SensorSimulator.Round2`: rounds halves upward on exact reals. Python's `round` works on binary floats and rounds ties to even. Only the 0.005 bound is stated.
- `DataProcessor.FetchWeatherForecast`: models one iteration of the outer `while True`. The outer `except` (DataProcessor/main.py:168-169) could only catch the MySQL fetch failing, which is an input here.
- `GddSpec.SensorGdd`: its own contract covers only the empty case. The value is specified by its definition over `SensorValues`, and its sign by `GddProperties.SensorGddNonNegative`.
- `DataProcessor.Advance`: its own contract is only the bound on writes. What a step writes is stated by `PassProperties.PassWritesSucceeding` and `PassProperties.StepCuttingDateIsStoredDay`.
