# DarkSky weather node server, modelled in Dafny

The repository is a node server for a home-automation hub. It reads the DarkSky weather
service and shows the current conditions and a daily forecast as hub "nodes". Each node has a
table of drivers. A driver has a name, a value and a unit-of-measure code (uom).

The repository holds two generations of the server:

- The first is `darksky.py` with `darksky_daily.py`.
  - The controller keeps the location, the API key and the unit system from the custom
    parameters.
  - It recodes the uoms of its driver table for that unit system.
  - It pushes the unit system to the seven forecast nodes `forecast_1` .. `forecast_7`.
- The second is `nodes/darksky.py` with `nodes/darksky_daily.py`.
  - Its parameters come from a parameter object: valid/changed dispatch, a cap of seven forecast
    days, and a ladder of early returns in the query.
  - `discover` keeps exactly `forecast_0` .. `forecast_{n-1}`.
  - Each forecast node reads one day of the answer and computes a reference
    evapotranspiration (ETo).
- Both use `write_profile.py`. It writes the hub's node-definition XML, takes the profile
  version from `server.json`, and lists the files of the profile archive.

Module layout:

| module | file | models |
|---|---|---|
| `Wrappers` | wrappers.dfy | `Option`, Python's exception kinds, and `Result`: an operation that may raise |
| `Text` | text.dfy | `str(int)`; `int(str)` and `float(str)`, which ignore surrounding whitespace and allow underscores between digits; `strip`, `lstrip`, `rstrip`, `str.split`, prefix, suffix and substring tests |
| `Json` | json.dfy | a decoded JSON answer; Python's `d[key]`, `v[i]` and `key in d` on it |
| `Hub` | hub.dfy | notices, and node addresses (`forecast_<day>` or a fixed name) |
| `Icons` | icons.dfy | `icon_2_int`, which is identical in all four node files |
| `Calendar` | calendar.dfy | `int(jdata['time'])` and the UTC weekday `%w` of `time.gmtime` |
| `Numeric` | numeric.dfy | Python's `round(x)` and `round(x, n)` (half to even), and `mm2inch` |
| `Drivers` | drivers.dfy | driver tables, and recoding uoms by driver name |
| `Readings` | readings.dfy | a run of `update_driver(id, <value from JSON>)` calls that stops at the first exception |
| `LegacyDaily` | legacy_daily.dfy | `darksky_daily.py`: the forecast node and `set_units` |
| `LegacyController` | legacy_controller.dfy | `darksky.py`: the controller |
| `ForecastNode` | forecast_node.dfy | `nodes/darksky_daily.py`: the forecast node |
| `DarkSky` | darksky.dfy | `nodes/darksky.py`: the controller |
| `Profile` | profile.dfy | `write_profile.py` |

Representation choices:

- An assignment to a Python field is a Dafny field of a class, changed by a method with a
  `modifies` clause.
- A method is specified by a function. The method's `ensures` ties the new state to that
  function of the old state, and lemmas state what the function means.
- An exception is a `PyError` value. A method returns what escapes it; a function returns a
  `Result`.
- The hub's calls become state:
  - `addNotice` appends to a notice sequence.
  - `addNode` puts a node under its address, replacing any node already there.
  - `delNode` removes the address.
  - `removeNoticesAll` empties the notices.
- The first controller's driver table depends on the hub library it imports.
  - With `polyinterface` the table is the declared list of driver records (`Table.Rows`).
  - With `pgc_interface` it is a dict keyed by driver id (`Table.Keyed`).
  - This is the only reading under which both `set_cloud_driver_units` and the `except` arm of
    `set_units` do something. `LegacyController.Controller.Valid` ties the `cloud` flag to the
    dict form.
- The weather answer, the contents of `server.json`, the directory walk, and the selected uom
  table (`uom.get_uom`) are parameters.
- The evapotranspiration library `et3` is a parameter record: `FtoC`, `mph2ms`,
  `evapotranspriation`, and the day of the year.

Behaviour of the code worth noting:

- The ETo display picks millimetres by the node's own `self.units`, which was stored by
  `set_driver_uom`, and not by the `units` argument. Any units string beginning with `m`
  also selects millimetres (`ForecastNode.EtoDisplayIgnoresArgument`).
- The precipitation chance is scaled by 100 but not rounded. Only humidity and cloud cover
  are rounded (`ForecastNode.DayReadings`).
- A missing field does not skip the whole day. The update stops at the first failing driver
  and is caught; the ETo part then runs and may raise on its own (`ForecastNode.UpdateRaises`).
- The nodes hold state: the forecast node keeps its units and drivers, and the controllers
  keep their nodes and parameters.

Where the code evidently misbehaves, `## Findings` pairs a member modelling the code as
written with the corrected behaviour that the rest of the model uses.

## Model

| member | source | states |
|---|---|---|
| Icons.IconToInt | nodes/darksky.py:102-114 | the k-th of the ten listed condition names maps to k; any other string maps to 0; the code is always in 0..9 |
| Icons.IconCodePreimage | nodes/darksky_daily.py:44-56 | code c > 0 comes from exactly the c-th listed name; code 0 comes from `clear-day` or an unlisted string |
| Hub.ForecastTextInjective | nodes/darksky.py:198 | distinct days give distinct `'forecast_' + str(day)` addresses |
| Text.NatToString | nodes/darksky.py:198 | `str(n)` of a natural number is a non-empty string of decimal digits, at least two long from 10 on |
| Text.ParseInt | nodes/darksky.py:195 | `int(s)` succeeds exactly when the text left after stripping surrounding whitespace is an optionally signed digit part (ASCII digits, single underscores allowed between them); otherwise ValueError |
| Text.DigitsOfNatToString | nodes/darksky.py:254 | the digits `str(n)` writes have the value n |
| Text.ParseIntToString | nodes/darksky.py:252-254 | `int(str(i)) == i` for every integer, so a day count stored as text reads back unchanged |
| Text.IntToStringInjective | nodes/darksky.py:198 | `str` is injective on integers |
| Text.Split | write_profile.py:130 | `s.split(sep)` always yields at least one part |
| Text.JoinSplit | write_profile.py:130 | joining the parts of `split` with the separator gives the original string back |
| Text.SplitJoin | write_profile.py:130 | splitting a join of separator-free parts gives exactly those parts |
| Text.SplitPartsFree | write_profile.py:130 | no part of a split contains the separator |
| Text.SplitFree | write_profile.py:130 | a string without the separator splits into itself alone |
| Text.SplitAround | write_profile.py:130 | splitting `x + sep + y` gives the parts of x followed by the parts of y |
| Text.DecimalOf | write_profile.py:136 | `float("%s.%s" % (a, b))` can succeed only when neither a nor b holds a point of its own |
| Text.DecimalWholePart | write_profile.py:136 | the whole part of `float("a.b")` is the value of the digits a |
| Text.ParseFloat | nodes/darksky_daily.py:104 | a text `float()` accepts has at most one decimal point |
| Text.ParseFloatOfNat | nodes/darksky_daily.py:104 | `float(str(n)) == n`, so a whole elevation such as the default `'0'` reads as its number |
| Text.ParseFloatDigits | nodes/darksky.py:175-187 | a non-empty digit string reads as the number its digits spell |
| Text.RepeatCount | nodes/darksky.py:181 | every character occurs n times as often in `s * n` as in s |
| Text.RepeatedPointRejected | nodes/darksky.py:181 | `float(s * n)` raises ValueError for a text with a decimal point repeated at least twice |
| Text.RepeatedDigitsRead | nodes/darksky.py:181 | `float(d * n)` of digits d reads as the repeated digits' value |
| Text.ParseIntPadded | nodes/darksky.py:195 | `int()` ignores whitespace before and after the number: `int(pre + t + post) == int(t)` for whitespace pre and post |
| Text.ParseIntGrouped | nodes/darksky.py:195 | an underscore between two digit parts does not change the value, which is the first part shifted past the digits of the second |
| Text.ParseIntPart | nodes/darksky.py:195 | a digit part alone reads as its value |
| Text.PartValueDigits | nodes/darksky.py:195 | the value of a digit part is the value of its digits once the underscores are dropped |
| Text.LStripSuffix | write_profile.py:168 | `lstrip()` keeps a suffix that does not start with whitespace, and only whitespace is dropped |
| Text.StripTrimmed | write_profile.py:168 | `strip()` never lengthens, and leaves neither end whitespace |
| Text.StripPadded | write_profile.py:168 | `strip()` removes exactly the whitespace around a text whose own ends are not whitespace |
| Text.StripKeeps | write_profile.py:168 | a text whose ends are not whitespace is kept by `strip()` |
| Text.DecimalDigits | write_profile.py:136 | for digit strings a and b, not both empty, `float("a.b")` is a plus b over ten to the number of b's digits |
| Text.ParseFloatPadded | nodes/darksky_daily.py:104 | `float()` ignores whitespace before and after the number |
| Text.ParseFloatExponent | nodes/darksky_daily.py:104 | digits with an exponent `e<k>` read as their value scaled by ten to the k |
| Json.Float | nodes/darksky.py:175-187 | `float(v)` gives a JSON number itself and a string as `float()` reads it; an unreadable string raises ValueError and any other value TypeError |
| Calendar.Truncate | nodes/darksky_daily.py:62 | `int(x)` of a float truncates toward zero in both signs |
| Calendar.Weekday | nodes/darksky_daily.py:63 | `%w` of `time.gmtime(epoch)` is in 0..6 |
| Calendar.WeekdayAtEpoch | darksky_daily.py:72-73 | the epoch, 1970-01-01, is a Thursday (4, with 0 = Sunday) |
| Calendar.WeekdaySameDay | nodes/darksky_daily.py:63 | every second of a UTC day has that day's weekday |
| Calendar.WeekdayNextDay | nodes/darksky_daily.py:63 | a day later the weekday is the next one, modulo 7 |
| Calendar.DayOfWeek | nodes/darksky_daily.py:62-63 | the weekday of the record's `time` in 0..6, raising exactly when reading or converting `time` raises |
| Calendar.DayOfWeekOfNumber | darksky_daily.py:72-73 | a numeric `time` x gives the weekday of `int(x)` |
| Numeric.RoundToInt | nodes/darksky_daily.py:66 | `round(y, 0)` is within one half of y, and an exact tie goes to the even integer |
| Numeric.MmToInch | nodes/darksky_daily.py:58-59 | `mm2inch(mm) * 25.4 == mm` |
| Numeric.RoundPlacesNearest | nodes/darksky_daily.py:105-108 | `round(y, 2)` and `round(y, 3)` have 2 and 3 decimals, lie within half a unit in the last place, and break ties to even |
| Drivers.RecodeRowsSpec | darksky.py:270-282 | recoding a driver list keeps its length, order, ids and values; a named driver takes the code of its name and any other driver is unchanged |
| Drivers.RecodeEntriesSpec | darksky.py:235-247 | recoding a driver dict keeps its keys and values; a named driver takes the code of its name and any other entry is unchanged |
| Drivers.RecodeIdempotent | darksky.py:268-300 | recoding twice with the same codes equals recoding once |
| Drivers.RecodeList | darksky.py:271-282 | the in-place loop over the driver list leaves exactly the recoded list |
| Drivers.RecodeDict | darksky.py:236-247 | the loop over the driver dict leaves exactly the recoded dict |
| Drivers.ToKeyedKeys | darksky.py:326-343 | the dict form of a driver list has exactly the list's driver ids as keys |
| Drivers.ToKeyedEntries | darksky.py:326-343 | when the ids of a driver list are distinct, the dict form holds each driver's value and uom under its id |
| Drivers.SetValue | nodes/darksky_daily.py:106 | `update_driver(id, v)` sets the value of the drivers with that id and changes nothing else: ids, uoms and length stay |
| Readings.Apply | nodes/darksky_daily.py:65-87 | the run of updates keeps the table's length, and its count of completed updates never exceeds the number of readings |
| Readings.ApplyCompletes | nodes/darksky.py:172-187 | the run completes exactly when every reading can be taken from the record |
| Readings.ApplyKeeps | nodes/darksky_daily.py:65-87 | ids and uoms never change, and a driver none of the readings names keeps its row |
| Readings.ApplySets | nodes/darksky_daily.py:65-87 | after a complete run, the driver a reading names holds that reading's value |
| Readings.ApplyStopsAtFirst | nodes/darksky_daily.py:65-87 | when the first reading raises, no driver changes |
| Readings.ApplyStopsAt | nodes/darksky.py:172-187 | a run whose first raising reading is the k-th counts k updates and leaves the drivers as the first k readings set them |
| Readings.RepeatedOnNumber | nodes/darksky.py:181 | for a JSON number, `float(x * 100)` agrees with `float(x) * 100` |
| Readings.RepeatedPointRaises | nodes/darksky.py:181 | for a string holding a point, `float(x * 100)` raises ValueError |
| Readings.RepeatedDigitsValue | nodes/darksky.py:181 | for a string of digits, `float(x * 100)` is the value of the hundred-fold repeated digits |
| Readings.RepeatedOther | nodes/darksky.py:181 | `null`, a list or a dict cannot be multiplied and converted, so the reading raises |
| LegacyDaily.InitialTable | darksky_daily.py:19-29 | a new forecast node holds its nine declared drivers: as that list, or as a dict in which each driver's id holds its value and uom and no other key occurs |
| LegacyDaily.DailyNode.constructor | darksky_daily.py:17-29 | the node's address and its initial table |
| LegacyDaily.DailyNode.SetUnits | darksky_daily.py:31-55 | the loop leaves exactly the recoded table; a dict table takes the `except` arm, since the list arm raises on its first key before changing anything |
| LegacyDaily.SetUnitsUs | darksky_daily.py:34-38 | `set_units('us')` on the declared drivers gives BARPRES 117, GV1 and GV2 17, GV19 25, and leaves the rest |
| LegacyDaily.SetUnitsSi | darksky_daily.py:39-43 | `set_units('si')` on the declared drivers gives BARPRES 118, GV1 and GV2 4, GV19 25, and leaves the rest |
| LegacyDaily.SetUnitsUnknown | darksky_daily.py:33-55 | a units string other than `'us'` and `'si'` leaves the table unchanged |
| LegacyDaily.SetUnitsKeeps | darksky_daily.py:19-43 | length, order, ids and values are kept; GV18, CLIHUM, GV13, GV14, GV16 and every other unnamed driver keep their uom |
| LegacyDaily.SetUnitsIdempotent | darksky_daily.py:31-55 | `set_units(u)` twice equals `set_units(u)` once |
| LegacyController.FanOutStop | darksky.py:283-285 | the first of `forecast_day` .. `forecast_7` that is missing, or 8 when none is |
| LegacyController.FanOutStopAt | darksky.py:301-303 | any index before which every forecast node exists and at which one is missing is the fan-out stop |
| LegacyController.FanOutError | darksky.py:283-285 | the fan-out raises KeyError exactly when one of `forecast_1` .. `forecast_7` is missing |
| LegacyController.FanOutAllPresent | darksky.py:301-303 | with all seven nodes present, each gets `set_units` of the pushed units, and every other node is unchanged |
| LegacyController.ProfileCallAsWrittenRaises | darksky.py:307 | the call as written, with the forecast node's drivers as a third argument, raises TypeError |
| LegacyController.ProfileCallBinds | darksky.py:307 | the call with the controller's drivers alone binds to them |
| LegacyController.MissingNotices | darksky.py:66-71 | one notice per empty setting and no other: none exactly when location and API key are both set; an empty location notices first, an empty key notices last |
| LegacyController.Renewed | darksky.py:62-71 | after the notice check, `configured` holds iff location and key are non-empty, iff there are no notices; nothing else changes |
| LegacyController.TakeCustom | darksky.py:44-55 | location, key and units take the custom parameter where present; nothing else changes |
| LegacyController.Remembered | darksky.py:61-71 | `myConfig` becomes the parameters; on a change the notices are renewed, otherwise `configured` and the notices stay |
| LegacyController.ProcessedSettings | darksky.py:39-71 | a changed config updates only present fields; on a completed change `configured` holds iff location and key are set; an unchanged one leaves `configured` and the notices; a failed units push leaves `myConfig` |
| LegacyController.CheckedSettings | darksky.py:200-226 | fields from present parameters, units `'us'` when absent, the saved custom parameters updated, and `configured` false iff the location or the key is empty |
| LegacyController.QueryPlan | darksky.py:115-127 | no request while unconfigured; otherwise the request names key, location and units, and days 1..7 of the answer go to `forecast_1` .. `forecast_7` |
| LegacyController.QueryPlanDays | darksky.py:177-179 | the loop reads `data[1]` .. `data[7]`, never today's `data[0]`, and no two days go to the same address |
| LegacyController.UnitsApplied | darksky.py:268-308 | the table is recoded for the units; the nodes get the pushed units; a profile is requested only for a list table whose fan-out did not raise |
| LegacyController.NewForecastTables | darksky.py:76-84 | `start` creates exactly the nodes `forecast_1` .. `forecast_7` |
| LegacyController.StartedDrivers | darksky.py:73-86 | after `start`, every new node holds its initial table with the pushed units, other nodes are unchanged, and a list table is recoded and profiled |
| LegacyController.Controller.constructor | darksky.py:25-36 | empty location and key, units `'us'`, not configured, empty `myConfig`, the declared drivers as a list or a dict by host library, no nodes |
| LegacyController.Controller.FanOut | darksky.py:283-285 | the loop over `forecast_1` .. `forecast_7` leaves the nodes as the fan-out specifies and returns its KeyError |
| LegacyController.Controller.SetDriverUnits | darksky.py:268-308 | the list path: drivers, nodes and profile requests end as `UnitsApplied` says |
| LegacyController.Controller.WriteProfile | darksky.py:305-308 | a profile request with the controller's driver list is recorded and nothing else changes |
| LegacyController.Controller.SetCloudDriverUnits | darksky.py:233-266 | the dict path: drivers and nodes end as `UnitsApplied` says, with no profile request |
| LegacyController.Controller.ApplyUnits | darksky.py:228-231 | the host library decides the path; the result is `UnitsApplied` either way |
| LegacyController.Controller.ProcessConfig | darksky.py:39-71 | no `customParams`, or ones equal to `myConfig`, change nothing; otherwise settings end as `ProcessedSettings`, and a change of units recodes |
| LegacyController.Controller.ProcessNewConfig | darksky.py:42-71 | a new config ends as `ProcessedSettings`; drivers are recoded exactly when the units changed |
| LegacyController.Controller.ApplyUnitsIf | darksky.py:52-59 | the units push runs only when the units changed |
| LegacyController.Controller.TakeConfig | darksky.py:43-55 | the fields take the present parameters, and it reports whether anything and whether the units changed |
| LegacyController.Controller.RememberConfig | darksky.py:61-71 | once reached, `myConfig` and the notices are as `Remembered` says; not reached, nothing changes |
| LegacyController.Controller.CheckParams | darksky.py:200-231 | settings end as `CheckedSettings`, then the units are applied |
| LegacyController.Controller.TakeParams | darksky.py:202-216 | settings take the parameters, with units defaulting to `'us'`, and are saved back |
| LegacyController.Controller.RenewNotices | darksky.py:220-226 | the notices and `configured` are renewed, and nothing else changes |
| LegacyController.Controller.AddForecastNodes | darksky.py:76-84 | seven fresh nodes `forecast_1` .. `forecast_7` are added, and every other node is kept |
| LegacyController.Controller.Start | darksky.py:73-90 | nodes added, parameters checked, units applied, then the query planned from the resulting settings |
| ForecastNode.DayReadingsDrivers | nodes/darksky_daily.py:65-85 | the try block updates 17 distinct drivers, never GV20; GV19 gets the weekday and GV7 the precipitation accumulation |
| ForecastNode.DayStepShown | nodes/darksky_daily.py:65-85 | on a complete record, each driver of the try block shows its reading's value |
| ForecastNode.AfterDayReadings | nodes/darksky_daily.py:89-108 | after the try block only GV20 can change |
| ForecastNode.FloatField | nodes/darksky_daily.py:92-95 | `float(jdata[key])`: a missing key raises KeyError (TypeError when the record is no dict); a number is itself; a string is read as `float()` reads it, else ValueError; any other value raises TypeError |
| ForecastNode.FloatParam | nodes/darksky_daily.py:104 | `float(param)` succeeds exactly when `float()` reads the text, and gives that value; otherwise ValueError |
| ForecastNode.YearDay | nodes/darksky_daily.py:96 | the day of the year is taken from a numeric `time` |
| ForecastNode.EtArguments | nodes/darksky_daily.py:92-104 | the ETo inputs exist exactly when the four readings, the day of the year, the elevation and the plant type can all be read |
| ForecastNode.EtConversion | nodes/darksky_daily.py:98-102 | temperatures go through `FtoC` and the wind through `mph2ms` exactly when the units argument is not `'si'`; the humidity bounds equal the humidity |
| ForecastNode.MetricDisplayIff | nodes/darksky_daily.py:105 | the metric display is chosen iff the node's units are `'si'` or begin with `m` |
| ForecastNode.UpdateRaises | nodes/darksky_daily.py:61-108 | `update_forecast` completes iff the weekday, the ETo inputs and the node's units exist; a bad `time` raises before any driver changes |
| ForecastNode.WeekdayShown | nodes/darksky_daily.py:62-74 | on a complete record GV19 shows the UTC `%w` weekday, in 0..6 |
| ForecastNode.PrecipitationShown | nodes/darksky_daily.py:79-82 | on a complete record GV7 is the `precipAccumulation` when present and 0 otherwise |
| ForecastNode.EtoDisplay | nodes/darksky_daily.py:104-108 | after a completed update GV20 is ETo in mm to 2 places under a metric display, else in inches to 3 places |
| ForecastNode.EtoDisplayIgnoresArgument | nodes/darksky_daily.py:98-108 | a node set to `'us'` shows inches even when the call passes `'si'`: the display follows `self.units`, not the argument |
| ForecastNode.DailyNode.constructor | nodes/darksky_daily.py:17-38 | a new node holds the declared forecast drivers and no units yet |
| ForecastNode.DailyNode.SetDriverUom | nodes/darksky_daily.py:40-42 | stores the units and the selected uom table; the drivers stay |
| ForecastNode.DailyNode.UpdateForecast | nodes/darksky_daily.py:61-108 | the node's drivers and the escaping exception are exactly what `UpdatedForecast` gives for the old drivers |
| DarkSky.ProcessConfigDispatch | nodes/darksky.py:73-86 | unchanged: no change and no discovery; changed and invalid: `configured` kept, notices re-sent; changed and valid: configured, notices cleared, discovery iff the day count is set |
| DarkSky.DayCap | nodes/darksky.py:252-254 | corrected cap: succeeds exactly when `int()` reads the day count, else ValueError with nothing changed |
| DarkSky.DayCapBounds | nodes/darksky.py:252-254 | corrected cap: more than seven days stores seven and adds the `forecast` notice; up to seven changes nothing |
| DarkSky.DayCapAsWritten | nodes/darksky.py:252-254 | as written: when nothing escapes, nothing changed |
| DarkSky.DayCapAsWrittenRaises | nodes/darksky.py:253 | as written, more than seven days raises NameError and the count stays uncapped |
| DarkSky.CheckedConfig | nodes/darksky.py:246-259 | all parameters set: configured, then capped; otherwise the values are taken and the missing-parameter notices replace the old ones |
| DarkSky.DaysBefore | nodes/darksky.py:224 | the addresses `forecast_0` .. `forecast_{n-1}` |
| DarkSky.DiscoveredStates | nodes/darksky.py:211-233 | after `discover`: exactly the first n days plus the kept old nodes; each new day a fresh node told the units |
| DarkSky.DiscoverExact | nodes/darksky.py:216-229 | with n at most 7, the forecast addresses are exactly `forecast_0` .. `forecast_{n-1}` and the other nodes are kept |
| DarkSky.Pruned | nodes/darksky.py:216-222 | deletion keeps exactly the nodes outside `forecast_n` .. `forecast_6`, unchanged |
| DarkSky.Blanked | nodes/darksky.py:224-231 | adding gives the old addresses plus the first n days, each new one a blank forecast node |
| DarkSky.DiscoverTells | nodes/darksky.py:211-233 | deleting, adding, then telling the units gives `DiscoveredStates` |
| DarkSky.FirstMissing | nodes/darksky.py:264-266 | the first day below n without a node, or n |
| DarkSky.FirstMissingAt | nodes/darksky.py:264-266 | any day before which all nodes exist and at which one is missing is `FirstMissing` |
| DarkSky.UnitsStep | nodes/darksky.py:266 | telling one more day updates exactly that node's units and uom table |
| DarkSky.UnitsToldAll | nodes/darksky.py:261-266 | with all n nodes present, each is told the units and nothing raises |
| DarkSky.UnitsToldStops | nodes/darksky.py:261-266 | at the first missing node the loop raises KeyError, after telling exactly the days before it |
| DarkSky.RungOf | nodes/darksky.py:143-170 | the query reads current conditions iff configured and the answer is a dict with `currently` and without `error`; a service error iff the answer is a dict with `error` |
| DarkSky.ErrorNotices | nodes/darksky.py:158-161 | a service error with a string message adds exactly the one notice keyed `error`; any other outcome adds none |
| DarkSky.QueryTable | nodes/darksky.py:172-187 | without current conditions the controller's drivers do not change |
| DarkSky.DailyRecord | nodes/darksky.py:201 | the day's record is `jdata['daily']['data'][day]` with `jdata['latitude']`, exactly when both can be read |
| DarkSky.ForecastsBefore | nodes/darksky.py:197-203 | the corrected loop keeps every address and every node's units and uom table |
| DarkSky.ForecastPassDay | nodes/darksky.py:197-203 | each day below the count whose record can be read gets `update_forecast` of its record, and nodes of later days are untouched |
| DarkSky.ForecastStep | nodes/darksky.py:197-203 | one more iteration is one more `DayStep` |
| DarkSky.ForecastsFrom0 | nodes/darksky.py:197 | a count of zero or less updates nothing |
| DarkSky.DayStep | nodes/darksky.py:198-203 | one iteration changes at most the drivers of that day's node |
| DarkSky.QueryNodes | nodes/darksky.py:137-205 | without current conditions no forecast node changes |
| DarkSky.ForecastLoopAsWrittenAborts | nodes/darksky.py:197-205 | as written, the first day raises TypeError out of the loop and no forecast node is updated |
| DarkSky.DayHandledAsMeant | nodes/darksky.py:201-203 | with the `force` argument the call binds, and with `str(day)` the handler's message is built |
| DarkSky.Controller.constructor | nodes/darksky.py:25-31 | not configured, no parameter values (so every `get` gives its default), no notices, the declared drivers, no nodes and no uom table |
| DarkSky.Controller.CheckParams | nodes/darksky.py:246-259 | the configuration and the escaping exception are exactly `CheckedConfig` of the old configuration |
| DarkSky.Controller.SetDriverUom | nodes/darksky.py:261-266 | stores the uom table of the units and tells the first day-count nodes, stopping with KeyError at a missing one |
| DarkSky.Controller.TellNodes | nodes/darksky.py:264-266 | the loop tells every node before the first missing day and reports KeyError iff one is missing |
| DarkSky.Controller.TellNode | nodes/darksky.py:266 | exactly the addressed node takes the units and uom table |
| DarkSky.Controller.Discover | nodes/darksky.py:211-233 | a day count `int()` cannot read raises ValueError and changes nothing; otherwise the nodes end as `DiscoveredStates`, the nodes of days 0..n-1 are fresh and every other kept node is the same object |
| DarkSky.Controller.Rebuild | nodes/darksky.py:216-233 | deletion, addition and the units push leave exactly `DiscoveredStates` |
| DarkSky.Controller.Start | nodes/darksky.py:88-96 | `check_params`, then `discover`, then the first query; each exception stops it there with the state reached |
| DarkSky.Controller.Boot | nodes/darksky.py:92-96 | `discover` then `query_conditions`, stopping at a ValueError from `discover` |
| DarkSky.Controller.ProcessConfig | nodes/darksky.py:73-86 | the configuration ends as `ConfigProcessed`; the nodes change only when discovery runs, and then as `DiscoveredStates` |
| DarkSky.Controller.QueryConditions | nodes/darksky.py:137-205 | notices, drivers and forecast nodes end as the early-return ladder says: only a dict with `currently` changes drivers, and only a service error adds a notice |
| DarkSky.Controller.UpdateConditions | nodes/darksky.py:172-203 | the current readings update the drivers; the forecasts run only when every reading succeeded |
| DarkSky.Controller.ReadCurrent | nodes/darksky.py:172-187 | the drivers take the current readings until the first that raises, and it reports whether all succeeded; `cloudCover` is multiplied by 100 before `float()` converts it |
| DarkSky.Controller.Forecasts | nodes/darksky.py:195-203 | the forecast loop runs over `int(Forecast Days)` days with the node parameters |
| DarkSky.Controller.ForecastLoop | nodes/darksky.py:197-203 | the loop over days 0 .. n-1 leaves exactly `ForecastsBefore` |
| DarkSky.Controller.ForecastDay | nodes/darksky.py:198-203 | one day changes only that day's node, as `DayStep` says |
| DarkSky.Controller.DeleteForecasts | nodes/darksky.py:216-222 | the nodes are exactly the pruned ones, as the same objects |
| DarkSky.Controller.AddForecasts | nodes/darksky.py:224-231 | the first n days become fresh blank nodes, and other nodes are kept as the same objects |
| DarkSky.WithForecasts | nodes/darksky.py:224-231 | the loop adds a fresh blank node per day below n and keeps every other entry |
| DarkSky.BlankedNodes | nodes/darksky.py:224-231 | a map holding blank nodes on the first n days and the old nodes elsewhere has the states `Blanked` gives |
| DarkSky.AddForecast | nodes/darksky.py:228-229 | `addNode` puts one fresh blank node at the address and changes no other entry |
| Profile.FirstUnknownUom | write_profile.py:69-70 | the index of the first driver whose uom has no editor, or the list's length |
| Profile.StatusLines | write_profile.py:69-70 | one `<st id=.. editor=..>` line per driver, in order, with the editor of its uom |
| Profile.NodeDefText | write_profile.py:63-81 | the nodedef text exists exactly when every driver's uom has an editor, else KeyError |
| Profile.DocumentText | write_profile.py:63-81 | the written text exists exactly when every driver's uom has an editor, else KeyError |
| Profile.NodeDefLines | write_profile.py:63-81 | the nodedef's lines are the fixed head, one status line per driver, and the fixed foot |
| Profile.NodeDefLayout | write_profile.py:64-81 | framed by `<nodeDefs>` and `</nodeDefs>`; the status lines sit between `<sts>` and `</sts>`; DISCOVER, REMOVE_NOTICES_ALL and UPDATE_PROFILE are listed |
| Profile.UomEditorsSingleLine | write_profile.py:18-41 | no editor name of the uom table contains a line break |
| Profile.TextFile.Write | write_profile.py:64 | `write(s)` appends s to the file's text |
| Profile.WriteLines | write_profile.py:64-81 | writing the lines in turn appends each line with its line break |
| Profile.WriteNodeDef | write_profile.py:63-83 | writes the whole nodedef, or raises KeyError after writing the lines before the first unknown uom |
| Profile.WriteDocument | write_profile.py:63-81 | writes head, status lines and foot, or raises KeyError after writing the lines before the first unknown uom |
| Profile.WriteStatusLines | write_profile.py:69-70 | the driver loop writes the status lines up to the first unknown uom, where it stops |
| Profile.SplitVersion | write_profile.py:130-140 | corrected split; the only exception it raises is ValueError |
| Profile.MinorVersion | write_profile.py:137-140 | corrected minor version; the only exception it raises is ValueError |
| Profile.SplitVersionAsWritten | write_profile.py:130-140 | as written, a one-part version raises TypeError |
| Profile.SplitVersionAsWrittenDiffers | write_profile.py:133-140 | the code as written differs from the corrected split exactly on one-part versions and on readable two-part versions |
| Profile.OnePartVersion | write_profile.py:133-134 | `"5"` raises TypeError as written; corrected, it gives major 5 and minor 0 |
| Profile.TwoPartVersion | write_profile.py:137-140 | `"1.2"` raises IndexError as written; corrected, it gives major 1.2 and minor 0 |
| Profile.ThreePartVersion | write_profile.py:130-138 | `x.y.z` gives major `float("x.y")`, whose whole part is x, and minor the integer z |
| Profile.SplitVersionThree | write_profile.py:135-138 | three readable parts a, b, c give major `a.b` and minor `int(c)` |
| Profile.FourPartVersion | write_profile.py:135-140 | four or more separator-free parts give major `p0.p1` and minor `p2.p3`, or ValueError |
| Profile.SplitVersionFour | write_profile.py:139-140 | four or more parts give major `sv[0].sv[1]` and minor `sv[2].sv[3]`, or ValueError |
| Profile.VersionEntry | write_profile.py:124-128 | a dict without `credits` yields the default `'0.0.0.0'`; the KeyError of a missing key is always caught |
| Profile.VersionEntryShapes | write_profile.py:124-128 | `credits[0]['version']` is the entry when present; a dict `credits` or a first credit without `version` gives the default; an empty list or string raises IndexError; a value that cannot be indexed so raises TypeError |
| Profile.GetServerData | write_profile.py:113-144 | no readable file gives None (`False`); an error reading the version entry, or the ValueError of its split, escapes; a string version that splits gives the server data plus `version`, and `version_major` and `version_minor` holding the two numbers of the split, all other keys kept; a version that is no string raises AttributeError |
| Profile.DefaultServerVersion | write_profile.py:124-143 | without `credits` the version is `'0.0.0.0'` and both parts are 0.0 |
| Profile.DefaultVersionSplit | write_profile.py:128-140 | `'0.0.0.0'` splits into 0.0 and 0.0 |
| Profile.ArcName | write_profile.py:106 | the archive name is the tail of the absolute name that follows the source prefix and one separator, or empty |
| Profile.ArcNameUnderSource | write_profile.py:105-106 | a file at `abs_src/rel` is archived as `rel` |
| Profile.StepEntriesComplete | write_profile.py:103-109 | every listed file that passes the filter is archived |
| Profile.StepEntriesSound | write_profile.py:103-109 | every archived entry comes from a listed file that passes the filter |
| Profile.ZipPlanComplete | write_profile.py:99-109 | every file of the walk that passes the filter is archived |
| Profile.ZipPlanSound | write_profile.py:99-109 | every entry comes from a file of the walk that passes the filter |
| Profile.HiddenStepEmpty | write_profile.py:102 | a directory whose path contains `/.` contributes nothing |
| Profile.ZipEntries | write_profile.py:96-110 | the nested loops over the walk produce exactly the planned entries, in order |
| Profile.StepFiles | write_profile.py:103-109 | the loop over one directory's files produces exactly that directory's entries |
| Profile.ProfileVersion | write_profile.py:86-87 | `sd['profile_version']` is written when it is a string; a missing key raises KeyError, any other value TypeError |
| Profile.WriteProfile | write_profile.py:49-93 | without server data it returns False and writes nothing; otherwise the nodedef, version file and archive end as `Written` says |
| Profile.WriteFiles | write_profile.py:55-93 | nodedef, then `version.txt` (opened, so emptied, before the version is read), then the archive, each stopping at its exception |
| Text.RStripPrefix | write_profile.py:168 | `rstrip()` gives a prefix that does not end in whitespace, and only whitespace follows it |
| Profile.ReadLine | write_profile.py:167 | `readline()` gives the text up to and including the first line break, or all of it when there is none |
| Profile.ShouldRegenerate | write_profile.py:161-179 | with server data, the profile is regenerated iff `profile_version` differs from the stripped first line of the version file, or, when the file cannot be read, is not null; a missing key raises |
| Profile.UnreadNullVersion | write_profile.py:161-175 | no readable version file and a null `profile_version`: `None == None`, so no regeneration |
| Profile.WrittenVersionIsCurrent | write_profile.py:86-87 | a version file holding exactly what `write_profile` wrote does not trigger regeneration |
| Profile.ReadStripLine | write_profile.py:166-168 | a stripped line followed by a line break and more text reads back as the line |
| Profile.ReadLineAt | write_profile.py:167 | `readline()` stops at the first line break |

## Left out

- The network request and JSON decoding (`get_weather_data`, `requests.get`). The decoded
  answer is a parameter, and a failed request is `null`.
- Reading `server.json`, creating `profile/nodedef`, opening files, walking directories and
  writing the zip archive. The file contents and the walk are parameters; the text written is
  a `TextFile`.
- The host runtime: `setDriver`, `reportDrivers`, `installprofile`, logging,
  `set_logging_level`, `poly.onConfig`. `update_driver` is a change of the driver's value.
  Its `force` flag and the `prec=` rounding are not modelled.
  The hub calls are modelled only as the notice and node state described above.
- `query`, `delete`, `stop`, `update_profile`, `remove_notices_all`, `shortPoll` and the
  command table: they only log or forward to the host.
- The first controller's `discover`: it only logs.
- The first controller's current-condition `setDriver` calls and the network call in
  `query_conditions`. Only the request it would send, the configured guard and the day range
  are modelled (`LegacyController.QueryPlan`).
- The first node's `update_forecast` beyond its weekday. Its `setDriver` calls and its ETo
  call, whose `datetime.fromtimestamp` is called on the module, are not modelled.
- `node_funcs.py`, the parameter object behind `update_from_polyglot`, `get_from_polyglot`,
  `send_notices` and `isSet`, is not part of this model. Its answers are the `DarkSky.Polled`
  input, and an unchanged poll is taken to leave the values as they were.
- `nodes/uom.py` is not part of this model: the uom table `get_uom(units)` selects is a
  function parameter.
- The `et3` library (`FtoC`, `mph2ms`, `evapotranspriation`), the local time zone behind
  `datetime.fromtimestamp`, and the day of the year. They are the `ForecastNode.Numerics`
  parameter.
- Floating point: driver values and percentages are exact reals, with no representation
  error, `inf` or `nan`.
- Text.ParseInt: digits are the ASCII digits only; the other Unicode decimal digits that
  Python's `int()` also reads are not modelled.
- Text.ParseFloat: reads decimal text with an optional sign, point, exponent and underscores
  between digits, but not `inf`, `infinity` and `nan`, nor non-ASCII digits; floating point is
  not modelled (see above).
- JSON booleans: the `Json` value has no `true` or `false`. The weather answer and
  `server.json` fields the code reads are numbers, strings, lists, dicts or `null`.
- `Hub.Address` keeps a day address `Forecast(d)` apart from a fixed name `Named(s)`. The hub
  text of `Named("forecast_1")` equals that of `Forecast(1)`, but no fixed name the code uses
  begins with `forecast_`, so the two never meet.
- A value the source passes on unconverted (`jdata['pressure']` and the like) is modelled only
  as a JSON number; any other decoded value counts as an update that raises.
- Numeric.RoundPlacesNearest: states the rounding only for the two and three places the
  source uses, not for every n.
- DarkSky.QueryTable: states only that the drivers stay without current conditions. The
  method `DarkSky.Controller.ReadCurrent` states what the readings do.
- DarkSky.QueryNodes: states only that the nodes stay without current conditions; the per-day
  effect is stated by `DarkSky.ForecastPassDay`.
- DarkSky.ForecastsBefore: its own contract states only what is kept; the per-day effect is
  stated by `DarkSky.ForecastPassDay`.
- Profile.SplitVersion: its own contract states only the kind of its exception; the values
  are stated per version shape by the lemmas beside it.
- `Drivers` are shared between instances in the source: `drivers` is a class attribute of
  each node class. The model gives each node its own table.
- Threads, and the host calling `process_config` concurrently with `start`, are not modelled.
- The undefined `LOGGER` in `write_profile.py`'s `makedirs` handler is not modelled, since
  creating the directory is left out.

## Findings

| source | as written | input that shows it | evidently intended | confidence | as-written member | corrected member |
|---|---|---|---|---|---|---|
| darksky.py:307 | `write_profile.write_profile(LOGGER, self.drivers, self.nodes['forecast_1'].drivers)` passes three arguments to the two-parameter `write_profile(logger, drivers)`, so every units change on the list path raises TypeError before the profile is written | any `set_driver_units` call that reaches line 307 | write the profile from the controller's drivers | not executed | LegacyController.ProfileCallAsWrittenRaises | LegacyController.ProfileCallBinds |
| nodes/darksky.py:252-254 | an over-long day count calls the bare name `addNotice`, which the module does not define, so it raises NameError and the count is never capped | `Forecast Days` = `'9'` with all required parameters set | add the notice through the controller and store 7 | not executed | DarkSky.DayCapAsWrittenRaises | DarkSky.DayCapBounds |
| nodes/darksky.py:200-203 | `update_forecast` is called with five arguments but takes six (`force` is missing), so every day raises TypeError; the handler's `'...' + day` adds a string and an int and raises TypeError out of the loop | any query with current conditions and a day count of 1 or more | update each day's node, and log a failed day and go on | not executed | DarkSky.ForecastLoopAsWrittenAborts | DarkSky.ForecastPassDay |
| write_profile.py:133-134 | `v1 = int(v1[0])` indexes the integer `v1`, so a one-part version raises TypeError | version `'5'` | `int(sv[0])` | not executed | Profile.OnePartVersion | Profile.SplitVersion |
| write_profile.py:137-140 | a two-part version falls through to the four-part branch and reads `sv[2]`, so it raises IndexError | version `'1.2'` | a minor version of 0 for two parts | not executed | Profile.TwoPartVersion | Profile.SplitVersion |
