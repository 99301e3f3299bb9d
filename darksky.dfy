/**
 * The newer controller (`nodes/darksky.py`): its parameters with their defaults, the
 * valid/changed dispatch of `process_config`, `check_params` with its cap on the forecast
 * days, the forecast-node addresses `discover` keeps, the units `set_driver_uom` forwards,
 * and the early returns of `query_conditions` before and around its driver updates.
 */
module DarkSky {
  import opened Wrappers
  import opened Text
  import opened Json
  import opened Drivers
  import opened Readings
  import opened Hub
  import opened ForecastNode

  const ApiKeyName := "APIKey"
  const LocationName := "Location"
  const UnitsName := "Units"
  const DaysName := "Forecast Days"
  const ElevationName := "Elevation"
  const PlantName := "Plant Type"

  /** The declared parameters and their defaults (nodes/darksky.py:32-68). */
  const Defaults: map<string, string> := map[
    ApiKeyName := "set me", LocationName := "", UnitsName := Imperial, DaysName := "0",
    ElevationName := "0", PlantName := "0.23"]

  /** `self.params.get(name)` for a declared parameter: its value, or else its default. */
  function Param(values: map<string, string>, name: string): (v: string)
    requires name in Defaults
    ensures name in values ==> v == values[name]
    ensures name !in values ==> v == Defaults[name]
  {
    if name in values then values[name] else Defaults[name]
  }

  /** The controller's declared drivers (nodes/darksky.py:302-319). */
  const ControllerDrivers: seq<Driver> := [
    Driver("ST", 1.0, 2), Driver("CLITEMP", 0.0, 4), Driver("GV0", 0.0, 4),
    Driver("CLIHUM", 0.0, 22), Driver("DEWPT", 0.0, 4), Driver("BARPRES", 0.0, 117),
    Driver("GV4", 0.0, 49), Driver("WINDDIR", 0.0, 76), Driver("GV5", 0.0, 49),
    Driver("GV13", 0.0, 25), Driver("GV14", 0.0, 22), Driver("DISTANC", 0.0, 116),
    Driver("GV18", 0.0, 22), Driver("RAINRT", 0.0, 24), Driver("UV", 0.0, 71),
    Driver("GV10", 0.0, 56)
  ]

  /**
   * What `self.params` reports and holds after `update_from_polyglot(config)` or
   * `get_from_polyglot(self)`: whether every required parameter is set, whether anything
   * changed, the values, whether `isSet('Forecast Days')`, and the notices `send_notices`
   * would add. `node_funcs.py` is not part of this model, so these are inputs.
   */
  datatype Polled = Polled(valid: bool, changed: bool, values: map<string, string>, daysSet: bool,
                           missing: seq<Notice>)

  /** The configuration the controller keeps: `configured`, the parameter values, the notices. */
  datatype Config = Config(configured: bool, values: map<string, string>, notices: seq<Notice>)

  /**
   * `process_config` (nodes/darksky.py:73-86) without the `discover` it may call. A change
   * takes over the values (an unchanged poll is assumed to leave them as they are) and clears
   * the notices; an invalid change re-sends the notices, a valid one sets `configured`.
   */
  function ConfigProcessed(c: Config, p: Polled): Config
  {
    if !p.changed then c
    else if !p.valid then c.(values := p.values, notices := p.missing)
    else c.(values := p.values, notices := [], configured := true)
  }

  /** `process_config` calls `discover` on a valid change with the forecast days set. */
  predicate DiscoverRuns(p: Polled)
  {
    p.changed && p.valid && p.daysSet
  }

  /**
   * Unchanged: no state change and no discovery. Changed and invalid: `configured` is kept and
   * the notices are the missing-parameter ones. Changed and valid: configured, no notices, and
   * discovery exactly when the forecast days are set.
   */
  lemma ProcessConfigDispatch(c: Config, p: Polled)
    ensures !p.changed ==> ConfigProcessed(c, p) == c && !DiscoverRuns(p)
    ensures p.changed && !p.valid ==>
      && ConfigProcessed(c, p).configured == c.configured
      && ConfigProcessed(c, p).notices == p.missing && !DiscoverRuns(p)
    ensures p.changed && p.valid ==>
      && ConfigProcessed(c, p).configured && ConfigProcessed(c, p).notices == []
      && (DiscoverRuns(p) <==> p.daysSet)
    ensures p.changed ==> ConfigProcessed(c, p).values == p.values
  {
  }

  const MaxDays := 7
  const CapKey := "forecast"
  const CapNotice := "Number of days of forecast data is limited to 7 days"

  /** The configuration `check_params` leaves, and the exception that escaped it. */
  datatype Checked = Checked(config: Config, err: Option<PyError>)

  /**
   * Lines 252-254 as evidently meant: more than seven forecast days adds a notice and stores
   * seven; `int()` of a value that is no integer raises ValueError.
   */
  function DayCap(c: Config): (r: Checked)
    ensures r.err.None? <==> ParseInt(Param(c.values, DaysName)).Some?
    ensures r.err.Some? ==> r == Checked(c, Some(ValueError))
  {
    match ParseInt(Param(c.values, DaysName))
    case None => Checked(c, Some(ValueError))
    case Some(n) =>
      if n > MaxDays then
        Checked(c.(notices := c.notices + [Notice(Some(CapKey), CapNotice)],
                   values := c.values[DaysName := NatToString(MaxDays)]), None)
      else Checked(c, None)
  }

  /**
   * Lines 252-254 as written: `addNotice` is called as a bare name, which the module does not
   * define, so more than seven days raises NameError before the value is stored.
   */
  function DayCapAsWritten(c: Config): (r: Checked)
    ensures r.err.None? ==> r == Checked(c, None)
  {
    match ParseInt(Param(c.values, DaysName))
    case None => Checked(c, Some(ValueError))
    case Some(n) => if n > MaxDays then Checked(c, Some(NameError)) else Checked(c, None)
  }

  /** As written, a day count above seven is never capped: the call raises and the value stays. */
  lemma DayCapAsWrittenRaises(c: Config, n: int)
    requires ParseInt(Param(c.values, DaysName)) == Some(n) && n > MaxDays
    ensures DayCapAsWritten(c) == Checked(c, Some(NameError))
    ensures ParseInt(Param(DayCapAsWritten(c).config.values, DaysName)) == Some(n)
  {
  }

  /**
   * As meant, a readable day count ends at most seven, it is kept when at most seven, and a
   * notice is added exactly when it was capped.
   */
  lemma DayCapBounds(c: Config, n: int)
    requires ParseInt(Param(c.values, DaysName)) == Some(n)
    ensures DayCap(c).err.None?
    ensures ParseInt(Param(DayCap(c).config.values, DaysName)) == Some(if n > MaxDays then MaxDays else n)
    ensures DayCap(c).config.notices == c.notices + (if n > MaxDays then [Notice(Some(CapKey), CapNotice)] else [])
    ensures DayCap(c).config.configured == c.configured
  {
    if n > MaxDays {
      ParseIntToString(MaxDays);
    }
  }

  /**
   * `check_params` (nodes/darksky.py:246-259) with the cap as meant: the notices are cleared;
   * with every required parameter there the controller is configured and the day count capped,
   * otherwise the missing-parameter notices are sent and `configured` is left alone.
   */
  function CheckedConfig(c: Config, p: Polled): (r: Checked)
    ensures p.valid ==> r.config.configured
    ensures !p.valid ==> r == Checked(Config(c.configured, p.values, p.missing), None)
  {
    if p.valid then DayCap(Config(true, p.values, []))
    else Checked(Config(c.configured, p.values, p.missing), None)
  }

  /** The addresses of days 0 .. n-1. */
  predicate InDays(a: Address, n: int)
  {
    a.Forecast? && 0 <= a.day < n
  }

  function DaysBefore(n: int): (s: set<Address>)
    ensures forall a :: a in s <==> InDays(a, n)
  {
    set d | 0 <= d < n :: Forecast(d)
  }

  /** `discover` deletes `forecast_n` .. `forecast_6`; every other address is kept. */
  predicate Kept(a: Address, n: int)
  {
    !(a.Forecast? && n <= a.day < MaxDays)
  }

  /** What a forecast node holds: its drivers, `self.units` and `self.uom`. */
  datatype NodeState = NodeState(table: seq<Driver>, units: Option<string>, uom: Option<map<string, int>>)

  /**
   * The nodes after `discover` with `n` days: the deleted addresses gone, and a node in state
   * `created` (a new node that was told the units) at each of `forecast_0` .. `forecast_{n-1}`.
   */
  function DiscoveredStates(m: map<Address, NodeState>, n: int, created: NodeState): (r: map<Address, NodeState>)
    ensures forall a :: a in r <==> InDays(a, n) || (a in m && Kept(a, n))
    ensures forall a | a in r :: r[a] == if InDays(a, n) then created else m[a]
  {
    map a | a in DaysBefore(n) + m.Keys && (InDays(a, n) || Kept(a, n)) :: if InDays(a, n) then created else m[a]
  }

  /**
   * With `n` at most seven and no forecast address outside 0..6 before, the forecast addresses
   * after `discover` are exactly `forecast_0` .. `forecast_{n-1}`; other addresses stay.
   */
  lemma DiscoverExact(m: map<Address, NodeState>, n: int, created: NodeState)
    requires n <= MaxDays
    requires forall a | a in m && a.Forecast? :: 0 <= a.day < MaxDays
    ensures forall d :: Forecast(d) in DiscoveredStates(m, n, created) <==> 0 <= d < n
    ensures forall name :: Named(name) in DiscoveredStates(m, n, created) <==> Named(name) in m
  {
  }

  /** The addresses `discover`'s first loop keeps. */
  function Pruned<V>(m: map<Address, V>, n: int): (r: map<Address, V>)
    ensures forall a :: a in r <==> a in m && Kept(a, n)
    ensures forall a | a in r :: r[a] == m[a]
  {
    map a | a in m && Kept(a, n) :: m[a]
  }

  /** The states after `discover`'s second loop: a new node's state at each of days 0 .. n-1. */
  function Blanked(m: map<Address, NodeState>, n: int): (r: map<Address, NodeState>)
    ensures r.Keys == m.Keys + DaysBefore(n)
    ensures forall a | a in r :: r[a] == if InDays(a, n) then NodeState(ForecastDrivers, None, None) else m[a]
  {
    map a | a in m.Keys + DaysBefore(n) :: if InDays(a, n) then NodeState(ForecastDrivers, None, None) else m[a]
  }

  lemma UnitsStep(m: map<Address, NodeState>, units: string, uom: map<string, int>, day: int)
    requires day >= 0 && Forecast(day) in m
    ensures var now := UnitsBefore(m, units, uom, day);
      UnitsBefore(m, units, uom, day + 1) == now[Forecast(day) := now[Forecast(day)].(units := Some(units), uom := Some(uom))]
  {
  }

  /** The first day in `day..n-1` without a node, or `n` (at least `day`) when there is none. */
  function FirstMissing(keys: set<Address>, day: nat, n: int): (stop: nat)
    ensures day <= stop && (stop <= n || stop == day)
    ensures forall d | day <= d < stop :: Forecast(d) in keys
    ensures stop < n ==> Forecast(stop) !in keys
    decreases n - day
  {
    if n <= day then day
    else if Forecast(day) in keys then FirstMissing(keys, day + 1, n)
    else day
  }

  /** The nodes after `set_driver_uom(units)` has reached day `stop`. */
  function UnitsBefore(m: map<Address, NodeState>, units: string, uom: map<string, int>, stop: int): (r: map<Address, NodeState>)
    ensures r.Keys == m.Keys
  {
    map a | a in m :: if InDays(a, stop) then m[a].(units := Some(units), uom := Some(uom)) else m[a]
  }

  /** The nodes after `set_driver_uom`, and the exception that ended it. */
  datatype Told = Told(states: map<Address, NodeState>, err: Option<PyError>)

  /**
   * `set_driver_uom(units)` on nodes `m`: `int()` of the day count may raise ValueError;
   * otherwise days 0 .. up to the first missing node are told, and a missing node raises
   * KeyError.
   */
  function UnitsTold(m: map<Address, NodeState>, values: map<string, string>, units: string, uom: map<string, int>): (r: Told)
    ensures r.states.Keys == m.Keys
  {
    match ParseInt(Param(values, DaysName))
    case None => Told(m, Some(ValueError))
    case Some(n) =>
      var stop := FirstMissing(m.Keys, 0, n);
      Told(UnitsBefore(m, units, uom, stop), if stop < n then Some(KeyError) else None)
  }

  /**
   * With a node at each of days 0 .. n-1, `set_driver_uom` tells every one of them and only
   * them, and raises nothing.
   */
  lemma UnitsToldAll(m: map<Address, NodeState>, values: map<string, string>, n: int, units: string, uom: map<string, int>)
    requires ParseInt(Param(values, DaysName)) == Some(n)
    requires forall d | 0 <= d < n :: Forecast(d) in m
    ensures UnitsTold(m, values, units, uom) == Told(UnitsBefore(m, units, uom, if n > 0 then n else 0), None)
  {
    var stop := if n > 0 then n else 0;
    assert FirstMissing(m.Keys, 0, n) == stop by {
      FirstMissingAt(m.Keys, 0, n, stop);
    }
  }

  /**
   * A missing node at day `d < n`, with every earlier day there, stops `set_driver_uom` with
   * KeyError: days before `d` are told, `d` and later ones are not.
   */
  lemma UnitsToldStops(m: map<Address, NodeState>, values: map<string, string>, n: int, d: nat, units: string, uom: map<string, int>)
    requires ParseInt(Param(values, DaysName)) == Some(n) && d < n
    requires forall e | 0 <= e < d :: Forecast(e) in m
    requires Forecast(d) !in m
    ensures UnitsTold(m, values, units, uom) == Told(UnitsBefore(m, units, uom, d), Some(KeyError))
  {
    FirstMissingAt(m.Keys, 0, n, d);
  }

  /** The keys of the decoded response. */
  const ErrorKey := "error"
  const CurrentKey := "currently"
  const DailyKey := "daily"
  const DataKey := "data"
  const LatitudeKey := "latitude"

  /** How far `query_conditions` gets before or instead of reading the current conditions. */
  datatype Rung =
    | NotConfigured
    /** the request failed, or the answer was `null` */
    | NoData
    /**
     * an answer that is not a dict: a number cannot be iterated, and a list or a string either
     * lacks the keys or cannot be indexed by them, and the TypeError is caught
     */
    | Unusable
    | ServiceError(message: Json)
    | NoCurrent
    | Current(jdata: Json)

  function RungOf(configured: bool, response: Json): (r: Rung)
    ensures r.Current? <==> configured && response.Obj? && ErrorKey !in response.fields && CurrentKey in response.fields
    ensures r.Current? ==> r.jdata == response
    ensures r.ServiceError? <==> configured && response.Obj? && ErrorKey in response.fields
  {
    if !configured then NotConfigured
    else if response.Null? then NoData
    else if !response.Obj? then Unusable
    else if ErrorKey in response.fields then ServiceError(response.fields[ErrorKey])
    else if CurrentKey !in response.fields then NoCurrent
    else Current(response)
  }

  /**
   * The notice a service error adds, `addNotice(jdata['error'], 'error')`; a message that is no
   * string makes the log line before it raise TypeError, which is caught, so none is added.
   */
  function ErrorNotices(r: Rung): (ns: seq<Notice>)
    ensures |ns| <= 1
    ensures |ns| == 1 <==> r.ServiceError? && r.message.Str?
    ensures |ns| == 1 ==> ns[0] == Notice(Some(ErrorKey), r.message.s)
  {
    if r.ServiceError? && r.message.Str? then [Notice(Some(ErrorKey), r.message.s)] else []
  }

  /** The current conditions (nodes/darksky.py:172-187), each read stopping the query when it raises. */
  const CurrentReadings: seq<Reading> := [
    Condition("GV13", "icon"), Raw("CLITEMP", "temperature"), Number("CLIHUM", "humidity", 100.0),
    Number("BARPRES", "pressure", 1.0), Number("GV4", "windSpeed", 1.0),
    Number("GV5", "windGust", 1.0), Number("WINDDIR", "windBearing", 1.0),
    Number("DISTANC", "visibility", 1.0), Repeated("GV14", "cloudCover", 100),
    Number("UV", "uvIndex", 1.0), Number("GV0", "apparentTemperature", 1.0),
    Number("DEWPT", "dewPoint", 1.0), Number("GV10", "ozone", 1.0),
    Number("RAINRT", "precipIntensity", 1.0), Number("GV18", "precipProbability", 100.0)]

  /** Every current-condition read succeeds. */
  predicate CurrentComplete(ob: Json)
  {
    forall k | 0 <= k < |CurrentReadings| :: ValueOf(CurrentReadings[k], ob).Some?
  }

  /** The controller's drivers after `query_conditions`: set only once past every early return. */
  function QueryTable(rows: seq<Driver>, r: Rung): (t: seq<Driver>)
    ensures !r.Current? ==> t == rows
  {
    if r.Current? && Member(r.jdata, CurrentKey).Some? then
      Apply(rows, CurrentReadings, r.jdata.fields[CurrentKey]).rows
    else rows
  }

  /** The arguments besides the record that the forecast loop passes from the parameters. */
  datatype DayParams = DayParams(elevation: string, plantType: string, units: string)

  function ParamsFor(values: map<string, string>): DayParams
  {
    DayParams(Param(values, ElevationName), Param(values, PlantName), Param(values, UnitsName))
  }

  /** `jdata['daily']['data'][day]` and `jdata['latitude']`, or the exception reading them raises. */
  function DailyRecord(jdata: Json, day: nat): (r: Result<(Json, Json)>)
    ensures r.Ok? ==>
      && jdata.Obj? && DailyKey in jdata.fields && LatitudeKey in jdata.fields
      && Member(jdata.fields[DailyKey], DataKey).Some?
      && Index(jdata.fields[DailyKey].fields[DataKey], day) == Ok(r.value.0)
      && r.value.1 == jdata.fields[LatitudeKey]
    ensures r.Ok? && jdata.fields[DailyKey].fields[DataKey].Arr? ==>
      r.value.0 == jdata.fields[DailyKey].fields[DataKey].items[day]
  {
    match Lookup(jdata, DailyKey)
    case Raise(e) => Raise(e)
    case Ok(daily) =>
      match Lookup(daily, DataKey)
      case Raise(e) => Raise(e)
      case Ok(data) =>
        match Index(data, day)
        case Raise(e) => Raise(e)
        case Ok(record) =>
          match Lookup(jdata, LatitudeKey)
          case Raise(e) => Raise(e)
          case Ok(latitude) => Ok((record, latitude))
  }

  /**
   * One day of the forecast loop as meant: the node's drivers after `update_forecast` on the
   * day's record; a record that cannot be read, or a failed update, is caught, so the loop goes
   * on (a failed update keeps what it set before it raised).
   */
  function DayTable(s: NodeState, jdata: Json, day: nat, dp: DayParams, num: Numerics): seq<Driver>
  {
    match DailyRecord(jdata, day)
    case Raise(_) => s.table
    case Ok(rec) => UpdatedForecast(s.table, s.units, rec.0, rec.1, dp.elevation, dp.plantType, dp.units, num).rows
  }

  /** The nodes once the forecast loop has done days 0 .. stop-1; a missing node is skipped. */
  function ForecastsBefore(m: map<Address, NodeState>, jdata: Json, dp: DayParams, num: Numerics, stop: int): (r: map<Address, NodeState>)
    ensures r.Keys == m.Keys
    ensures forall a | a in m :: r[a].units == m[a].units && r[a].uom == m[a].uom
  {
    map a | a in m :: if InDays(a, stop) then m[a].(table := DayTable(m[a], jdata, a.day, dp, num)) else m[a]
  }

  /**
   * The forecast loop touches exactly days 0 .. n-1, and the node of day `d` is updated from
   * `daily.data[d]`, today's forecast included.
   */
  lemma ForecastPassDay(m: map<Address, NodeState>, jdata: Json, dp: DayParams, num: Numerics, n: int, d: nat)
    requires Forecast(d) in m && d < n && DailyRecord(jdata, d).Ok?
    ensures var s := m[Forecast(d)]; var rec := DailyRecord(jdata, d).value;
      ForecastsBefore(m, jdata, dp, num, n)[Forecast(d)].table
        == UpdatedForecast(s.table, s.units, rec.0, rec.1, dp.elevation, dp.plantType, dp.units, num).rows
    ensures forall a | a in m && !InDays(a, n) :: ForecastsBefore(m, jdata, dp, num, n)[a] == m[a]
  {
  }

  /** Day `day` of the forecast loop updates that day's node, if there is one, and nothing else. */
  lemma ForecastStep(m: map<Address, NodeState>, jdata: Json, dp: DayParams, num: Numerics, day: nat)
    ensures ForecastsBefore(m, jdata, dp, num, day + 1) == DayStep(ForecastsBefore(m, jdata, dp, num, day), jdata, day, dp, num)
  {
    var before := ForecastsBefore(m, jdata, dp, num, day);
    var l, r := ForecastsBefore(m, jdata, dp, num, day + 1), DayStep(before, jdata, day, dp, num);
    forall a | a in m
      ensures l[a] == r[a]
    {
      if a == Forecast(day) {
        assert before[a] == m[a];
      }
    }
    assert l.Keys == r.Keys;
  }

  /** A loop of no days changes nothing. */
  lemma ForecastsFrom0(m: map<Address, NodeState>, jdata: Json, dp: DayParams, num: Numerics, n: int)
    ensures ForecastsBefore(m, jdata, dp, num, 0) == m
    ensures n <= 0 ==> ForecastsBefore(m, jdata, dp, num, n) == m
  {
  }

  /** What day `day` changes: the table of that day's node, if there is one. */
  function DayStep(m: map<Address, NodeState>, jdata: Json, day: nat, dp: DayParams, num: Numerics): (r: map<Address, NodeState>)
    ensures r.Keys == m.Keys
    ensures forall a | a in m && a != Forecast(day) :: r[a] == m[a]
  {
    var f := Forecast(day);
    if f in m then m[f := m[f].(table := DayTable(m[f], jdata, day, dp, num))] else m
  }

  /** The forecast loop over the day count, when `int()` can read it (lines 195-203). */
  function DaysForecasts(m: map<Address, NodeState>, jdata: Json, values: map<string, string>, num: Numerics): map<Address, NodeState>
  {
    match ParseInt(Param(values, DaysName))
    case None => m
    case Some(n) => ForecastsBefore(m, jdata, ParamsFor(values), num, n)
  }

  /** The nodes after the whole of `query_conditions`. */
  function QueryNodes(m: map<Address, NodeState>, r: Rung, values: map<string, string>, num: Numerics): (q: map<Address, NodeState>)
    ensures !r.Current? ==> q == m
  {
    if r.Current? && Member(r.jdata, CurrentKey).Some? && CurrentComplete(r.jdata.fields[CurrentKey]) then
      DaysForecasts(m, r.jdata, values, num)
    else m
  }

  /** `update_forecast` takes six arguments after `self`; line 201 passes five. */
  const UpdateForecastArity := 6
  const ArgumentsPassed := 5

  /** Binding a call of `arity` parameters, none with a default, to `given` arguments. */
  function Bind(arity: nat, given: nat): (r: Option<PyError>)
    ensures r.None? <==> arity == given
    ensures r.Some? ==> r.value == TypeError
  {
    if arity == given then None else Some(TypeError)
  }

  /** A Python value that the log line of the day handler concatenates. */
  datatype PyValue = PyStr(s: string) | PyInt(i: int)

  /** Python `text + v`: a string concatenates, an int raises TypeError. */
  function Concat(text: string, v: PyValue): (r: Result<string>)
    ensures r.Ok? <==> v.PyStr?
    ensures r.Ok? ==> r.value == text + v.s
  {
    match v
    case PyStr(s) => Ok(text + s)
    case PyInt(_) => Raise(TypeError)
  }

  const DayFailure := "Failed to query forecast data for day "

  /**
   * What escapes one day's try block as nodes/darksky.py:200-203 has it: the call raises
   * TypeError for its argument count, and the handler's `'...' + day` with the int `day`
   * raises TypeError again, out to the outer handler.
   */
  function DayAsWritten(day: int): Option<PyError>
  {
    match Bind(UpdateForecastArity, ArgumentsPassed)
    case None => None
    case Some(_) =>
      match Concat(DayFailure, PyInt(day))
      case Ok(_) => None
      case Raise(e) => Some(e)
  }

  /**
   * The forecast loop as written, from day `day`: the nodes, and what escapes to the outer
   * handler, which ends `query_conditions`.
   */
  function ForecastLoopAsWritten(m: map<Address, NodeState>, jdata: Json, dp: DayParams, num: Numerics,
                                 day: nat, n: int): (r: (map<Address, NodeState>, Option<PyError>))
    decreases n - day
  {
    if n <= day then (m, None)
    else match DayAsWritten(day)
      case Some(e) => (m, Some(e))
      case None =>
        var next := if Forecast(day) in m then m[Forecast(day) := m[Forecast(day)].(table := DayTable(m[Forecast(day)], jdata, day, dp, num))] else m;
        ForecastLoopAsWritten(next, jdata, dp, num, day + 1, n)
  }

  /** As written, no forecast node is ever updated, and the first day already aborts the loop. */
  lemma ForecastLoopAsWrittenAborts(m: map<Address, NodeState>, jdata: Json, dp: DayParams, num: Numerics, n: int)
    requires n >= 1
    ensures ForecastLoopAsWritten(m, jdata, dp, num, 0, n) == (m, Some(TypeError))
  {
  }

  /** As meant, the call binds with the sixth argument, and the handler's message is built with `str(day)`. */
  lemma DayHandledAsMeant(day: int)
    ensures Bind(UpdateForecastArity, ArgumentsPassed + 1).None?
    ensures Concat(DayFailure, PyStr(IntToString(day))) == Ok(DayFailure + IntToString(day))
  {
  }

  /** Every node sits at its own address, so no node object sits at two. */
  ghost predicate Distinct(ns: map<Address, DailyNode>)
  {
    forall a | a in ns :: ns[a].address == a
  }

  ghost function StatesOf(ns: map<Address, DailyNode>): (m: map<Address, NodeState>)
    reads ns.Values
    ensures m.Keys == ns.Keys
  {
    map a | a in ns :: NodeState(ns[a].table, ns[a].units, ns[a].uom)
  }

  class Controller {
    var configured: bool
    /** The values `self.params` holds. */
    var params: map<string, string>
    var notices: seq<Notice>
    /** The controller's drivers. */
    var table: seq<Driver>
    /** The forecast nodes by address. */
    var nodes: map<Address, DailyNode>
    /** `self.uom`, set by `set_driver_uom`. */
    var uom: Option<map<string, int>>

    ghost predicate Valid()
      reads this`nodes
    {
      Distinct(nodes)
    }

    ghost function NodeStates(): (m: map<Address, NodeState>)
      reads this`nodes, nodes.Values
      ensures m.Keys == nodes.Keys
    {
      StatesOf(nodes)
    }

    function Settings(): Config
      reads this`configured, this`params, this`notices
    {
      Config(configured, params, notices)
    }

    constructor ()
      ensures Valid() && Settings() == Config(false, map[], [])
      ensures table == ControllerDrivers && nodes == map[] && uom.None?
    {
      configured := false;
      params := map[];
      notices := [];
      table := ControllerDrivers;
      nodes := map[];
      uom := None;
    }

    /** `check_params`, with the day cap as meant. */
    method CheckParams(p: Polled) returns (err: Option<PyError>)
      modifies this`configured, this`params, this`notices
      ensures Checked(Settings(), err) == CheckedConfig(old(Settings()), p)
    {
      notices := [];
      params := p.values;
      err := None;
      if p.valid {
        configured := true;
        var days := ParseInt(Param(params, DaysName));
        if days.None? {
          return Some(ValueError);
        }
        if days.value > MaxDays {
          notices := notices + [Notice(Some(CapKey), CapNotice)];
          params := params[DaysName := NatToString(MaxDays)];
        }
      } else {
        notices := notices + p.missing;
      }
    }

    /**
     * `set_driver_uom(units)`: store the controller's uom table, then tell each forecast node
     * of days 0 .. n-1 the units, stopping with KeyError at the first missing node.
     */
    method SetDriverUom(units: string, getUom: string -> map<string, int>) returns (err: Option<PyError>)
      requires Valid()
      modifies this`uom, nodes.Values
      ensures Valid() && uom == Some(getUom(units))
      ensures Told(NodeStates(), err) == UnitsTold(old(NodeStates()), params, units, getUom(units))
    {
      uom := Some(getUom(units));
      var days := ParseInt(Param(params, DaysName));
      if days.None? {
        return Some(ValueError);
      }
      err := TellNodes(units, getUom(units), days.value);
    }

    /** The loop of `set_driver_uom`: `set_driver_uom(units)` on the nodes of days 0 .. n-1. */
    method TellNodes(units: string, t: map<string, int>, n: int) returns (err: Option<PyError>)
      requires Valid()
      modifies nodes.Values
      ensures NodeStates() == UnitsBefore(old(NodeStates()), units, t, FirstMissing(nodes.Keys, 0, n))
      ensures err == if FirstMissing(nodes.Keys, 0, n) < n then Some(KeyError) else None
    {
      var ns := nodes;
      ghost var before := StatesOf(ns);
      var stop: nat := if n > 0 then n else 0;
      for day := 0 to stop
        invariant forall d | 0 <= d < day :: Forecast(d) in ns
        invariant StatesOf(ns) == UnitsBefore(before, units, t, day)
      {
        var address := Forecast(day);
        if address !in ns {
          FirstMissingAt(ns.Keys, 0, n, day);
          return Some(KeyError);
        }
        UnitsStep(before, units, t, day);
        TellNode(ns, address, units, t);
      }
      FirstMissingAt(ns.Keys, 0, n, stop);
      err := None;
    }

    /** `self.nodes[address].set_driver_uom(units)` for a node that is there. */
    method TellNode(ns: map<Address, DailyNode>, address: Address, units: string, t: map<string, int>)
      requires Distinct(ns) && address in ns
      modifies ns.Values
      ensures StatesOf(ns) == old(StatesOf(ns))[address := old(StatesOf(ns))[address].(units := Some(units), uom := Some(t))]
    {
      var node := ns[address];
      ghost var pre := StatesOf(ns);
      node.SetDriverUom(units, t);
      forall a | a in ns
        ensures StatesOf(ns)[a] == pre[address := pre[address].(units := Some(units), uom := Some(t))][a]
      {
        if a != address {
          assert ns[a].address != node.address;
        }
      }
    }

    /**
     * `discover`: with `n` the forecast days, delete `forecast_n` .. `forecast_6`, add a new
     * node at each of `forecast_0` .. `forecast_{n-1}`, then `set_driver_uom` with the Units
     * parameter, which finds every node it needs; a day count that is no integer raises
     * ValueError first.
     */
    method Discover(getUom: string -> map<string, int>) returns (err: Option<PyError>)
      requires Valid()
      modifies this`nodes, this`uom, nodes.Values
      ensures Valid()
      ensures ParseInt(Param(params, DaysName)).None? ==>
        err == Some(ValueError) && nodes == old(nodes) && NodeStates() == old(NodeStates()) && uom == old(uom)
      ensures ParseInt(Param(params, DaysName)).Some? ==>
        var n, u := ParseInt(Param(params, DaysName)).value, Param(params, UnitsName);
        && err.None? && uom == Some(getUom(u))
        && NodeStates() == DiscoveredStates(old(NodeStates()), n, NodeState(ForecastDrivers, Some(u), Some(getUom(u))))
        && forall a | a in nodes :: if InDays(a, n) then fresh(nodes[a]) else a in old(nodes) && nodes[a] == old(nodes)[a]
    {
      var days := ParseInt(Param(params, DaysName));
      if days.None? {
        return Some(ValueError);
      }
      err := Rebuild(days.value, Param(params, UnitsName), getUom);
    }

    /** `discover` once the day count `n` is read: the two loops, then `set_driver_uom(u)`. */
    method Rebuild(n: int, u: string, getUom: string -> map<string, int>) returns (err: Option<PyError>)
      requires Valid() && ParseInt(Param(params, DaysName)) == Some(n)
      modifies this`nodes, this`uom, nodes.Values
      ensures Valid() && err.None? && uom == Some(getUom(u))
      ensures NodeStates() == DiscoveredStates(old(NodeStates()), n, NodeState(ForecastDrivers, Some(u), Some(getUom(u))))
      ensures forall a | a in nodes :: if InDays(a, n) then fresh(nodes[a]) else a in old(nodes) && nodes[a] == old(nodes)[a]
    {
      ghost var before := NodeStates();
      DeleteForecasts(n);
      AddForecasts(n);
      UnitsToldAll(NodeStates(), params, n, u, getUom(u));
      err := SetDriverUom(u, getUom);
      DiscoverTells(before, n, u, getUom(u));
    }

    /**
     * `start`: `check_params` with what `get_from_polyglot` reports as `p`, `discover`, then
     * `query_conditions` on `response`; an exception from either of the first two ends it.
     */
    method Start(p: Polled, getUom: string -> map<string, int>, response: Json, num: Numerics) returns (err: Option<PyError>)
      requires Valid()
      modifies this`configured, this`params, this`notices, this`table, this`nodes, this`uom, nodes.Values
      ensures Valid()
      ensures var c := CheckedConfig(old(Settings()), p);
        c.err.Some? ==> err == c.err && Settings() == c.config && table == old(table) && NodeStates() == old(NodeStates())
      ensures var c := CheckedConfig(old(Settings()), p);
        c.err.None? && ParseInt(Param(c.config.values, DaysName)).None? ==>
          err == Some(ValueError) && Settings() == c.config && table == old(table) && NodeStates() == old(NodeStates())
      ensures var c := CheckedConfig(old(Settings()), p);
        c.err.None? && ParseInt(Param(c.config.values, DaysName)).Some? ==>
          var n, u := ParseInt(Param(c.config.values, DaysName)).value, Param(c.config.values, UnitsName);
          var r := RungOf(c.config.configured, response);
          && err.None?
          && Settings() == c.config.(notices := c.config.notices + ErrorNotices(r))
          && table == QueryTable(old(table), r)
          && NodeStates() == QueryNodes(DiscoveredStates(old(NodeStates()), n, NodeState(ForecastDrivers, Some(u), Some(getUom(u)))), r, c.config.values, num)
    {
      ghost var states := NodeStates();
      err := CheckParams(p);
      if err.Some? {
        return;
      }
      assert NodeStates() == states;
      err := Boot(getUom, response, num);
    }

    /** The rest of `start` once the parameters are accepted: `discover`, then the first query. */
    method Boot(getUom: string -> map<string, int>, response: Json, num: Numerics) returns (err: Option<PyError>)
      requires Valid()
      modifies this`notices, this`table, this`nodes, this`uom, nodes.Values
      ensures Valid() && configured == old(configured) && params == old(params)
      ensures ParseInt(Param(params, DaysName)).None? ==>
        err == Some(ValueError) && notices == old(notices) && table == old(table) && NodeStates() == old(NodeStates())
      ensures ParseInt(Param(params, DaysName)).Some? ==>
        var n, u := ParseInt(Param(params, DaysName)).value, Param(params, UnitsName);
        var r := RungOf(configured, response);
        && err.None?
        && notices == old(notices) + ErrorNotices(r)
        && table == QueryTable(old(table), r)
        && NodeStates() == QueryNodes(DiscoveredStates(old(NodeStates()), n, NodeState(ForecastDrivers, Some(u), Some(getUom(u)))), r, params, num)
    {
      ghost var before, days := NodeStates(), ParseInt(Param(params, DaysName));
      err := Discover(getUom);
      if err.Some? {
        return;
      }
      ghost var u := Param(params, UnitsName);
      ghost var found := NodeStates();
      assert found == DiscoveredStates(before, days.value, NodeState(ForecastDrivers, Some(u), Some(getUom(u))));
      QueryConditions(response, num);
      assert NodeStates() == QueryNodes(found, RungOf(configured, response), params, num);
    }

    /**
     * `process_config(config)`, with what `update_from_polyglot` reports as `p`: the
     * configuration as `ConfigProcessed` has it, then `discover` when `DiscoverRuns(p)`.
     */
    method ProcessConfig(p: Polled, getUom: string -> map<string, int>) returns (err: Option<PyError>)
      requires Valid()
      modifies this`configured, this`params, this`notices, this`nodes, this`uom, nodes.Values
      ensures Valid() && Settings() == ConfigProcessed(old(Settings()), p)
      ensures !DiscoverRuns(p) ==> err.None? && nodes == old(nodes) && NodeStates() == old(NodeStates()) && uom == old(uom)
      ensures DiscoverRuns(p) && ParseInt(Param(p.values, DaysName)).None? ==>
        err == Some(ValueError) && nodes == old(nodes) && NodeStates() == old(NodeStates())
      ensures DiscoverRuns(p) && ParseInt(Param(p.values, DaysName)).Some? ==>
        var n, u := ParseInt(Param(p.values, DaysName)).value, Param(p.values, UnitsName);
        && err.None? && uom == Some(getUom(u))
        && NodeStates() == DiscoveredStates(old(NodeStates()), n, NodeState(ForecastDrivers, Some(u), Some(getUom(u))))
    {
      err := None;
      if p.changed && !p.valid {
        notices := p.missing;
        params := p.values;
      } else if p.changed && p.valid {
        notices := [];
        params := p.values;
        configured := true;
        if p.daysSet {
          assert NodeStates() == old(NodeStates());
          err := Discover(getUom);
        }
      }
    }

    /**
     * `query_conditions` on the decoded answer `response` (`null` when the request failed):
     * the early returns of lines 143-170, the current conditions, then the forecast loop as
     * meant, which `ParseInt` of the day count may stop first.
     */
    method QueryConditions(response: Json, num: Numerics)
      requires Valid()
      modifies this`table, this`notices, nodes.Values
      ensures Valid()
      ensures notices == old(notices) + ErrorNotices(RungOf(configured, response))
      ensures table == QueryTable(old(table), RungOf(configured, response))
      ensures NodeStates() == QueryNodes(old(NodeStates()), RungOf(configured, response), params, num)
    {
      if !configured || response.Null? || !response.Obj? {
        return;
      }
      if ErrorKey in response.fields {
        var message := response.fields[ErrorKey];
        if message.Str? {
          notices := notices + [Notice(Some(ErrorKey), message.s)];
        }
        return;
      }
      if CurrentKey !in response.fields {
        return;
      }
      UpdateConditions(response, num);
    }

    /**
     * Lines 172-203, on an answer with current conditions and no error: the current readings in
     * turn, then, when all of them could be read, the forecast loop.
     */
    method UpdateConditions(response: Json, num: Numerics)
      requires Valid() && response.Obj? && CurrentKey in response.fields
      modifies this`table, nodes.Values
      ensures Valid()
      ensures table == Apply(old(table), CurrentReadings, response.fields[CurrentKey]).rows
      ensures NodeStates() ==
        if CurrentComplete(response.fields[CurrentKey]) then DaysForecasts(old(NodeStates()), response, params, num) else old(NodeStates())
    {
      var complete := ReadCurrent(response.fields[CurrentKey]);
      if complete {
        Forecasts(response, num);
      }
    }

    /** Lines 172-187: the current readings in turn; `complete` when none of them raised. */
    method ReadCurrent(ob: Json) returns (complete: bool)
      modifies this`table
      ensures table == Apply(old(table), CurrentReadings, ob).rows
      ensures complete <==> CurrentComplete(ob)
    {
      var applied := Apply(table, CurrentReadings, ob);
      ApplyCompletes(table, CurrentReadings, ob);
      table := applied.rows;
      complete := applied.count == |CurrentReadings|;
    }

    /** Lines 195-203: the day count, which may raise ValueError, then the forecast loop. */
    method Forecasts(jdata: Json, num: Numerics)
      requires Valid()
      modifies nodes.Values
      ensures NodeStates() == DaysForecasts(old(NodeStates()), jdata, params, num)
    {
      ghost var before := NodeStates();
      var days := ParseInt(Param(params, DaysName));
      if days.None? {
        assert DaysForecasts(before, jdata, params, num) == before;
        return;
      }
      ForecastLoop(jdata, days.value, ParamsFor(params), num);
      assert DaysForecasts(before, jdata, params, num) == ForecastsBefore(before, jdata, ParamsFor(params), num, days.value);
    }

    /**
     * The forecast loop of `query_conditions` as meant: days 0 .. n-1 in turn, each failure
     * caught on its own, so a missing node or an unreadable record skips only its day.
     */
    method ForecastLoop(jdata: Json, n: int, dp: DayParams, num: Numerics)
      requires Valid()
      modifies nodes.Values
      ensures NodeStates() == ForecastsBefore(old(NodeStates()), jdata, dp, num, n)
    {
      var ns := nodes;
      ghost var before := StatesOf(ns);
      var stop: nat := if n > 0 then n else 0;
      ForecastsFrom0(before, jdata, dp, num, n);
      for day := 0 to stop
        invariant StatesOf(ns) == ForecastsBefore(before, jdata, dp, num, day)
      {
        ForecastStep(before, jdata, dp, num, day);
        ForecastDay(ns, jdata, day, dp, num);
      }
    }

    /** Day `day` of the forecast loop: its node, if there is one, updated from its record. */
    method ForecastDay(ns: map<Address, DailyNode>, jdata: Json, day: nat, dp: DayParams, num: Numerics)
      requires Distinct(ns)
      modifies ns.Values
      ensures StatesOf(ns) == DayStep(old(StatesOf(ns)), jdata, day, dp, num)
    {
      var address := Forecast(day);
      if address !in ns {
        return;
      }
      ghost var pre := StatesOf(ns);
      var record := DailyRecord(jdata, day);
      if record.Raise? {
        assert pre[address := pre[address].(table := DayTable(pre[address], jdata, day, dp, num))] == pre;
        return;
      }
      var node := ns[address];
      var _ := node.UpdateForecast(record.value.0, record.value.1, dp.elevation, dp.plantType, dp.units, num);
      assert node.table == DayTable(pre[address], jdata, day, dp, num);
      forall a | a in ns
        ensures StatesOf(ns)[a] == pre[address := pre[address].(table := node.table)][a]
      {
        if a != address {
          assert ns[a].address != node.address;
        }
      }
    }

    /** `discover`'s first loop: `delNode` of `forecast_n` .. `forecast_6`. */
    method DeleteForecasts(n: int)
      requires Valid()
      modifies this`nodes
      ensures Valid()
      ensures nodes == Pruned(old(nodes), n)
      ensures NodeStates() == Pruned(old(NodeStates()), n)
    {
      if n < MaxDays {
        var day := n;
        while day < MaxDays
          invariant n <= day <= MaxDays && Valid()
          invariant nodes == map a | a in old(nodes) && !(a.Forecast? && n <= a.day < day) :: old(nodes)[a]
        {
          nodes := nodes - {Forecast(day)};
          day := day + 1;
        }
      } else {
        assert forall a | a in old(nodes) :: Kept(a, n);
      }
    }

    /** `discover`'s second loop: a new node at each of `forecast_0` .. `forecast_{n-1}`. */
    method AddForecasts(n: int)
      requires Valid()
      modifies this`nodes
      ensures Valid()
      ensures nodes.Keys == old(nodes).Keys + DaysBefore(n)
      ensures forall a | a in nodes :: if InDays(a, n) then fresh(nodes[a]) else a in old(nodes) && nodes[a] == old(nodes)[a]
      ensures NodeStates() == Blanked(old(NodeStates()), n)
    {
      nodes := WithForecasts(nodes, n);
    }
  }

  /** The node map after `discover`'s second loop has added days `0` .. `n-1` to `ns`. */
  method WithForecasts(ns: map<Address, DailyNode>, n: int) returns (r: map<Address, DailyNode>)
    requires Distinct(ns)
    ensures Distinct(r)
    ensures r.Keys == ns.Keys + DaysBefore(n)
    ensures forall a | a in r :: if InDays(a, n) then fresh(r[a]) else a in ns && r[a] == ns[a]
    ensures StatesOf(r) == Blanked(StatesOf(ns), n)
  {
    r := ns;
    var day := 0;
    while day < n
      invariant 0 <= day && (day <= n || day == 0) && Distinct(r)
      invariant forall d | 0 <= d < day :: Forecast(d) in r
      invariant forall a | a in ns :: a in r
      invariant forall a | a in r :: if InDays(a, day) then fresh(r[a]) && Blank(r[a]) else a in ns && r[a] == ns[a]
    {
      r := AddForecast(r, day);
      day := day + 1;
    }
    BlankedNodes(ns, r, n);
  }

  /** A node as `DailyNode.__init__` leaves it: the declared drivers, no units yet. */
  ghost predicate Blank(node: DailyNode)
    reads node
  {
    node.table == ForecastDrivers && node.units.None? && node.uom.None?
  }

  /** The node maps `WithForecasts` builds have the states `Blanked` describes. */
  lemma BlankedNodes(ns: map<Address, DailyNode>, r: map<Address, DailyNode>, n: int)
    requires forall d | 0 <= d < n :: Forecast(d) in r
    requires forall a | a in ns :: a in r
    requires forall a | a in r :: if InDays(a, n) then Blank(r[a]) else a in ns && r[a] == ns[a]
    ensures r.Keys == ns.Keys + DaysBefore(n)
    ensures StatesOf(r) == Blanked(StatesOf(ns), n)
  {
    assert r.Keys == ns.Keys + DaysBefore(n);
    forall a | a in r
      ensures StatesOf(r)[a] == Blanked(StatesOf(ns), n)[a]
    {
      if !InDays(a, n) {
        assert r[a] == ns[a];
      }
    }
  }

  /** `addNode` of a new forecast node for day `day`, replacing any node at that address. */
  method AddForecast(ns: map<Address, DailyNode>, day: int) returns (r: map<Address, DailyNode>)
    requires Distinct(ns)
    ensures Distinct(r)
    ensures Forecast(day) in r && fresh(r[Forecast(day)]) && Blank(r[Forecast(day)])
    ensures r == ns[Forecast(day) := r[Forecast(day)]]
  {
    var address := Forecast(day);
    var node := new DailyNode(address);
    r := ns[address := node];
  }

  /** The fan-out stops exactly at the first missing day. */
  lemma {:induction false} FirstMissingAt(keys: set<Address>, day: nat, n: int, stop: nat)
    requires day <= stop && (stop <= n || stop == day)
    requires forall d | day <= d < stop :: Forecast(d) in keys
    requires stop < n ==> Forecast(stop) !in keys
    ensures FirstMissing(keys, day, n) == stop
    decreases n - day
  {
    if day < stop {
      FirstMissingAt(keys, day + 1, n, stop);
    }
  }

  /** Deleting, adding blank nodes and then telling days 0 .. n-1 the units is `DiscoveredStates`. */
  lemma DiscoverTells(m: map<Address, NodeState>, n: int, u: string, t: map<string, int>)
    ensures UnitsBefore(Blanked(Pruned(m, n), n), u, t, if n > 0 then n else 0)
      == DiscoveredStates(m, n, NodeState(ForecastDrivers, Some(u), Some(t)))
  {
  }
}
