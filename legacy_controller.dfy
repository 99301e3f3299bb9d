/**
 * The first controller (`darksky.py`): it keeps the location, API key and units from the
 * custom parameters, recodes its drivers' uoms for the unit system and pushes that unit
 * system to the seven forecast nodes `forecast_1` .. `forecast_7`.
 */
module LegacyController {
  import opened Wrappers
  import opened Text
  import opened Drivers
  import opened Hub
  import opened LegacyDaily

  /** The controller's declared drivers (darksky.py:326-343). */
  const DefaultDrivers: seq<Driver> := [
    Driver("ST", 1.0, 2), Driver("CLITEMP", 0.0, 4), Driver("GV0", 0.0, 4),
    Driver("CLIHUM", 0.0, 22), Driver("DEWPT", 0.0, 4), Driver("BARPRES", 0.0, 117),
    Driver("GV4", 0.0, 49), Driver("WINDDIR", 0.0, 76), Driver("GV5", 0.0, 49),
    Driver("GV13", 0.0, 25), Driver("GV14", 0.0, 22), Driver("GV15", 0.0, 116),
    Driver("GV18", 0.0, 22), Driver("RAINRT", 0.0, 24), Driver("GV16", 0.0, 71),
    Driver("GV17", 0.0, 56)
  ]

  /** The metric uoms (darksky.py:237-247, 272-282). */
  const SiCodes: map<string, int> := map[
    "CLITEMP" := 4, "DEWPT" := 4, "GV0" := 4, "GV1" := 4, "GV2" := 4, "GV3" := 4,
    "BARPRES" := 118, "GV4" := 49, "GV5" := 49, "RAINRT" := 46, "GV15" := 38]

  /** The imperial uoms (darksky.py:253-263, 290-300). */
  const UsCodes: map<string, int> := map[
    "CLITEMP" := 17, "DEWPT" := 17, "GV0" := 17, "GV1" := 17, "GV2" := 17, "GV3" := 17,
    "BARPRES" := 117, "GV4" := 48, "GV5" := 48, "RAINRT" := 24, "GV15" := 116]

  /** `'si'` selects the metric codes; every other string, the imperial ones. */
  function CodesFor(units: string): (codes: map<string, int>)
    ensures units == Metric ==> codes == SiCodes
    ensures units != Metric ==> codes == UsCodes
  {
    if units == Metric then SiCodes else UsCodes
  }

  /** The unit string pushed to the forecast nodes. */
  function ForecastUnits(units: string): (u: string)
    ensures u == Metric <==> units == Metric
    ensures u == Metric || u == Imperial
  {
    if units == Metric then Metric else Imperial
  }

  /**
   * The first day in `day..7` whose node is missing, or 8 when all are there: the fan-out loop
   * `self.nodes['forecast_' + str(d)]` raises KeyError there.
   */
  function FanOutStop(keys: set<Address>, day: nat): (stop: nat)
    requires 1 <= day <= 8
    ensures day <= stop <= 8
    ensures forall d | day <= d < stop :: Forecast(d) in keys
    ensures stop <= 7 ==> Forecast(stop) !in keys
    decreases 8 - day
  {
    if day == 8 then 8
    else if Forecast(day) in keys then FanOutStop(keys, day + 1)
    else day
  }

  /** The fan-out stops exactly at the first missing day. */
  lemma {:induction false} FanOutStopAt(keys: set<Address>, day: nat, stop: nat)
    requires 1 <= day <= stop <= 8
    requires forall d | day <= d < stop :: Forecast(d) in keys
    requires stop <= 7 ==> Forecast(stop) !in keys
    ensures FanOutStop(keys, day) == stop
    decreases 8 - day
  {
    if day < stop {
      FanOutStopAt(keys, day + 1, stop);
    }
  }

  /** The addresses of days 1 .. stop-1. */
  function Reached(stop: nat): set<Address>
  {
    set d | 1 <= d < stop :: Forecast(d)
  }

  /**
   * The forecast tables once the loop has reached day `stop`: the nodes of the days before
   * `stop` have had `set_units(units)`, every other node keeps its table.
   */
  function RecodedBefore(m: map<Address, Table>, units: string, stop: nat): (r: map<Address, Table>)
    ensures r.Keys == m.Keys
  {
    map a | a in m :: if a in Reached(stop) then SetUnitsTable(m[a], units) else m[a]
  }

  /** The forecast tables after the whole fan-out loop, which ends at the first missing day. */
  function FanOutTables(m: map<Address, Table>, units: string): (r: map<Address, Table>)
    ensures r.Keys == m.Keys
  {
    RecodedBefore(m, units, FanOutStop(m.Keys, 1))
  }

  /** What the fan-out loop raises. */
  function FanOutError(keys: set<Address>): (err: Option<PyError>)
    ensures err.None? <==> forall d | 1 <= d <= 7 :: Forecast(d) in keys
    ensures err.Some? ==> err.value == KeyError
  {
    if FanOutStop(keys, 1) == 8 then None else Some(KeyError)
  }

  /**
   * With all seven forecast nodes there, each `forecast_d` (1 <= d <= 7) gets `set_units(units)`
   * and every other node keeps its table.
   */
  lemma FanOutAllPresent(m: map<Address, Table>, units: string)
    requires forall d | 1 <= d <= 7 :: Forecast(d) in m
    ensures FanOutTables(m, units).Keys == m.Keys
    ensures forall d | 1 <= d <= 7 :: FanOutTables(m, units)[Forecast(d)] == SetUnitsTable(m[Forecast(d)], units)
    ensures forall a | a in m && (forall d | 1 <= d <= 7 :: a != Forecast(d)) :: FanOutTables(m, units)[a] == m[a]
  {
    FanOutStopAt(m.Keys, 1, 8);
  }

  /**
   * `write_profile(logger, drivers)` takes two positional parameters; a call binds only with
   * exactly one argument after the logger and raises TypeError otherwise.
   */
  function WriteProfileBinding(args: seq<seq<Driver>>): (r: Result<seq<Driver>>)
    ensures r.Ok? <==> |args| == 1
    ensures r.Ok? ==> r.value == args[0]
    ensures r.Raise? ==> r.error == TypeError
  {
    if |args| == 1 then Ok(args[0]) else Raise(TypeError)
  }

  /** darksky.py:307 passes the forecast node's drivers as a third argument: the call always raises. */
  lemma ProfileCallAsWrittenRaises(rows: seq<Driver>, forecastRows: seq<Driver>)
    ensures WriteProfileBinding([rows, forecastRows]) == Raise(TypeError)
  {
  }

  /** Passing the controller's drivers alone binds them. */
  lemma ProfileCallBinds(rows: seq<Driver>)
    ensures WriteProfileBinding([rows]) == Ok(rows)
  {
  }

  /** The value of a custom parameter when it is given, and the current one otherwise. */
  function Setting(params: map<string, string>, key: string, current: string): (v: string)
    ensures key in params ==> v == params[key]
    ensures key !in params ==> v == current
  {
    if key in params then params[key] else current
  }

  /** The notices for empty required settings, in the order the source adds them. */
  function MissingNotices(location: string, apikey: string, keyNotice: string): (ns: seq<Notice>)
    ensures |ns| == (if location == "" then 1 else 0) + (if apikey == "" then 1 else 0)
    ensures ns == [] <==> location != "" && apikey != ""
    ensures location == "" ==> ns[0] == Notice(None, LocationNotice)
    ensures apikey == "" ==> ns[|ns| - 1] == Notice(None, keyNotice)
  {
    (if location == "" then [Notice(None, LocationNotice)] else [])
    + (if apikey == "" then [Notice(None, keyNotice)] else [])
  }

  /** The custom parameter names the controller reads. */
  const LocationKey := "Location"
  const ApiKeyKey := "APIkey"
  const UnitsKey := "Units"

  /** The notice texts for an empty location and an empty API key. */
  const LocationNotice := "Location parameter must be set"
  const ProcessConfigKeyNotice := "OpenWeatherMap API ID must be set"
  const CheckParamsKeyNotice := "DarkSky API ID must be set"

  /**
   * What the controller keeps of its configuration: location, API key and units, whether it
   * may query, the notices it shows, the custom parameters last seen (`myConfig`) and those it
   * saved back with `addCustomParam`.
   */
  datatype Settings = Settings(
    location: string, apikey: string, units: string, configured: bool,
    notices: seq<Notice>, myConfig: map<string, string>, saved: map<string, string>)

  const InitialSettings := Settings("", "", Imperial, false, [], map[], map[])

  /** Whether location, API key or units differ between two settings. */
  predicate Changed(s: Settings, t: Settings) {
    (s.location, s.apikey, s.units) != (t.location, t.apikey, t.units)
  }

  /** Replace the notices by those for empty required settings and say whether there are none. */
  function Renewed(s: Settings, keyNotice: string): (r: Settings)
    ensures r.configured <==> r.notices == []
    ensures r.configured == (s.location != "" && s.apikey != "")
    ensures r.notices == MissingNotices(s.location, s.apikey, keyNotice)
    ensures r.(notices := s.notices, configured := s.configured) == s
  {
    s.(notices := MissingNotices(s.location, s.apikey, keyNotice), configured := s.location != "" && s.apikey != "")
  }

  /** `process_config` before the drivers are recoded: each of Location, APIkey, Units given is taken over. */
  function TakeCustom(s: Settings, cp: map<string, string>): (r: Settings)
    ensures r.location == Setting(cp, LocationKey, s.location)
    ensures r.apikey == Setting(cp, ApiKeyKey, s.apikey)
    ensures r.units == Setting(cp, UnitsKey, s.units)
    ensures r.(location := s.location, apikey := s.apikey, units := s.units) == s
  {
    s.(location := Setting(cp, LocationKey, s.location), apikey := Setting(cp, ApiKeyKey, s.apikey),
       units := Setting(cp, UnitsKey, s.units))
  }

  /** `process_config` after the drivers are recoded: remember the parameters, renew the notices on a change. */
  function Remembered(s: Settings, cp: map<string, string>, changed: bool): (r: Settings)
    ensures r.myConfig == cp
    ensures (r.location, r.apikey, r.units, r.saved) == (s.location, s.apikey, s.units, s.saved)
    ensures changed ==> r == Renewed(s.(myConfig := cp), ProcessConfigKeyNotice)
    ensures !changed ==> r.configured == s.configured && r.notices == s.notices
  {
    if changed then Renewed(s.(myConfig := cp), ProcessConfigKeyNotice) else s.(myConfig := cp)
  }

  /**
   * The settings `process_config` leaves when the custom parameters `cp` differ from the last
   * ones seen; `failed` says the drivers' recoding raised, which ends the call before `myConfig`
   * and the notices are updated.
   */
  function ProcessedSettings(s: Settings, cp: map<string, string>, failed: bool): (r: Settings)
    ensures r.location == Setting(cp, LocationKey, s.location)
    ensures r.apikey == Setting(cp, ApiKeyKey, s.apikey)
    ensures r.units == Setting(cp, UnitsKey, s.units)
    ensures r.saved == s.saved
    ensures failed ==> r.configured == s.configured && r.notices == s.notices && r.myConfig == s.myConfig
    ensures !failed ==> r.myConfig == cp
    ensures !failed && Changed(s, r) ==>
      && r.configured == (r.location != "" && r.apikey != "")
      && r.notices == MissingNotices(r.location, r.apikey, ProcessConfigKeyNotice)
    ensures !failed && !Changed(s, r) ==> r.configured == s.configured && r.notices == s.notices
  {
    var t := TakeCustom(s, cp);
    if failed then t else Remembered(t, cp, Changed(s, t))
  }

  /**
   * The settings `check_params` leaves: Location and APIkey when given, Units or else `'us'`,
   * those three saved back over the saved parameters, and the notices renewed.
   */
  function CheckedSettings(s: Settings, params: map<string, string>): (r: Settings)
    ensures r.location == Setting(params, LocationKey, s.location)
    ensures r.apikey == Setting(params, ApiKeyKey, s.apikey)
    ensures r.units == Setting(params, UnitsKey, Imperial)
    ensures r.saved == s.saved[LocationKey := r.location][ApiKeyKey := r.apikey][UnitsKey := r.units]
    ensures r.configured == (r.location != "" && r.apikey != "")
    ensures r.notices == MissingNotices(r.location, r.apikey, CheckParamsKeyNotice)
    ensures r.myConfig == s.myConfig
  {
    var t := s.(location := Setting(params, LocationKey, s.location), apikey := Setting(params, ApiKeyKey, s.apikey),
                units := Setting(params, UnitsKey, Imperial));
    Renewed(t.(saved := t.saved[LocationKey := t.location][ApiKeyKey := t.apikey][UnitsKey := t.units]), CheckParamsKeyNotice)
  }

  /** The day index `query_conditions` reads for a forecast node. */
  datatype DayUpdate = DayUpdate(address: Address, index: nat)

  /** The request `query_conditions` sends and the forecast days it reads from the answer. */
  datatype Query = Query(url: string, days: seq<DayUpdate>)

  /**
   * `query_conditions` up to the network call: nothing is requested until the controller is
   * configured; the request names the API key, the location and the units; and the answer's
   * `daily.data[1]` .. `daily.data[7]` go to `forecast_1` .. `forecast_7`.
   */
  function QueryPlan(configured: bool, apikey: string, location: string, units: string): (q: Option<Query>)
    ensures q.None? <==> !configured
    ensures q.Some? ==> q.value.url == "https://api.darksky.net/forecast/" + apikey + "/" + location + "?units=" + units
    ensures q.Some? ==> |q.value.days| == 7
    ensures q.Some? ==> forall k | 0 <= k < 7 :: q.value.days[k] == DayUpdate(Forecast(k + 1), k + 1)
  {
    if !configured then None
    else Some(Query("https://api.darksky.net/forecast/" + apikey + "/" + location + "?units=" + units,
                    seq(7, k requires 0 <= k < 7 => DayUpdate(Forecast(k + 1), k + 1))))
  }

  /** Today's entry (`data[0]`) is never read, and no two days go to the same address text. */
  lemma QueryPlanDays(apikey: string, location: string, units: string)
    ensures forall k | 0 <= k < 7 :: 1 <= QueryPlan(true, apikey, location, units).value.days[k].index <= 7
    ensures forall j, k | 0 <= j < k < 7 ::
      AddressText(QueryPlan(true, apikey, location, units).value.days[j].address)
        != AddressText(QueryPlan(true, apikey, location, units).value.days[k].address)
  {
    var days := QueryPlan(true, apikey, location, units).value.days;
    forall j, k | 0 <= j < k < 7 ensures AddressText(days[j].address) != AddressText(days[k].address) {
      if AddressText(days[j].address) == AddressText(days[k].address) {
        ForecastTextInjective(j + 1, k + 1);
      }
    }
  }

  /** The table of every node at its address. */
  ghost function TablesOf(ns: map<Address, DailyNode>): (m: map<Address, Table>)
    reads ns.Values
    ensures m.Keys == ns.Keys
  {
    map a | a in ns :: ns[a].table
  }

  /** Every node sits at its own address, so no node object sits at two. */
  ghost predicate Distinct(ns: map<Address, DailyNode>)
  {
    forall a | a in ns :: ns[a].address == a
  }

  /**
   * What recoding the drivers touches: the controller's table, the table of every node by
   * address, and the driver lists handed to `write_profile` so far.
   */
  datatype DriverState = DriverState(table: Table, nodeTables: map<Address, Table>, profiles: seq<seq<Driver>>)

  /**
   * The drivers after `set_driver_units` / `set_cloud_driver_units` for `units`: the table
   * recoded, the forecast nodes given the units up to the first missing one, and, for a list
   * whose fan-out completed, the recoded list handed to `write_profile`.
   */
  function UnitsApplied(st: DriverState, units: string): (r: DriverState)
    ensures r.table == Recode(st.table, CodesFor(units))
    ensures r.nodeTables == FanOutTables(st.nodeTables, ForecastUnits(units))
    ensures r.profiles == if r.table.Rows? && FanOutError(st.nodeTables.Keys).None? then st.profiles + [r.table.rows] else st.profiles
  {
    var table := Recode(st.table, CodesFor(units));
    DriverState(table, FanOutTables(st.nodeTables, ForecastUnits(units)),
                if table.Rows? && FanOutError(st.nodeTables.Keys).None? then st.profiles + [table.rows] else st.profiles)
  }

  /** The tables of the seven nodes `start` adds, `forecast_1` .. `forecast_7`. */
  function NewForecastTables(keyed: bool): (m: map<Address, Table>)
    ensures m.Keys == Reached(8)
  {
    map a | a in Reached(8) :: InitialTable(keyed)
  }

  /** The drivers once `start` has added the seven forecast nodes, replacing any at those addresses. */
  function WithForecastNodes(st: DriverState, keyed: bool): DriverState
  {
    st.(nodeTables := st.nodeTables + NewForecastTables(keyed))
  }

  /**
   * After `start`'s `check_params`, which finds all seven forecast nodes: each has a new table with
   * the units applied, every other node keeps its table, and a list is handed to `write_profile`.
   */
  lemma StartedDrivers(st: DriverState, keyed: bool, units: string)
    ensures UnitsApplied(WithForecastNodes(st, keyed), units).nodeTables.Keys == st.nodeTables.Keys + Reached(8)
    ensures forall d | 1 <= d <= 7 ::
      UnitsApplied(WithForecastNodes(st, keyed), units).nodeTables[Forecast(d)] == SetUnitsTable(InitialTable(keyed), ForecastUnits(units))
    ensures forall a | a in st.nodeTables && a !in Reached(8) ::
      UnitsApplied(WithForecastNodes(st, keyed), units).nodeTables[a] == st.nodeTables[a]
    ensures UnitsApplied(WithForecastNodes(st, keyed), units).profiles ==
      if st.table.Rows? then st.profiles + [Recode(st.table, CodesFor(units)).rows] else st.profiles
  {
    var m := WithForecastNodes(st, keyed).nodeTables;
    var fu := ForecastUnits(units);
    forall d | 1 <= d <= 7
      ensures Forecast(d) in Reached(8) && m[Forecast(d)] == InitialTable(keyed)
    {
      assert Forecast(d) in Reached(8);
    }
    FanOutAllPresent(m, fu);
    assert UnitsApplied(WithForecastNodes(st, keyed), units).nodeTables == FanOutTables(m, fu);
    forall a | a in st.nodeTables && a !in Reached(8)
      ensures FanOutTables(m, fu)[a] == st.nodeTables[a]
    {
      assert forall d | 1 <= d <= 7 :: a != Forecast(d);
      assert m[a] == st.nodeTables[a];
    }
  }

  class Controller {
    const cloud: bool
    var settings: Settings
    var table: Table
    var nodes: map<Address, DailyNode>
    /** The driver lists handed to `write_profile`, oldest first. */
    var profileRequests: seq<seq<Driver>>

    /** The table kind follows the host library, and each node sits at its own address. */
    ghost predicate Valid()
      reads this`table, this`nodes
    {
      && (cloud <==> table.Keyed?)
      && Distinct(nodes)
    }

    ghost function NodeTables(): (m: map<Address, Table>)
      reads this`nodes, nodes.Values
      ensures m.Keys == nodes.Keys
    {
      TablesOf(nodes)
    }

    ghost function Drivers(): DriverState
      reads this`table, this`profileRequests, this`nodes, nodes.Values
    {
      DriverState(table, NodeTables(), profileRequests)
    }

    constructor (cloud: bool)
      ensures Valid() && this.cloud == cloud
      ensures settings == InitialSettings && nodes == map[] && profileRequests == []
      ensures table == (if cloud then Keyed(ToKeyed(DefaultDrivers)) else Rows(DefaultDrivers))
    {
      this.cloud := cloud;
      settings := InitialSettings;
      table := if cloud then Keyed(ToKeyed(DefaultDrivers)) else Rows(DefaultDrivers);
      nodes := map[];
      profileRequests := [];
    }

    /** `self.nodes['forecast_' + str(day)].set_units(u)` for day 1 .. 7, stopping at a missing node. */
    method FanOut(u: string) returns (err: Option<PyError>)
      requires Valid()
      modifies nodes.Values
      ensures Valid()
      ensures NodeTables() == FanOutTables(old(NodeTables()), u)
      ensures err == FanOutError(nodes.Keys)
    {
      var ns := nodes;
      ghost var before := TablesOf(ns);
      var day := 1;
      while day < 8
        invariant 1 <= day <= 8
        invariant forall d | 1 <= d < day :: Forecast(d) in ns
        invariant TablesOf(ns) == RecodedBefore(before, u, day)
      {
        var address := Forecast(day);
        if address !in ns {
          FanOutStopAt(ns.Keys, 1, day);
          return Some(KeyError);
        }
        var node := ns[address];
        node.SetUnits(u);
        assert Reached(day + 1) == Reached(day) + {address};
        forall a | a in ns
          ensures TablesOf(ns)[a] == RecodedBefore(before, u, day + 1)[a]
        {
          if a != address {
            assert ns[a].address != node.address;
          }
        }
        day := day + 1;
      }
      FanOutStopAt(ns.Keys, 1, 8);
      err := None;
    }

    /** `set_driver_units` (the local library): recode the list, fan out, hand the list to `write_profile`. */
    method SetDriverUnits() returns (err: Option<PyError>)
      requires Valid() && !cloud
      modifies this`table, this`profileRequests, nodes.Values
      ensures Valid()
      ensures Drivers() == UnitsApplied(old(Drivers()), settings.units)
      ensures err == FanOutError(nodes.Keys)
    {
      ghost var before := NodeTables();
      var out := RecodeList(table.rows, CodesFor(settings.units));
      table := Rows(out);
      assert NodeTables() == before;
      err := FanOut(ForecastUnits(settings.units));
      if err.None? {
        WriteProfile();
      }
    }

    /** darksky.py:307 with the call bound as `write_profile(logger, drivers)`: the list is handed over. */
    method WriteProfile()
      requires table.Rows?
      modifies this`profileRequests
      ensures Drivers() == old(Drivers()).(profiles := old(profileRequests) + [table.rows])
    {
      ghost var before := NodeTables();
      var bound := WriteProfileBinding([table.rows]);
      profileRequests := profileRequests + [bound.value];
      assert NodeTables() == before;
    }

    /** `set_cloud_driver_units` (the cloud library): recode the dictionary by key, fan out. */
    method SetCloudDriverUnits() returns (err: Option<PyError>)
      requires Valid() && cloud
      modifies this`table, nodes.Values
      ensures Valid()
      ensures Drivers() == UnitsApplied(old(Drivers()), settings.units)
      ensures err == FanOutError(nodes.Keys)
    {
      ghost var before := NodeTables();
      var out := RecodeDict(table.entries, CodesFor(settings.units));
      table := Keyed(out);
      assert NodeTables() == before;
      err := FanOut(ForecastUnits(settings.units));
    }

    /** The CLOUD switch: whichever of the two the host library calls for. */
    method ApplyUnits() returns (err: Option<PyError>)
      requires Valid()
      modifies this`table, this`profileRequests, nodes.Values
      ensures Valid()
      ensures Drivers() == UnitsApplied(old(Drivers()), settings.units)
      ensures err == FanOutError(nodes.Keys)
    {
      if cloud {
        err := SetCloudDriverUnits();
      } else {
        err := SetDriverUnits();
      }
    }

    /**
     * `process_config`. Nothing happens without custom parameters or when they equal the last
     * ones seen; otherwise the settings become `ProcessedSettings`, and a new Units value
     * recodes the drivers, whose exception (a missing forecast node) ends the call early.
     */
    method ProcessConfig(customParams: Option<map<string, string>>) returns (err: Option<PyError>)
      requires Valid()
      modifies this`settings, this`table, this`profileRequests, nodes.Values
      ensures Valid()
      ensures customParams.None? || customParams.value == old(settings.myConfig) ==>
        err.None? && settings == old(settings) && Drivers() == old(Drivers())
      ensures customParams.Some? && customParams.value != old(settings.myConfig) ==>
        && settings == ProcessedSettings(old(settings), customParams.value, err.Some?)
        && Drivers() == (if settings.units != old(settings.units) then UnitsApplied(old(Drivers()), settings.units) else old(Drivers()))
        && err == (if settings.units != old(settings.units) then FanOutError(nodes.Keys) else None)
    {
      err := None;
      if customParams.None? || customParams.value == settings.myConfig {
        return;
      }
      err := ProcessNewConfig(customParams.value);
    }

    /** `process_config` once the custom parameters differ from the last ones seen. */
    method ProcessNewConfig(cp: map<string, string>) returns (err: Option<PyError>)
      requires Valid()
      modifies this`settings, this`table, this`profileRequests, nodes.Values
      ensures Valid()
      ensures settings == ProcessedSettings(old(settings), cp, err.Some?)
      ensures Drivers() == if settings.units != old(settings.units) then UnitsApplied(old(Drivers()), settings.units) else old(Drivers())
      ensures err == if settings.units != old(settings.units) then FanOutError(nodes.Keys) else None
    {
      ghost var before := Drivers();
      var changed, unitsChanged := TakeConfig(cp);
      assert Drivers() == before;
      err := ApplyUnitsIf(unitsChanged);
      ghost var after := Drivers();
      RememberConfig(cp, changed, err.None?);
      assert Drivers() == after;
    }

    /** Lines 56-59 of `process_config`: the drivers are recoded only when the units changed. */
    method ApplyUnitsIf(unitsChanged: bool) returns (err: Option<PyError>)
      requires Valid()
      modifies this`table, this`profileRequests, nodes.Values
      ensures Valid()
      ensures Drivers() == if unitsChanged then UnitsApplied(old(Drivers()), settings.units) else old(Drivers())
      ensures err == if unitsChanged then FanOutError(nodes.Keys) else None
    {
      err := None;
      if unitsChanged {
        err := ApplyUnits();
      }
    }

    /** Lines 44-55 of `process_config`: take over each setting given that differs from the current one. */
    method TakeConfig(cp: map<string, string>) returns (changed: bool, unitsChanged: bool)
      modifies this`settings
      ensures settings == TakeCustom(old(settings), cp)
      ensures changed == Changed(old(settings), settings)
      ensures unitsChanged == (settings.units != old(settings.units))
    {
      changed, unitsChanged := false, false;
      if LocationKey in cp && settings.location != cp[LocationKey] {
        settings := settings.(location := cp[LocationKey]);
        changed := true;
      }
      if ApiKeyKey in cp && settings.apikey != cp[ApiKeyKey] {
        settings := settings.(apikey := cp[ApiKeyKey]);
        changed := true;
      }
      if UnitsKey in cp && settings.units != cp[UnitsKey] {
        settings := settings.(units := cp[UnitsKey]);
        changed := true;
        unitsChanged := true;
      }
    }

    /**
     * Lines 61-71 of `process_config`, reached only when the recoding did not raise: remember
     * the parameters; on a change, renew the notices.
     */
    method RememberConfig(cp: map<string, string>, changed: bool, reached: bool)
      modifies this`settings
      ensures settings == if reached then Remembered(old(settings), cp, changed) else old(settings)
    {
      if reached {
        settings := settings.(myConfig := cp);
        if changed {
          RenewNotices(ProcessConfigKeyNotice);
        }
      }
    }

    /** `check_params`: the settings become `CheckedSettings`, then the drivers are recoded. */
    method CheckParams(params: map<string, string>) returns (err: Option<PyError>)
      requires Valid()
      modifies this`settings, this`table, this`profileRequests, nodes.Values
      ensures Valid()
      ensures settings == CheckedSettings(old(settings), params)
      ensures Drivers() == UnitsApplied(old(Drivers()), settings.units)
      ensures err == FanOutError(nodes.Keys)
    {
      ghost var before := Drivers();
      TakeParams(params);
      assert Drivers() == before;
      err := ApplyUnits();
    }

    /** The settings half of `check_params`, before the drivers are recoded. */
    method TakeParams(params: map<string, string>)
      modifies this`settings
      ensures settings == CheckedSettings(old(settings), params)
    {
      if LocationKey in params {
        settings := settings.(location := params[LocationKey]);
      }
      if ApiKeyKey in params {
        settings := settings.(apikey := params[ApiKeyKey]);
      }
      if UnitsKey in params {
        settings := settings.(units := params[UnitsKey]);
      } else {
        settings := settings.(units := Imperial);
      }
      assert settings == old(settings).(location := Setting(params, LocationKey, old(settings.location)),
        apikey := Setting(params, ApiKeyKey, old(settings.apikey)), units := Setting(params, UnitsKey, Imperial));
      settings := settings.(saved := settings.saved[LocationKey := settings.location][ApiKeyKey := settings.apikey][UnitsKey := settings.units]);
      RenewNotices(CheckParamsKeyNotice);
    }

    /**
     * `removeNoticesAll` and `configured = True`, then a notice for an empty location and one
     * for an empty API key, each of which also clears `configured`.
     */
    method RenewNotices(keyNotice: string)
      modifies this`settings
      ensures settings == Renewed(old(settings), keyNotice)
    {
      var notices: seq<Notice> := [];
      var configured := true;
      if settings.location == "" {
        notices := notices + [Notice(None, LocationNotice)];
        configured := false;
      }
      if settings.apikey == "" {
        notices := notices + [Notice(None, keyNotice)];
        configured := false;
      }
      settings := settings.(notices := notices, configured := configured);
    }

    /**
     * The loop of `start`: a new forecast node for each of `forecast_1` .. `forecast_7`, each
     * replacing whatever node had that address; other nodes stay.
     */
    method AddForecastNodes()
      requires Valid()
      modifies this`nodes
      ensures Valid()
      ensures NodeTables() == old(NodeTables()) + NewForecastTables(cloud)
      ensures forall a | a in nodes ::
        if a in Reached(8) then fresh(nodes[a]) else a in old(nodes) && nodes[a] == old(nodes)[a]
    {
      var day := 1;
      while day < 8
        invariant 1 <= day <= 8 && Valid()
        invariant nodes.Keys == old(nodes.Keys) + Reached(day)
        invariant forall a | a in nodes ::
          if a in Reached(day) then fresh(nodes[a]) && nodes[a].table == InitialTable(cloud)
          else a in old(nodes) && nodes[a] == old(nodes)[a]
      {
        var address := Forecast(day);
        var node := new DailyNode(address, cloud);
        nodes := nodes[address := node];
        assert Reached(day + 1) == Reached(day) + {address};
        day := day + 1;
      }
      assert NodeTables() == old(NodeTables()) + NewForecastTables(cloud);
    }

    /**
     * `start`: add `forecast_1` .. `forecast_7`, then `check_params`, which then finds all seven
     * nodes and so raises nothing; the first query's request, if any, is returned.
     */
    method Start(params: map<string, string>) returns (err: Option<PyError>, query: Option<Query>)
      requires Valid()
      modifies this`settings, this`table, this`profileRequests, this`nodes, nodes.Values
      ensures Valid() && err.None?
      ensures settings == CheckedSettings(old(settings), params)
      ensures Drivers() == UnitsApplied(WithForecastNodes(old(Drivers()), cloud), settings.units)
      ensures forall a | a in Reached(8) :: a in nodes && fresh(nodes[a])
      ensures query == QueryPlan(settings.configured, settings.apikey, settings.location, settings.units)
    {
      ghost var before := Drivers();
      AddForecastNodes();
      assert Drivers() == WithForecastNodes(before, cloud);
      err := CheckParams(params);
      query := QueryPlan(settings.configured, settings.apikey, settings.location, settings.units);
    }
  }
}
