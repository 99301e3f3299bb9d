/**
 * The newer forecast node (`nodes/darksky_daily.py`): its declared drivers, `set_driver_uom`,
 * and `update_forecast`, which shows one day of the weather service's daily forecast and then
 * that day's reference evapotranspiration (ETo).
 */
module ForecastNode {
  import opened Wrappers
  import opened Text
  import opened Json
  import opened Numeric
  import opened Drivers
  import opened Readings
  import opened Calendar
  import opened Hub

  /** The declared drivers (nodes/darksky_daily.py:19-38). */
  const ForecastDrivers: seq<Driver> := [
    Driver("GV19", 0.0, 25), Driver("GV0", 0.0, 4), Driver("GV1", 0.0, 4),
    Driver("CLIHUM", 0.0, 22), Driver("DEWPT", 0.0, 4), Driver("BARPRES", 0.0, 117),
    Driver("GV13", 0.0, 25), Driver("GV14", 0.0, 22), Driver("GV4", 0.0, 49),
    Driver("GV5", 0.0, 49), Driver("WINDDIR", 0.0, 76), Driver("GV7", 0.0, 82),
    Driver("GV18", 0.0, 22), Driver("UV", 0.0, 71), Driver("GV10", 0.0, 56),
    Driver("DISTANC", 0.0, 83), Driver("GV9", 0.0, 56), Driver("GV20", 0.0, 106)
  ]

  const WeekdayId := "GV19"
  const PrecipitationId := "GV7"
  const EtoId := "GV20"

  const MinKey := "temperatureMin"
  const MaxKey := "temperatureMax"
  const HumidityKey := "humidity"
  const WindKey := "windSpeed"
  const AccumulationKey := "precipAccumulation"

  /** The unit strings `self.units` is compared with for the ETo display. */
  const MetricName := "metric"
  const MetricPrefix := "m"

  /** The try block of `update_forecast`, in order, with the weekday computed before it. */
  function DayReadings(weekday: int): seq<Reading>
  {
    [Rounded("CLIHUM", HumidityKey, 100.0), Raw("BARPRES", "pressure"), Raw("GV0", MaxKey),
     Raw("GV1", MinKey), Condition("GV13", "icon"), Rounded("GV14", "cloudCover", 100.0),
     Raw("UV", "uvIndex"), Number("GV18", "precipProbability", 100.0),
     Fixed(WeekdayId, weekday as real), Raw("DEWPT", "dewPoint"), Raw("GV4", WindKey),
     Raw("GV5", "windGust"), Raw("WINDDIR", "windBearing"),
     Accumulation(PrecipitationId, AccumulationKey), Raw("GV10", "ozone"),
     Raw("DISTANC", "visibility"), Raw("GV9", "moonPhase")]
  }

  /**
   * The try block names seventeen drivers, none twice and GV20 never; the weekday is its ninth
   * step and the precipitation its fourteenth.
   */
  lemma DayReadingsDrivers(weekday: int)
    ensures |DayReadings(weekday)| == 17
    ensures forall j, k | 0 <= j < k < 17 :: DayReadings(weekday)[j].driver != DayReadings(weekday)[k].driver
    ensures forall k | 0 <= k < 17 :: DayReadings(weekday)[k].driver != EtoId
    ensures DayReadings(weekday)[8] == Fixed(WeekdayId, weekday as real)
    ensures DayReadings(weekday)[13] == Accumulation(PrecipitationId, AccumulationKey)
  {
    var rs := DayReadings(weekday);
    var ids := seq(17, k requires 0 <= k < 17 => rs[k].driver);
    assert ids == ["CLIHUM", "BARPRES", "GV0", "GV1", "GV13", "GV14", "UV", "GV18", "GV19", "DEWPT",
                   "GV4", "GV5", "WINDDIR", "GV7", "GV10", "DISTANC", "GV9"];
  }

  /** Once the try block has run to its end, a step's driver shows that step's value. */
  lemma DayStepShown(rows: seq<Driver>, jdata: Json, weekday: int, k: nat, i: nat)
    requires k < 17 && i < |rows| && rows[i].id == DayReadings(weekday)[k].driver
    requires DayComplete(jdata, weekday)
    ensures ValueOf(DayReadings(weekday)[k], jdata).Some?
    ensures Apply(rows, DayReadings(weekday), jdata).rows[i].value == ValueOf(DayReadings(weekday)[k], jdata).value
  {
    DayReadingsDrivers(weekday);
    ApplyCompletes(rows, DayReadings(weekday), jdata);
    ApplySets(rows, DayReadings(weekday), jdata, k, i);
  }

  /** A driver other than GV20 ends an update as the try block left it. */
  lemma AfterDayReadings(rows: seq<Driver>, nodeUnits: Option<string>, jdata: Json, latitude: Json,
                         elevation: string, plantType: string, units: string, num: Numerics, i: nat)
    requires i < |rows| && rows[i].id != EtoId && DayOfWeek(jdata).Ok?
    ensures UpdatedForecast(rows, nodeUnits, jdata, latitude, elevation, plantType, units, num).rows[i]
      == Apply(rows, DayReadings(DayOfWeek(jdata).value), jdata).rows[i]
  {
    ApplyKeeps(rows, DayReadings(DayOfWeek(jdata).value), jdata);
  }

  /**
   * `float(jdata[key])` for the ETo inputs: a missing key or a record that is not a dict as
   * `jdata[key]` raises; then a number is taken as it is, a string is parsed (ValueError where
   * it is no number), and anything else raises TypeError.
   */
  function FloatField(jdata: Json, key: string): (r: Result<real>)
    ensures Member(jdata, key).None? ==> r.Raise? && r.error == (if jdata.Obj? then KeyError else TypeError)
    ensures Member(jdata, key).Some? && jdata.fields[key].Num? ==> r == Ok(jdata.fields[key].n)
    ensures Member(jdata, key).Some? && jdata.fields[key].Str? ==>
      (r.Ok? <==> ParseFloat(jdata.fields[key].s).Some?)
      && (r.Ok? ==> r.value == ParseFloat(jdata.fields[key].s).value)
      && (r.Raise? ==> r.error == ValueError)
    ensures Member(jdata, key).Some? && !jdata.fields[key].Num? && !jdata.fields[key].Str? ==>
      r == Raise(TypeError)
  {
    match Lookup(jdata, key)
    case Raise(e) => Raise(e)
    case Ok(v) => Float(v)
  }

  /** Python `float(s)` on a parameter string: ValueError where it does not read as a number. */
  function FloatParam(s: string): (r: Result<real>)
    ensures r.Ok? <==> ParseFloat(s).Some?
    ensures r.Ok? ==> r.value == ParseFloat(s).value
    ensures r.Raise? ==> r.error == ValueError
  {
    if ParseFloat(s).Some? then Ok(ParseFloat(s).value) else Raise(ValueError)
  }

  /** The arguments of `et3.evapotranspriation`, in order; the constant `None` is left out. */
  datatype EtInputs = EtInputs(
    tmax: real, tmin: real, ws: real, elevation: real, hmax: real, hmin: real,
    latitude: Json, plantType: real, yearDay: int)

  /**
   * What the module `et3` and the host's local time zone compute, which this model does not:
   * Fahrenheit to Celsius, miles per hour to metres per second, the ETo in millimetres, and the
   * local day of the year of a POSIX time (`datetime.datetime.fromtimestamp(t).timetuple().tm_yday`).
   */
  datatype Numerics = Numerics(
    ftoC: real -> real, mph2ms: real -> real, evapotranspiration: EtInputs -> real,
    yearDay: real -> int)

  /** `datetime.datetime.fromtimestamp(jdata['time'])`: a string time raises TypeError. */
  function YearDay(jdata: Json, num: Numerics): (r: Result<int>)
    ensures r.Ok? <==> Member(jdata, TimeKey).Some? && jdata.fields[TimeKey].Num?
    ensures r.Ok? ==> r.value == num.yearDay(jdata.fields[TimeKey].n)
  {
    match Lookup(jdata, TimeKey)
    case Raise(e) => Raise(e)
    case Ok(t) => if t.Num? then Ok(num.yearDay(t.n)) else Raise(TypeError)
  }

  /**
   * The ETo inputs (nodes/darksky_daily.py:92-104): the record's temperatures, humidity and wind,
   * with the temperatures and the wind converted to metric unless `units` is `'si'`, then the
   * elevation and plant type read as numbers; the first read that raises ends the call.
   */
  function EtArguments(jdata: Json, latitude: Json, elevation: string, plantType: string,
                       units: string, num: Numerics): (r: Result<EtInputs>)
    ensures r.Ok? <==>
      && FloatField(jdata, MinKey).Ok? && FloatField(jdata, MaxKey).Ok?
      && FloatField(jdata, HumidityKey).Ok? && FloatField(jdata, WindKey).Ok?
      && YearDay(jdata, num).Ok? && ParseFloat(elevation).Some? && ParseFloat(plantType).Some?
  {
    var tmin, tmax := FloatField(jdata, MinKey), FloatField(jdata, MaxKey);
    var h, ws := FloatField(jdata, HumidityKey), FloatField(jdata, WindKey);
    var day, elev, plant := YearDay(jdata, num), FloatParam(elevation), FloatParam(plantType);
    if tmin.Raise? then Raise(tmin.error)
    else if tmax.Raise? then Raise(tmax.error)
    else if h.Raise? then Raise(h.error)
    else if ws.Raise? then Raise(ws.error)
    else if day.Raise? then Raise(day.error)
    else if elev.Raise? then Raise(elev.error)
    else if plant.Raise? then Raise(plant.error)
    else if units != Metric then
      Ok(EtInputs(num.ftoC(tmax.value), num.ftoC(tmin.value), num.mph2ms(ws.value), elev.value,
                  h.value, h.value, latitude, plant.value, day.value))
    else
      Ok(EtInputs(tmax.value, tmin.value, ws.value, elev.value, h.value, h.value, latitude,
                  plant.value, day.value))
  }

  /**
   * The temperatures and the wind are converted exactly when the `units` argument is not
   * `'si'`; the humidity is both the minimum and the maximum.
   */
  lemma EtConversion(jdata: Json, latitude: Json, elevation: string, plantType: string,
                     units: string, num: Numerics, tmin: real, tmax: real, h: real, ws: real)
    requires jdata.Obj? && MinKey in jdata.fields && MaxKey in jdata.fields
    requires HumidityKey in jdata.fields && WindKey in jdata.fields
    requires jdata.fields[MinKey] == Num(tmin) && jdata.fields[MaxKey] == Num(tmax)
    requires jdata.fields[HumidityKey] == Num(h) && jdata.fields[WindKey] == Num(ws)
    requires EtArguments(jdata, latitude, elevation, plantType, units, num).Ok?
    ensures var a := EtArguments(jdata, latitude, elevation, plantType, units, num).value;
      && (a.tmin, a.tmax, a.ws) == (if units != Metric then (num.ftoC(tmin), num.ftoC(tmax), num.mph2ms(ws)) else (tmin, tmax, ws))
      && a.hmin == h && a.hmax == h && a.latitude == latitude
  {
  }

  /** `self.units == 'metric' or self.units == 'si' or self.units.startswith('m')`. */
  predicate MetricDisplay(nodeUnits: string)
  {
    nodeUnits == MetricName || nodeUnits == Metric || StartsWith(nodeUnits, MetricPrefix)
  }

  /** The `'metric'` test is implied by the prefix test: the branch is `'si'` or a leading `m`. */
  lemma MetricDisplayIff(nodeUnits: string)
    ensures MetricDisplay(nodeUnits) <==> nodeUnits == Metric || (|nodeUnits| > 0 && nodeUnits[0] == 'm')
  {
    if nodeUnits == MetricName {
      assert nodeUnits[..1] == MetricPrefix;
    }
    if |nodeUnits| > 0 && nodeUnits[0] == 'm' {
      assert nodeUnits[..1] == MetricPrefix;
    }
  }

  /** The GV20 value: millimetres to two places, or inches to three. */
  function EtoShown(nodeUnits: string, et0: real): real
  {
    if MetricDisplay(nodeUnits) then RoundPlaces(et0, 2) else RoundPlaces(MmToInch(et0), 3)
  }

  /** The drivers after an update, and the exception that escaped it. */
  datatype Update = Update(rows: seq<Driver>, err: Option<PyError>)

  /**
   * `update_forecast` on the drivers `rows` of a node whose `self.units` is `nodeUnits` (None
   * before `set_driver_uom`): the weekday is read outside the try block, so its error escapes
   * with nothing changed; the try block runs until its first raise, which is swallowed; the ETo
   * inputs are read outside it again, and the ETo display reads `self.units`.
   */
  function UpdatedForecast(rows: seq<Driver>, nodeUnits: Option<string>, jdata: Json, latitude: Json,
                           elevation: string, plantType: string, units: string, num: Numerics): (u: Update)
    ensures |u.rows| == |rows|
  {
    match DayOfWeek(jdata)
    case Raise(e) => Update(rows, Some(e))
    case Ok(dow) =>
      var tried := Apply(rows, DayReadings(dow), jdata).rows;
      match EtArguments(jdata, latitude, elevation, plantType, units, num)
      case Raise(e) => Update(tried, Some(e))
      case Ok(args) =>
        if nodeUnits.None? then Update(tried, Some(AttributeError))
        else Update(SetValue(tried, EtoId, EtoShown(nodeUnits.value, num.evapotranspiration(args))), None)
  }

  /**
   * No failure inside the try block escapes: `update_forecast` raises exactly when the weekday,
   * an ETo input or `self.units` cannot be read.
   */
  lemma UpdateRaises(rows: seq<Driver>, nodeUnits: Option<string>, jdata: Json, latitude: Json,
                     elevation: string, plantType: string, units: string, num: Numerics)
    ensures UpdatedForecast(rows, nodeUnits, jdata, latitude, elevation, plantType, units, num).err.None?
      <==> DayOfWeek(jdata).Ok? && EtArguments(jdata, latitude, elevation, plantType, units, num).Ok? && nodeUnits.Some?
    ensures DayOfWeek(jdata).Raise? ==>
      UpdatedForecast(rows, nodeUnits, jdata, latitude, elevation, plantType, units, num) == Update(rows, Some(DayOfWeek(jdata).error))
  {
  }

  /** Every step of the try block reads its value without raising. */
  predicate DayComplete(jdata: Json, weekday: int)
  {
    forall k | 0 <= k < |DayReadings(weekday)| :: ValueOf(DayReadings(weekday)[k], jdata).Some?
  }

  /**
   * After a try block that ran to its end, the weekday driver shows the UTC `%w` weekday of
   * the record's time, whatever happens after the block.
   */
  lemma WeekdayShown(rows: seq<Driver>, nodeUnits: Option<string>, jdata: Json, latitude: Json,
                     elevation: string, plantType: string, units: string, num: Numerics, i: nat)
    requires i < |rows| && rows[i].id == WeekdayId
    requires DayOfWeek(jdata).Ok? && DayComplete(jdata, DayOfWeek(jdata).value)
    ensures 0 <= DayOfWeek(jdata).value <= 6
    ensures UpdatedForecast(rows, nodeUnits, jdata, latitude, elevation, plantType, units, num).rows[i].value
      == DayOfWeek(jdata).value as real
  {
    var w := DayOfWeek(jdata).value;
    DayReadingsDrivers(w);
    DayStepShown(rows, jdata, w, 8, i);
    AfterDayReadings(rows, nodeUnits, jdata, latitude, elevation, plantType, units, num, i);
  }

  /**
   * After a try block that ran to its end, GV7 shows `precipAccumulation` when the record has
   * it and 0 when it does not.
   */
  lemma PrecipitationShown(rows: seq<Driver>, nodeUnits: Option<string>, jdata: Json, latitude: Json,
                           elevation: string, plantType: string, units: string, num: Numerics, i: nat)
    requires i < |rows| && rows[i].id == PrecipitationId
    requires DayOfWeek(jdata).Ok? && DayComplete(jdata, DayOfWeek(jdata).value)
    ensures jdata.Obj? && (AccumulationKey in jdata.fields ==> jdata.fields[AccumulationKey].Num?)
    ensures UpdatedForecast(rows, nodeUnits, jdata, latitude, elevation, plantType, units, num).rows[i].value
      == if AccumulationKey in jdata.fields then jdata.fields[AccumulationKey].n else 0.0
  {
    var w := DayOfWeek(jdata).value;
    DayReadingsDrivers(w);
    DayStepShown(rows, jdata, w, 13, i);
    AfterDayReadings(rows, nodeUnits, jdata, latitude, elevation, plantType, units, num, i);
  }

  /**
   * A completed update shows the ETo in the unit `self.units` selects, millimetres to two
   * places or inches to three; the `units` argument only decides the conversion of the inputs.
   */
  lemma EtoDisplay(rows: seq<Driver>, nodeUnits: Option<string>, jdata: Json, latitude: Json,
                   elevation: string, plantType: string, units: string, num: Numerics, i: nat)
    requires i < |rows| && rows[i].id == EtoId
    requires UpdatedForecast(rows, nodeUnits, jdata, latitude, elevation, plantType, units, num).err.None?
    ensures nodeUnits.Some? && EtArguments(jdata, latitude, elevation, plantType, units, num).Ok?
    ensures var et0 := num.evapotranspiration(EtArguments(jdata, latitude, elevation, plantType, units, num).value);
      UpdatedForecast(rows, nodeUnits, jdata, latitude, elevation, plantType, units, num).rows[i].value
        == if MetricDisplay(nodeUnits.value) then RoundPlaces(et0, 2) else RoundPlaces(MmToInch(et0), 3)
  {
    ApplyKeeps(rows, DayReadings(DayOfWeek(jdata).value), jdata);
  }

  /**
   * The display follows the node's stored units, not the argument: a node set to `'us'`
   * shows inches even when called with `'si'`.
   */
  lemma EtoDisplayIgnoresArgument(rows: seq<Driver>, jdata: Json, latitude: Json,
                                  elevation: string, plantType: string, num: Numerics, i: nat)
    requires i < |rows| && rows[i].id == EtoId
    requires UpdatedForecast(rows, Some(Imperial), jdata, latitude, elevation, plantType, Metric, num).err.None?
    ensures var et0 := num.evapotranspiration(EtArguments(jdata, latitude, elevation, plantType, Metric, num).value);
      UpdatedForecast(rows, Some(Imperial), jdata, latitude, elevation, plantType, Metric, num).rows[i].value
        == RoundPlaces(MmToInch(et0), 3)
  {
    EtoDisplay(rows, Some(Imperial), jdata, latitude, elevation, plantType, Metric, num, i);
    MetricDisplayIff(Imperial);
  }

  class DailyNode {
    const address: Address
    /** The node's drivers. */
    var table: seq<Driver>
    /** `self.units`, unset until `set_driver_uom` runs. */
    var units: Option<string>
    /** `self.uom`, the table `uom.get_uom(units)` selects; `nodes/uom.py` is not part of this model. */
    var uom: Option<map<string, int>>

    constructor (address: Address)
      ensures this.address == address && table == ForecastDrivers
      ensures units.None? && uom.None?
    {
      this.address := address;
      table := ForecastDrivers;
      units := None;
      uom := None;
    }

    /** `set_driver_uom(units)` with `selected == uom.get_uom(units)`: both are stored, no driver changes. */
    method SetDriverUom(units: string, selected: map<string, int>)
      modifies this
      ensures this.units == Some(units) && uom == Some(selected)
      ensures table == old(table)
    {
      uom := Some(selected);
      this.units := Some(units);
    }

    /** `update_forecast(jdata, latitude, elevation, plant_type, units, force)`. */
    method UpdateForecast(jdata: Json, latitude: Json, elevation: string, plantType: string,
                          units: string, num: Numerics) returns (err: Option<PyError>)
      modifies this`table
      ensures Update(table, err) == UpdatedForecast(old(table), this.units, jdata, latitude, elevation, plantType, units, num)
    {
      var day := DayOfWeek(jdata);
      if day.Raise? {
        return Some(day.error);
      }
      table := Apply(table, DayReadings(day.value), jdata).rows;
      var args := EtArguments(jdata, latitude, elevation, plantType, units, num);
      if args.Raise? {
        return Some(args.error);
      }
      if this.units.None? {
        return Some(AttributeError);
      }
      var et0 := num.evapotranspiration(args.value);
      table := SetValue(table, EtoId, EtoShown(this.units.value, et0));
      err := None;
    }
  }
}
