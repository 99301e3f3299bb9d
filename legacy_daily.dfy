/** The forecast node of the first controller (`darksky_daily.py`). */
module LegacyDaily {
  import opened Wrappers
  import opened Drivers
  import opened Hub

  /** The node's declared drivers (darksky_daily.py:19-29). */
  const DailyDrivers: seq<Driver> := [
    Driver("GV19", 0.0, 25), Driver("GV1", 0.0, 4), Driver("GV2", 0.0, 4),
    Driver("GV18", 0.0, 22), Driver("CLIHUM", 0.0, 22), Driver("BARPRES", 0.0, 117),
    Driver("GV13", 0.0, 25), Driver("GV14", 0.0, 22), Driver("GV16", 0.0, 71)
  ]

  /** The uoms `set_units` gives for `'us'` (darksky_daily.py:34-38) and for `'si'` (39-43). */
  const DailyUsCodes: map<string, int> := map["BARPRES" := 117, "GV1" := 17, "GV2" := 17, "GV19" := 25]
  const DailySiCodes: map<string, int> := map["BARPRES" := 118, "GV1" := 4, "GV2" := 4, "GV19" := 25]

  /** The uoms `set_units` gives for `'us'` and for `'si'`; any other string has no arm. */
  function UnitsCodes(units: string): (r: Option<map<string, int>>)
    ensures r.Some? <==> units == Imperial || units == Metric
    ensures units == Imperial ==> r == Some(DailyUsCodes)
    ensures units == Metric ==> r == Some(DailySiCodes)
  {
    if units == Imperial then Some(DailyUsCodes)
    else if units == Metric then Some(DailySiCodes)
    else None
  }

  /** The table after `set_units(units)`. */
  function SetUnitsTable(t: Table, units: string): Table
  {
    match UnitsCodes(units)
    case None => t
    case Some(codes) => Recode(t, codes)
  }

  /**
   * A new node's table: the nine declared drivers, as a list or keyed by driver id, each with
   * its declared value and uom and no key besides theirs.
   */
  function InitialTable(keyed: bool): (t: Table)
    ensures t.Keyed? <==> keyed
    ensures !keyed ==> t.rows == DailyDrivers
    ensures keyed ==> forall i | 0 <= i < |DailyDrivers| ::
      DailyDrivers[i].id in t.entries && t.entries[DailyDrivers[i].id] == Entry(DailyDrivers[i].value, DailyDrivers[i].uom)
    ensures keyed ==> forall id | id in t.entries :: exists i | 0 <= i < |DailyDrivers| :: DailyDrivers[i].id == id
  {
    DailyDistinct();
    ToKeyedEntries(DailyDrivers);
    ToKeyedKeys(DailyDrivers);
    if keyed then Keyed(ToKeyed(DailyDrivers)) else Rows(DailyDrivers)
  }

  /** The declared drivers have nine distinct ids. */
  lemma DailyDistinct()
    ensures |DailyDrivers| == 9 && DistinctIds(DailyDrivers)
  {
  }

  /** The forecast node. Its driver table is kept one way or the other, as `Drivers` explains. */
  class DailyNode {
    const address: Address
    var table: Table

    constructor (address: Address, keyed: bool)
      ensures this.address == address
      ensures table == InitialTable(keyed)
    {
      this.address := address;
      table := InitialTable(keyed);
    }

    /**
     * `set_units`. On a list the first loop rewrites each record in turn. On a dictionary the
     * first loop raises TypeError at the first key it indexes, before any change, and the
     * handler's loop rewrites the entries by key.
     */
    method SetUnits(units: string)
      modifies this
      ensures table == SetUnitsTable(old(table), units)
    {
      match table
      case Rows(rows) =>
        var out := rows;
        var i := 0;
        while i < |out|
          invariant 0 <= i <= |out| == |rows|
          invariant forall k | 0 <= k < i :: out[k] == SetUnitsRow(rows[k], units)
          invariant forall k | i <= k < |out| :: out[k] == rows[k]
        {
          var d := out[i];
          if units == Imperial {
            if d.id == "BARPRES" { d := d.(uom := 117); }
            if d.id == "GV1" { d := d.(uom := 17); }
            if d.id == "GV2" { d := d.(uom := 17); }
            if d.id == "GV19" { d := d.(uom := 25); }
          } else if units == Metric {
            if d.id == "BARPRES" { d := d.(uom := 118); }
            if d.id == "GV1" { d := d.(uom := 4); }
            if d.id == "GV2" { d := d.(uom := 4); }
            if d.id == "GV19" { d := d.(uom := 25); }
          }
          out := out[i := d];
          i := i + 1;
        }
        table := Rows(out);
        assert out == SetUnitsRows(rows, units);
      case Keyed(entries) =>
        var out := entries;
        var todo := entries.Keys;
        while todo != {}
          invariant todo <= entries.Keys && out.Keys == entries.Keys
          invariant forall id | id in entries && id !in todo :: out[id] == SetUnitsEntry(id, entries[id], units)
          invariant forall id | id in todo :: out[id] == entries[id]
          decreases todo
        {
          var drv :| drv in todo;
          var e := out[drv];
          if units == Imperial {
            if drv == "BARPRES" { e := e.(uom := 117); }
            if drv == "GV1" { e := e.(uom := 17); }
            if drv == "GV2" { e := e.(uom := 17); }
            if drv == "GV19" { e := e.(uom := 25); }
          } else if units == Metric {
            if drv == "BARPRES" { e := e.(uom := 118); }
            if drv == "GV1" { e := e.(uom := 4); }
            if drv == "GV2" { e := e.(uom := 4); }
            if drv == "GV19" { e := e.(uom := 25); }
          }
          out := out[drv := e];
          todo := todo - {drv};
        }
        table := Keyed(out);
        assert out == SetUnitsEntries(entries, units);
    }
  }

  function SetUnitsRow(d: Driver, units: string): Driver
  {
    match UnitsCodes(units)
    case None => d
    case Some(codes) => RecodeRow(d, codes)
  }

  function SetUnitsRows(rows: seq<Driver>, units: string): seq<Driver>
  {
    SetUnitsTable(Rows(rows), units).rows
  }

  function SetUnitsEntry(id: string, e: Entry, units: string): Entry
  {
    match UnitsCodes(units)
    case None => e
    case Some(codes) => RecodeEntry(id, e, codes)
  }

  function SetUnitsEntries(entries: map<string, Entry>, units: string): map<string, Entry>
  {
    SetUnitsTable(Keyed(entries), units).entries
  }

  /** `'us'` on the declared list: BARPRES 117, GV1 and GV2 17, GV19 25, everything else as declared. */
  lemma SetUnitsUs()
    ensures SetUnitsTable(Rows(DailyDrivers), Imperial) == Rows([
      Driver("GV19", 0.0, 25), Driver("GV1", 0.0, 17), Driver("GV2", 0.0, 17),
      Driver("GV18", 0.0, 22), Driver("CLIHUM", 0.0, 22), Driver("BARPRES", 0.0, 117),
      Driver("GV13", 0.0, 25), Driver("GV14", 0.0, 22), Driver("GV16", 0.0, 71)])
  {
    var r := SetUnitsTable(Rows(DailyDrivers), Imperial).rows;
    RecodeRowsSpec(DailyDrivers, UnitsCodes(Imperial).value);
    assert r[1].uom == 17 && r[2].uom == 17;
  }

  /** `'si'` on the declared list: BARPRES 118, GV1 and GV2 4, GV19 25. */
  lemma SetUnitsSi()
    ensures SetUnitsTable(Rows(DailyDrivers), Metric) == Rows([
      Driver("GV19", 0.0, 25), Driver("GV1", 0.0, 4), Driver("GV2", 0.0, 4),
      Driver("GV18", 0.0, 22), Driver("CLIHUM", 0.0, 22), Driver("BARPRES", 0.0, 118),
      Driver("GV13", 0.0, 25), Driver("GV14", 0.0, 22), Driver("GV16", 0.0, 71)])
  {
    var r := SetUnitsTable(Rows(DailyDrivers), Metric).rows;
    RecodeRowsSpec(DailyDrivers, UnitsCodes(Metric).value);
    assert r[5].uom == 118;
  }

  /** On any table, any units: a string other than `'us'` or `'si'` changes nothing. */
  lemma SetUnitsUnknown(t: Table, units: string)
    requires units != Imperial && units != Metric
    ensures SetUnitsTable(t, units) == t
  {
  }

  /**
   * On any list, under any units: the length, the order, every id and every value are kept,
   * and a driver other than BARPRES, GV1, GV2 and GV19 (so GV18, CLIHUM, GV13, GV14, GV16) keeps
   * its uom.
   */
  lemma SetUnitsKeeps(rows: seq<Driver>, units: string)
    ensures |SetUnitsRows(rows, units)| == |rows|
    ensures forall i | 0 <= i < |rows| ::
      && SetUnitsRows(rows, units)[i].id == rows[i].id
      && SetUnitsRows(rows, units)[i].value == rows[i].value
      && (rows[i].id !in {"BARPRES", "GV1", "GV2", "GV19"} ==> SetUnitsRows(rows, units)[i] == rows[i])
  {
    if UnitsCodes(units).Some? {
      RecodeRowsSpec(rows, UnitsCodes(units).value);
    }
  }

  /** Calling `set_units` twice with the same units is calling it once. */
  lemma SetUnitsIdempotent(t: Table, units: string)
    ensures SetUnitsTable(SetUnitsTable(t, units), units) == SetUnitsTable(t, units)
  {
    if UnitsCodes(units).Some? {
      RecodeIdempotent(t, UnitsCodes(units).value);
    }
  }
}
