/**
 * A node's driver table: the `{'driver': .., 'value': .., 'uom': ..}` records a node
 * declares. The local hub library keeps them as the declared list; the cloud variant's
 * code indexes them by driver id, so there they are a dictionary keyed by id.
 */
module Drivers {

  /** The unit-system names a `Units` setting takes: metric and imperial. */
  const Metric := "si"
  const Imperial := "us"

  datatype Driver = Driver(id: string, value: real, uom: int)

  datatype Entry = Entry(value: real, uom: int)

  datatype Table = Rows(rows: seq<Driver>) | Keyed(entries: map<string, Entry>)

  /** The uom a recoding gives the driver `id`: the code listed for it, or else the one it has. */
  function RecodedUom(id: string, uom: int, codes: map<string, int>): int
  {
    if id in codes then codes[id] else uom
  }

  function RecodeRow(d: Driver, codes: map<string, int>): Driver
  {
    d.(uom := RecodedUom(d.id, d.uom, codes))
  }

  function RecodeRows(rows: seq<Driver>, codes: map<string, int>): seq<Driver>
  {
    seq(|rows|, i requires 0 <= i < |rows| => RecodeRow(rows[i], codes))
  }

  function RecodeEntry(id: string, e: Entry, codes: map<string, int>): Entry
  {
    e.(uom := RecodedUom(id, e.uom, codes))
  }

  function RecodeEntries(entries: map<string, Entry>, codes: map<string, int>): map<string, Entry>
  {
    map id | id in entries :: RecodeEntry(id, entries[id], codes)
  }

  /** Give every driver named in `codes` its listed uom, whichever way the table is kept. */
  function Recode(t: Table, codes: map<string, int>): Table
  {
    match t
    case Rows(rows) => Rows(RecodeRows(rows, codes))
    case Keyed(entries) => Keyed(RecodeEntries(entries, codes))
  }

  /**
   * Recoding a list keeps its length, its order, every id and every value; a driver named in
   * `codes` gets the listed uom and every other driver keeps its own.
   */
  lemma RecodeRowsSpec(rows: seq<Driver>, codes: map<string, int>)
    ensures |RecodeRows(rows, codes)| == |rows|
    ensures forall i | 0 <= i < |rows| ::
      && RecodeRows(rows, codes)[i].id == rows[i].id
      && RecodeRows(rows, codes)[i].value == rows[i].value
      && (rows[i].id in codes ==> RecodeRows(rows, codes)[i].uom == codes[rows[i].id])
      && (rows[i].id !in codes ==> RecodeRows(rows, codes)[i] == rows[i])
  {
  }

  /** The same for a keyed table: same keys and values, listed drivers recoded, the rest untouched. */
  lemma RecodeEntriesSpec(entries: map<string, Entry>, codes: map<string, int>)
    ensures RecodeEntries(entries, codes).Keys == entries.Keys
    ensures forall id | id in entries ::
      && RecodeEntries(entries, codes)[id].value == entries[id].value
      && (id in codes ==> RecodeEntries(entries, codes)[id].uom == codes[id])
      && (id !in codes ==> RecodeEntries(entries, codes)[id] == entries[id])
  {
  }

  /** Recoding twice with the same codes is recoding once. */
  lemma RecodeIdempotent(t: Table, codes: map<string, int>)
    ensures Recode(Recode(t, codes), codes) == Recode(t, codes)
  {
    match t
    case Rows(rows) =>
      assert RecodeRows(RecodeRows(rows, codes), codes) == RecodeRows(rows, codes);
    case Keyed(entries) =>
      assert RecodeEntries(RecodeEntries(entries, codes), codes) == RecodeEntries(entries, codes);
  }

  /** The loop `for driver in drivers: if driver['driver'] == id: driver['uom'] = code ...` over a list. */
  method RecodeList(rows: seq<Driver>, codes: map<string, int>) returns (out: seq<Driver>)
    ensures out == RecodeRows(rows, codes)
  {
    out := rows;
    var i := 0;
    while i < |out|
      invariant 0 <= i <= |out| == |rows|
      invariant forall k | 0 <= k < i :: out[k] == RecodeRow(rows[k], codes)
      invariant forall k | i <= k < |out| :: out[k] == rows[k]
    {
      var d := out[i];
      if d.id in codes {
        d := d.(uom := codes[d.id]);
      }
      out := out[i := d];
      i := i + 1;
    }
  }

  /** The loop `for drv in drivers: if drv == id: drivers[drv]['uom'] = code ...` over a dictionary. */
  method RecodeDict(entries: map<string, Entry>, codes: map<string, int>) returns (out: map<string, Entry>)
    ensures out == RecodeEntries(entries, codes)
  {
    out := entries;
    var todo := entries.Keys;
    while todo != {}
      invariant todo <= entries.Keys && out.Keys == entries.Keys
      invariant forall id | id in entries && id !in todo :: out[id] == RecodeEntry(id, entries[id], codes)
      invariant forall id | id in todo :: out[id] == entries[id]
      decreases todo
    {
      var drv :| drv in todo;
      var e := out[drv];
      if drv in codes {
        e := e.(uom := codes[drv]);
      }
      out := out[drv := e];
      todo := todo - {drv};
    }
  }

  /** The declared list as a dictionary keyed by driver id (the last record of an id wins). */
  function ToKeyed(rows: seq<Driver>): map<string, Entry>
    decreases |rows|
  {
    if rows == [] then map[]
    else
      var last := rows[|rows| - 1];
      ToKeyed(rows[..|rows| - 1])[last.id := Entry(last.value, last.uom)]
  }

  /** The dictionary has exactly the ids of the list as keys. */
  lemma {:induction false} ToKeyedKeys(rows: seq<Driver>)
    ensures forall i | 0 <= i < |rows| :: rows[i].id in ToKeyed(rows)
    ensures forall id | id in ToKeyed(rows) :: exists i | 0 <= i < |rows| :: rows[i].id == id
    decreases |rows|
  {
    if rows != [] {
      var init := rows[..|rows| - 1];
      ToKeyedKeys(init);
      forall id | id in ToKeyed(rows) ensures exists i | 0 <= i < |rows| :: rows[i].id == id {
        if id != rows[|rows| - 1].id {
          var i :| 0 <= i < |init| && init[i].id == id;
          assert rows[i].id == id;
        }
      }
      forall i | 0 <= i < |rows| ensures rows[i].id in ToKeyed(rows) {
        if i < |init| {
          assert rows[i] == init[i];
        }
      }
    }
  }

  /** No two records of the list declare the same driver id. */
  predicate DistinctIds(rows: seq<Driver>)
  {
    forall i, j | 0 <= i < j < |rows| :: rows[i].id != rows[j].id
  }

  /** With distinct ids, every record's entry in the dictionary is that record's value and uom. */
  lemma {:induction false} ToKeyedEntries(rows: seq<Driver>)
    requires DistinctIds(rows)
    ensures forall i | 0 <= i < |rows| ::
      rows[i].id in ToKeyed(rows) && ToKeyed(rows)[rows[i].id] == Entry(rows[i].value, rows[i].uom)
    decreases |rows|
  {
    if rows != [] {
      var init := rows[..|rows| - 1];
      assert DistinctIds(init) by {
        forall i, j | 0 <= i < j < |init| ensures init[i].id != init[j].id {
          assert init[i] == rows[i] && init[j] == rows[j];
        }
      }
      ToKeyedEntries(init);
      forall i | 0 <= i < |rows|
        ensures rows[i].id in ToKeyed(rows) && ToKeyed(rows)[rows[i].id] == Entry(rows[i].value, rows[i].uom)
      {
        if i < |init| {
          assert rows[i] == init[i];
          assert rows[i].id != rows[|rows| - 1].id;
        }
      }
    }
  }

  /** `setDriver(id, v)` / `update_driver(id, v)`: the driver `id` now shows `v`. */
  function SetValue(rows: seq<Driver>, id: string, v: real): (r: seq<Driver>)
    ensures |r| == |rows|
    ensures forall i | 0 <= i < |rows| ::
      && r[i].id == rows[i].id && r[i].uom == rows[i].uom
      && r[i].value == (if rows[i].id == id then v else rows[i].value)
  {
    seq(|rows|, i requires 0 <= i < |rows| => if rows[i].id == id then rows[i].(value := v) else rows[i])
  }

  /** Every uom of a list of drivers. */
  predicate UomsWithin(rows: seq<Driver>, allowed: set<int>)
  {
    forall i | 0 <= i < |rows| :: rows[i].uom in allowed
  }
}
