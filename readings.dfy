/**
 * A run of `update_driver` / `setDriver` calls that each read one key of a decoded
 * observation. The calls run in order, and the first one whose read or conversion raises ends
 * the run: the drivers set before it keep their new values, the rest are not reached.
 */
module Readings {
  import opened Wrappers
  import opened Text
  import opened Json
  import opened Icons
  import opened Numeric
  import opened Drivers

  datatype Reading =
    /** `ob[key]` passed on as it is (a number) */
    | Raw(driver: string, key: string)
    /** `float(ob[key]) * scale` */
    | Number(driver: string, key: string, scale: real)
    /** `float(ob[key] * times)`: multiplied before it is converted, so a string is repeated */
    | Repeated(driver: string, key: string, times: nat)
    /** `round(float(ob[key]) * scale, 0)` */
    | Rounded(driver: string, key: string, scale: real)
    /** `icon_2_int(ob[key])` */
    | Condition(driver: string, key: string)
    /** `ob[key] if key in ob else 0` */
    | Accumulation(driver: string, key: string)
    /** a value computed before the run (the weekday) */
    | Fixed(driver: string, value: real)

  /**
   * `icon_2_int` on a decoded value: a string is looked up; `None` and numbers are hashable
   * and listed nowhere, so they give 0; a list or dict is unhashable and raises TypeError.
   */
  function ConditionCode(j: Json): (r: Option<int>)
    ensures j.Str? ==> r == Some(IconToInt(j.s))
    ensures (j.Num? || j.Null?) ==> r == Some(0)
    ensures (j.Arr? || j.Obj?) ==> r.None?
  {
    match j
    case Str(s) => Some(IconToInt(s))
    case Num(_) => Some(0)
    case Null => Some(0)
    case _ => None
  }

  /** A value handed to the driver unconverted; only a number is modelled as a driver value. */
  function Passed(j: Json): (r: Option<real>)
    ensures r.Some? <==> j.Num?
  {
    if j.Num? then Some(j.n) else None
  }

  /** The value a reading sets, or None where its read or conversion raises. */
  function ValueOf(r: Reading, ob: Json): Option<real>
  {
    match r
    case Raw(_, key) =>
      if Member(ob, key).Some? then Passed(Member(ob, key).value) else None
    case Number(_, key, scale) =>
      if Member(ob, key).Some? && Float(Member(ob, key).value).Ok?
      then Some(Float(Member(ob, key).value).value * scale) else None
    case Repeated(_, key, times) =>
      if Member(ob, key).None? then None
      else (
        match Member(ob, key).value
        case Num(n) => Some(n * (times as real))
        case Str(t) => ParseFloat(Repeat(t, times))
        case _ => None)
    case Rounded(_, key, scale) =>
      if Member(ob, key).Some? && Float(Member(ob, key).value).Ok?
      then Some(RoundToInt(Float(Member(ob, key).value).value * scale) as real) else None
    case Condition(_, key) =>
      if Member(ob, key).Some? && ConditionCode(Member(ob, key).value).Some?
      then Some(ConditionCode(Member(ob, key).value).value as real) else None
    case Accumulation(_, key) =>
      if !ob.Obj? then None
      else if key !in ob.fields then Some(0.0)
      else Passed(ob.fields[key])
    case Fixed(_, v) => Some(v)
  }

  /** On a JSON number, multiplying before converting agrees with converting first. */
  lemma RepeatedOnNumber(driver: string, key: string, times: nat, ob: Json)
    requires Member(ob, key).Some? && Member(ob, key).value.Num?
    ensures ValueOf(Repeated(driver, key, times), ob) == ValueOf(Number(driver, key, times as real), ob)
    ensures ValueOf(Repeated(driver, key, times), ob) == Some(Member(ob, key).value.n * (times as real))
  {
    var j, sc := Member(ob, key).value, times as real;
    var x, y := ValueOf(Repeated(driver, key, times), ob), ValueOf(Number(driver, key, sc), ob);
    assert x.Some? && x.value == j.n * sc;
    assert Float(j).value == j.n;
    assert y.Some? && y.value == Float(j).value * sc;
    assert x == Some(x.value) && y == Some(y.value);
    assert x.value == y.value;
    assert x == y;
    assert j.n == Member(ob, key).value.n && sc == times as real;
    assert j.n * sc == Member(ob, key).value.n * (times as real);
    assert x == Some(Member(ob, key).value.n * (times as real));
  }

  /**
   * On a string holding a decimal point, repeating it twice or more makes `float()` raise
   * ValueError, although converting first would have read the string.
   */
  lemma RepeatedPointRaises(driver: string, key: string, times: nat, ob: Json)
    requires Member(ob, key).Some? && Member(ob, key).value.Str? && '.' in Member(ob, key).value.s
    requires times >= 2
    ensures ValueOf(Repeated(driver, key, times), ob).None?
  {
    RepeatedPointRejected(Member(ob, key).value.s, times);
  }

  /** On a string of digits, the value is the number the repeated digits spell. */
  lemma RepeatedDigitsValue(driver: string, key: string, times: nat, ob: Json)
    requires Member(ob, key).Some? && Member(ob, key).value.Str?
    requires |Member(ob, key).value.s| >= 1 && AllDigits(Member(ob, key).value.s) && times >= 1
    ensures AllDigits(Repeat(Member(ob, key).value.s, times))
    ensures ValueOf(Repeated(driver, key, times), ob) ==
      Some(DigitsValue(Repeat(Member(ob, key).value.s, times)) as real)
  {
    RepeatedDigitsRead(Member(ob, key).value.s, times);
  }

  /** A value that is neither a number nor a string cannot be multiplied and converted: TypeError. */
  lemma RepeatedOther(driver: string, key: string, times: nat, ob: Json)
    requires Member(ob, key).Some? && !Member(ob, key).value.Num? && !Member(ob, key).value.Str?
    ensures ValueOf(Repeated(driver, key, times), ob).None?
  {
  }

  /** The drivers after the run, and how many readings ran before the first one raised. */
  datatype Applied = Applied(rows: seq<Driver>, count: nat)

  function Apply(rows: seq<Driver>, rs: seq<Reading>, ob: Json): (a: Applied)
    ensures a.count <= |rs| && |a.rows| == |rows|
    decreases |rs|
  {
    if rs == [] then Applied(rows, 0)
    else match ValueOf(rs[0], ob)
      case None => Applied(rows, 0)
      case Some(v) =>
        var rest := Apply(SetValue(rows, rs[0].driver, v), rs[1..], ob);
        Applied(rest.rows, rest.count + 1)
  }

  /** The run reaches its end exactly when no reading raises. */
  lemma {:induction false} ApplyCompletes(rows: seq<Driver>, rs: seq<Reading>, ob: Json)
    ensures Apply(rows, rs, ob).count == |rs| <==> forall k | 0 <= k < |rs| :: ValueOf(rs[k], ob).Some?
    decreases |rs|
  {
    if rs != [] && ValueOf(rs[0], ob).Some? {
      var v := ValueOf(rs[0], ob).value;
      ApplyCompletes(SetValue(rows, rs[0].driver, v), rs[1..], ob);
      assert forall k | 1 <= k < |rs| :: rs[k] == rs[1..][k - 1];
    }
  }

  /** Ids, uoms and order never change; a driver no reading names keeps its value. */
  lemma {:induction false} ApplyKeeps(rows: seq<Driver>, rs: seq<Reading>, ob: Json)
    ensures forall i | 0 <= i < |rows| ::
      && Apply(rows, rs, ob).rows[i].id == rows[i].id
      && Apply(rows, rs, ob).rows[i].uom == rows[i].uom
      && ((forall k | 0 <= k < |rs| :: rs[k].driver != rows[i].id) ==> Apply(rows, rs, ob).rows[i] == rows[i])
    decreases |rs|
  {
    if rs != [] && ValueOf(rs[0], ob).Some? {
      var v := ValueOf(rs[0], ob).value;
      var next := SetValue(rows, rs[0].driver, v);
      ApplyKeeps(next, rs[1..], ob);
      forall i | 0 <= i < |rows| && (forall k | 0 <= k < |rs| :: rs[k].driver != rows[i].id)
        ensures Apply(rows, rs, ob).rows[i] == rows[i]
      {
        assert rs[0].driver != rows[i].id;
        assert next[i] == rows[i];
        assert forall k | 0 <= k < |rs| - 1 :: rs[1..][k].driver == rs[k + 1].driver;
      }
    }
  }

  /**
   * When the run completes, a driver that exactly one reading names shows that reading's
   * value.
   */
  lemma {:induction false} ApplySets(rows: seq<Driver>, rs: seq<Reading>, ob: Json, k: nat, i: nat)
    requires k < |rs| && i < |rows| && rows[i].id == rs[k].driver
    requires forall j | 0 <= j < |rs| && j != k :: rs[j].driver != rs[k].driver
    requires Apply(rows, rs, ob).count == |rs|
    ensures ValueOf(rs[k], ob).Some?
    ensures Apply(rows, rs, ob).rows[i].value == ValueOf(rs[k], ob).value
    decreases |rs|
  {
    ApplyCompletes(rows, rs, ob);
    var v := ValueOf(rs[0], ob).value;
    var next := SetValue(rows, rs[0].driver, v);
    assert forall j | 0 <= j < |rs| - 1 :: rs[1..][j] == rs[j + 1];
    if k == 0 {
      ApplyKeeps(next, rs[1..], ob);
      assert next[i].value == v;
    } else {
      ApplySets(next, rs[1..], ob, k - 1, i);
    }
  }

  /**
   * A run whose first raising reading is the k-th counts k completed updates and leaves the
   * drivers as the k readings before it set them.
   */
  lemma {:induction false} ApplyStopsAt(rows: seq<Driver>, rs: seq<Reading>, ob: Json, k: nat)
    requires k < |rs| && ValueOf(rs[k], ob).None?
    requires forall j | 0 <= j < k :: ValueOf(rs[j], ob).Some?
    ensures Apply(rows, rs, ob) == Applied(Apply(rows, rs[..k], ob).rows, k)
    ensures Apply(rows, rs[..k], ob).count == k
    decreases k
  {
    if k == 0 {
      assert rs[..0] == [];
    } else {
      var v := ValueOf(rs[0], ob).value;
      var next := SetValue(rows, rs[0].driver, v);
      var p := rs[..k];
      assert p[0] == rs[0] && p[1..] == rs[1..][..k - 1];
      assert forall j | 0 <= j < k - 1 :: rs[1..][j] == rs[j + 1];
      ApplyStopsAt(next, rs[1..], ob, k - 1);
    }
  }

  /** A run stopped by its first reading changes nothing. */
  lemma ApplyStopsAtFirst(rows: seq<Driver>, rs: seq<Reading>, ob: Json)
    requires rs != [] && ValueOf(rs[0], ob).None?
    ensures Apply(rows, rs, ob) == Applied(rows, 0)
  {
  }
}
