/** The day of the week that `time.strftime("%w", time.gmtime(int(t)))` yields. */
module Calendar {
  import opened Wrappers
  import opened Text
  import opened Json

  const SecondsPerDay: int := 86400

  /** The key of a record's POSIX time. */
  const TimeKey := "time"

  /** Python `int(x)` on a float: truncation toward zero. */
  function Truncate(x: real): (i: int)
    ensures x >= 0.0 ==> i as real <= x < i as real + 1.0
    ensures x < 0.0 ==> i as real - 1.0 < x <= i as real
  {
    if x >= 0.0 then x.Floor else -((-x).Floor)
  }

  /**
   * Python `int(v)` on a decoded value: a number truncates, a string parses or raises
   * ValueError, and `None`, a list or a dict raises TypeError.
   */
  function Epoch(t: Json): (r: Result<int>)
    ensures t.Num? ==> r == Ok(Truncate(t.n))
    ensures t.Str? ==> r == (if ParseInt(t.s).Some? then Ok(ParseInt(t.s).value) else Raise(ValueError))
    ensures !t.Num? && !t.Str? ==> r == Raise(TypeError)
  {
    match t
    case Num(x) => Ok(Truncate(x))
    case Str(s) => if ParseInt(s).Some? then Ok(ParseInt(s).value) else Raise(ValueError)
    case _ => Raise(TypeError)
  }

  /**
   * The UTC weekday of a POSIX time, 0 = Sunday. Day 0 of the epoch, 1 January 1970, was a
   * Thursday; Dafny's `/` and `%` by a positive divisor round down, as `gmtime` does for
   * times before the epoch.
   */
  function Weekday(epoch: int): (w: int)
    ensures 0 <= w <= 6
  {
    (epoch / SecondsPerDay + 4) % 7
  }

  /** 1 January 1970 00:00 UTC is a Thursday. */
  lemma WeekdayAtEpoch()
    ensures Weekday(0) == 4
  {
  }

  /** Every second of one UTC day has the same weekday. */
  lemma WeekdaySameDay(day: int, s: int)
    requires 0 <= s < SecondsPerDay
    ensures Weekday(day * SecondsPerDay + s) == Weekday(day * SecondsPerDay)
  {
    assert (day * SecondsPerDay + s) / SecondsPerDay == day;
    assert (day * SecondsPerDay) / SecondsPerDay == day;
  }

  /**
   * `time.strftime("%w", time.gmtime(int(jdata['time'])))`: the weekday of the record's time,
   * or the error reading or converting it raises.
   */
  function DayOfWeek(jdata: Json): (r: Result<int>)
    ensures r.Ok? ==> 0 <= r.value <= 6
    ensures r.Ok? <==> Lookup(jdata, TimeKey).Ok? && Epoch(Lookup(jdata, TimeKey).value).Ok?
    ensures r.Ok? ==> r.value == Weekday(Epoch(Lookup(jdata, TimeKey).value).value)
  {
    match Lookup(jdata, TimeKey)
    case Raise(e) => Raise(e)
    case Ok(t) =>
      match Epoch(t)
      case Raise(e) => Raise(e)
      case Ok(epoch) => Ok(Weekday(epoch))
  }

  /** A record whose time is the number `x` seconds gets the weekday of `x` truncated. */
  lemma DayOfWeekOfNumber(jdata: Json, x: real)
    requires jdata.Obj? && TimeKey in jdata.fields && jdata.fields[TimeKey] == Num(x)
    ensures DayOfWeek(jdata) == Ok(Weekday(Truncate(x)))
  {
  }

  /** Twenty-four hours later is the next weekday, Saturday wrapping to Sunday. */
  lemma WeekdayNextDay(epoch: int)
    ensures Weekday(epoch + SecondsPerDay) == (Weekday(epoch) + 1) % 7
  {
    assert (epoch + SecondsPerDay) / SecondsPerDay == epoch / SecondsPerDay + 1;
  }
}
