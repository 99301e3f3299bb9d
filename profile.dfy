/**
 * The profile writer (`write_profile.py`): the node definition text built from a driver list,
 * the server data with its split version number, the version check of the stand-alone path,
 * and the plan of the profile zip archive.
 */
module Profile {
  import opened Wrappers
  import opened Text
  import opened Json
  import opened Drivers

  /** The editor each unit of measure is shown with (write_profile.py:18-41). */
  const UomEditors: map<int, string> := map[
    4 := "TEMP_C", 17 := "TEMP_F", 2 := "bool", 22 := "PERCENT", 117 := "MB", 48 := "MPH",
    49 := "MPS", 76 := "DEGREES", 0 := "INCHES", 82 := "MM", 36 := "LUMIN", 56 := "int",
    38 := "METERS", 27 := "COVERAGE", 70 := "INTENSITY", 25 := "CONDITIONS", 118 := "HPA",
    23 := "INHG", 71 := "UV", 116 := "MILES", 46 := "mmhr", 24 := "inhr"
  ]

  const NewLine := '\n'

  /** `NODEDEF_TMPL % (id, nls)` without its line break. */
  function NodeDefLine(id: string, nls: string): string
  {
    "  <nodeDef id=\"" + id + "\" nodeType=\"139\" nls=\"" + nls + "\">"
  }

  /** `STATUS_TMPL % (driver, editor)` without its line break. */
  function StatusLine(driver: string, editor: string): string
  {
    "      <st id=\"" + driver + "\" editor=\"" + editor + "\" />"
  }

  const StsOpen := "    <sts>"
  const StsClose := "    </sts>"
  const DiscoverCmd := "        <cmd id=\"DISCOVER\" />"
  const RemoveNoticesCmd := "        <cmd id=\"REMOVE_NOTICES_ALL\" />"
  const UpdateProfileCmd := "        <cmd id=\"UPDATE_PROFILE\" />"
  const NodeDefsClose := "</nodeDefs>"

  /** The lines written before the status lines. */
  const HeadLines: seq<string> := ["<nodeDefs>", NodeDefLine("dsweather", "dsk"), "    <editors />", StsOpen]

  /** The lines written after the status lines, up to the last one, which has no line break. */
  const FootLines: seq<string> := [
    StsClose, "    <cmds>", "      <sends />", "      <accepts>", DiscoverCmd, RemoveNoticesCmd,
    UpdateProfileCmd, "      </accepts>", "    </cmds>", "  </nodeDef>", ""
  ]

  /** Each line followed by a line break. */
  function Lines(ls: seq<string>): string
    decreases |ls|
  {
    if ls == [] then "" else ls[0] + [NewLine] + Lines(ls[1..])
  }

  lemma {:induction false} LinesSnoc(ls: seq<string>, l: string)
    ensures Lines(ls + [l]) == Lines(ls) + l + [NewLine]
    decreases |ls|
  {
    if ls != [] {
      assert (ls + [l])[1..] == ls[1..] + [l];
      LinesSnoc(ls[1..], l);
    }
  }

  lemma {:induction false} LinesAppend(xs: seq<string>, ys: seq<string>)
    ensures Lines(xs + ys) == Lines(xs) + Lines(ys)
    decreases |xs|
  {
    if xs != [] {
      assert (xs + ys)[0] == xs[0];
      assert (xs + ys)[1..] == xs[1..] + ys;
      LinesAppend(xs[1..], ys);
      assert Lines(xs + ys) == xs[0] + [NewLine] + (Lines(xs[1..]) + Lines(ys));
    } else {
      assert xs + ys == ys;
    }
  }

  /** Splitting lines written without inner line breaks, then a last line, gives them back. */
  lemma {:induction false} SplitLines(ls: seq<string>, last: string)
    requires forall i | 0 <= i < |ls| :: NewLine !in ls[i]
    requires NewLine !in last
    ensures Split(Lines(ls) + last, NewLine) == ls + [last]
    decreases |ls|
  {
    if ls == [] {
      assert Lines(ls) + last == last;
      SplitFree(last, NewLine);
    } else {
      var rest := Lines(ls[1..]) + last;
      SplitLines(ls[1..], last);
      assert Lines(ls) + last == ls[0] + [NewLine] + rest;
      SplitAround(ls[0], NewLine, rest);
      SplitFree(ls[0], NewLine);
      assert ls == [ls[0]] + ls[1..];
    }
  }

  /** The index of the first driver whose uom has no editor, or the number of drivers. */
  function FirstUnknownUom(editors: map<int, string>, drivers: seq<Driver>): (k: nat)
    ensures k <= |drivers|
    ensures forall i | 0 <= i < k :: drivers[i].uom in editors
    ensures k < |drivers| ==> drivers[k].uom !in editors
    decreases |drivers|
  {
    if drivers == [] then 0
    else if drivers[0].uom !in editors then 0
    else 1 + FirstUnknownUom(editors, drivers[1..])
  }

  /** The status line of every driver, in order; each driver's uom has an editor. */
  function StatusLines(editors: map<int, string>, drivers: seq<Driver>): (ls: seq<string>)
    requires forall i | 0 <= i < |drivers| :: drivers[i].uom in editors
    ensures |ls| == |drivers|
    ensures forall i | 0 <= i < |drivers| :: ls[i] == StatusLine(drivers[i].id, editors[drivers[i].uom])
    decreases |drivers|
  {
    if drivers == [] then []
    else [StatusLine(drivers[0].id, editors[drivers[0].uom])] + StatusLines(editors, drivers[1..])
  }

  /**
   * The node definition file `write_profile` writes: the head, one status line per driver and
   * the foot; a driver whose uom has no editor raises KeyError.
   */
  function NodeDefText(editors: map<int, string>, drivers: seq<Driver>): (r: Result<string>)
    ensures r.Ok? <==> forall i | 0 <= i < |drivers| :: drivers[i].uom in editors
    ensures r.Raise? ==> r.error == KeyError
  {
    DocumentText(HeadLines, editors, drivers, FootLines, NodeDefsClose)
  }

  /** What the node definition file holds when the status loop raises: the head and the lines before. */
  function PartialNodeDef(editors: map<int, string>, drivers: seq<Driver>): string
  {
    PartialDocument(HeadLines, editors, drivers)
  }

  /** A document of head lines, a status line per driver, foot lines and a last line. */
  function DocumentText(head: seq<string>, editors: map<int, string>, drivers: seq<Driver>,
                        foot: seq<string>, last: string): (r: Result<string>)
    ensures r.Ok? <==> forall i | 0 <= i < |drivers| :: drivers[i].uom in editors
    ensures r.Raise? ==> r.error == KeyError
  {
    if FirstUnknownUom(editors, drivers) < |drivers| then Raise(KeyError)
    else Ok(Lines(head) + Lines(StatusLines(editors, drivers)) + Lines(foot) + last)
  }

  /** The head lines and the status lines before the first driver whose uom has no editor. */
  function PartialDocument(head: seq<string>, editors: map<int, string>, drivers: seq<Driver>): string
  {
    var k := FirstUnknownUom(editors, drivers);
    Lines(head) + Lines(StatusLines(editors, drivers[..k]))
  }

  /** No driver id has a line break in it. */
  predicate NoLineBreaks(drivers: seq<Driver>)
  {
    forall i | 0 <= i < |drivers| :: NewLine !in drivers[i].id
  }

  /** No editor name has a line break in it. */
  predicate SingleLineEditors(editors: map<int, string>)
  {
    forall u | u in editors :: NewLine !in editors[u]
  }

  /**
   * Read line by line, the node definition is the head, then exactly one status line per
   * driver in driver order (between `<sts>` and `</sts>`), then the foot with the three
   * accepted commands, closed by `</nodeDefs>`.
   */
  lemma NodeDefLines(editors: map<int, string>, drivers: seq<Driver>)
    requires NodeDefText(editors, drivers).Ok? && NoLineBreaks(drivers) && SingleLineEditors(editors)
    ensures Split(NodeDefText(editors, drivers).value, NewLine) == HeadLines + StatusLines(editors, drivers) + FootLines + [NodeDefsClose]
  {
    var sts := StatusLines(editors, drivers);
    StatusLinesFree(editors, drivers);
    FixedLinesFree();
    SplitDocument(HeadLines, sts, FootLines, NodeDefsClose);
  }

  /** No line of `ls` has a line break in it. */
  predicate LinesFree(ls: seq<string>)
  {
    forall i | 0 <= i < |ls| :: NewLine !in ls[i]
  }

  lemma LinesFreeAppend(xs: seq<string>, ys: seq<string>)
    requires LinesFree(xs) && LinesFree(ys)
    ensures LinesFree(xs + ys)
  {
    forall i | 0 <= i < |xs + ys| ensures NewLine !in (xs + ys)[i] {
      if i >= |xs| {
        assert (xs + ys)[i] == ys[i - |xs|];
      }
    }
  }

  /** Lines of three blocks and a last line split back into those blocks and that line. */
  lemma SplitDocument(head: seq<string>, body: seq<string>, foot: seq<string>, last: string)
    requires LinesFree(head) && LinesFree(body) && LinesFree(foot)
    requires NewLine !in last
    ensures Split(Lines(head) + Lines(body) + Lines(foot) + last, NewLine) == head + body + foot + [last]
  {
    LinesFreeAppend(head, body);
    LinesFreeAppend(head + body, foot);
    LinesAppend(head, body);
    LinesAppend(head + body, foot);
    SplitLines(head + body + foot, last);
  }

  /**
   * So the document is `<nodeDefs>`, the head up to `<sts>`, the status lines of the drivers in
   * order, `</sts>`, the three accepted commands DISCOVER, REMOVE_NOTICES_ALL and UPDATE_PROFILE
   * and the closing `</nodeDefs>`.
   */
  lemma NodeDefLayout(editors: map<int, string>, drivers: seq<Driver>)
    requires NodeDefText(editors, drivers).Ok? && NoLineBreaks(drivers) && SingleLineEditors(editors)
    ensures var ls := Split(NodeDefText(editors, drivers).value, NewLine);
      && |ls| == |HeadLines| + |drivers| + |FootLines| + 1
      && ls[0] == "<nodeDefs>" && ls[|HeadLines| - 1] == StsOpen
      && (forall i | 0 <= i < |drivers| :: ls[|HeadLines| + i] == StatusLine(drivers[i].id, editors[drivers[i].uom]))
      && ls[|HeadLines| + |drivers|] == StsClose
      && DiscoverCmd in ls && RemoveNoticesCmd in ls && UpdateProfileCmd in ls
      && ls[|ls| - 1] == NodeDefsClose
  {
    NodeDefLines(editors, drivers);
    var sts := StatusLines(editors, drivers);
    var ls := HeadLines + sts + FootLines + [NodeDefsClose];
    var n := |HeadLines| + |sts|;
    assert ls[n + 4] == DiscoverCmd && ls[n + 5] == RemoveNoticesCmd && ls[n + 6] == UpdateProfileCmd;
  }

  /** No status line has a line break inside it. */
  lemma StatusLinesFree(editors: map<int, string>, drivers: seq<Driver>)
    requires forall i | 0 <= i < |drivers| :: drivers[i].uom in editors
    requires NoLineBreaks(drivers) && SingleLineEditors(editors)
    ensures forall i | 0 <= i < |drivers| :: NewLine !in StatusLines(editors, drivers)[i]
  {
    forall i | 0 <= i < |drivers| ensures NewLine !in StatusLines(editors, drivers)[i] {
      StatusLineFree(drivers[i].id, editors[drivers[i].uom]);
    }
  }

  lemma StatusLineFree(driver: string, editor: string)
    requires NewLine !in driver && NewLine !in editor
    ensures NewLine !in StatusLine(driver, editor)
  {
  }

  lemma UomEditorsSingleLine()
    ensures SingleLineEditors(UomEditors)
  {
  }

  lemma FixedLinesFree()
    ensures forall i | 0 <= i < |HeadLines| :: NewLine !in HeadLines[i]
    ensures forall i | 0 <= i < |FootLines| :: NewLine !in FootLines[i]
  {
  }

  /** An open text file: everything written to it so far. */
  class TextFile {
    var text: string

    /** `open(path, "w")`: the file starts out empty. */
    constructor ()
      ensures text == ""
    {
      text := "";
    }

    method Write(s: string)
      modifies this
      ensures text == old(text) + s
    {
      text := text + s;
    }
  }

  /** Text written piece by piece is the first piece followed by the others together. */
  lemma Regroup(a: string, b: string, c: string, d: string, e: string)
    ensures a + b + c + d + e == a + (b + c + d + e)
    ensures a + b + c == a + (b + c)
  {
  }

  /** Writes each line and its line break. */
  method WriteLines(f: TextFile, ls: seq<string>)
    modifies f
    ensures f.text == old(f.text) + Lines(ls)
  {
    var i := 0;
    while i < |ls|
      invariant 0 <= i <= |ls|
      invariant f.text == old(f.text) + Lines(ls[..i])
    {
      LinesSnoc(ls[..i], ls[i]);
      assert ls[..i + 1] == ls[..i] + [ls[i]];
      f.Write(ls[i] + [NewLine]);
      i := i + 1;
    }
    assert ls[..i] == ls;
  }

  /**
   * The node definition part of `write_profile`: the head, a status line per driver in turn
   * (`uom[d['uom']]` raising KeyError at the first uom without an editor, which leaves the
   * lines before it in the file), then the foot.
   */
  method WriteNodeDef(f: TextFile, editors: map<int, string>, drivers: seq<Driver>) returns (err: Option<PyError>)
    modifies f
    ensures err.None? <==> NodeDefText(editors, drivers).Ok?
    ensures err.None? ==> f.text == old(f.text) + NodeDefText(editors, drivers).value
    ensures err.Some? ==> err.value == KeyError && f.text == old(f.text) + PartialNodeDef(editors, drivers)
  {
    err := WriteDocument(f, HeadLines, editors, drivers, FootLines, NodeDefsClose);
  }

  /** Writes the head lines, the status lines up to the first unknown uom, and then the rest. */
  method WriteDocument(f: TextFile, head: seq<string>, editors: map<int, string>, drivers: seq<Driver>,
                       foot: seq<string>, last: string) returns (err: Option<PyError>)
    modifies f
    ensures err.None? <==> DocumentText(head, editors, drivers, foot, last).Ok?
    ensures err.None? ==> f.text == old(f.text) + DocumentText(head, editors, drivers, foot, last).value
    ensures err.Some? ==> err.value == KeyError && f.text == old(f.text) + PartialDocument(head, editors, drivers)
  {
    ghost var t0 := f.text;
    WriteLines(f, head);
    var written := WriteStatusLines(f, editors, drivers);
    ghost var sts := Lines(StatusLines(editors, drivers[..written]));
    Regroup(t0, Lines(head), sts, "", "");
    if written < |drivers| {
      return Some(KeyError);
    }
    assert drivers[..written] == drivers;
    WriteLines(f, foot);
    f.Write(last);
    Regroup(t0, Lines(head), sts, Lines(foot), last);
    err := None;
  }

  /** The status loop: writes the drivers' lines in turn and stops at the first unknown uom. */
  method WriteStatusLines(f: TextFile, editors: map<int, string>, drivers: seq<Driver>) returns (written: nat)
    modifies f
    ensures written == FirstUnknownUom(editors, drivers)
    ensures f.text == old(f.text) + Lines(StatusLines(editors, drivers[..written]))
  {
    written := 0;
    while written < |drivers|
      invariant 0 <= written <= |drivers|
      invariant forall k | 0 <= k < written :: drivers[k].uom in editors
      invariant f.text == old(f.text) + Lines(StatusLines(editors, drivers[..written]))
    {
      var d := drivers[written];
      if d.uom !in editors {
        FirstUnknownAt(editors, drivers, written);
        return;
      }
      var line := StatusLine(d.id, editors[d.uom]);
      StatusTextSnoc(editors, drivers, written);
      f.Write(line + [NewLine]);
      written := written + 1;
    }
    FirstUnknownAll(editors, drivers);
  }

  /** One more driver adds its status line to the text. */
  lemma StatusTextSnoc(editors: map<int, string>, drivers: seq<Driver>, k: nat)
    requires k < |drivers| && forall i | 0 <= i <= k :: drivers[i].uom in editors
    ensures Lines(StatusLines(editors, drivers[..k + 1])) ==
      Lines(StatusLines(editors, drivers[..k])) + StatusLine(drivers[k].id, editors[drivers[k].uom]) + [NewLine]
  {
    var line := StatusLine(drivers[k].id, editors[drivers[k].uom]);
    assert StatusLines(editors, drivers[..k + 1]) == StatusLines(editors, drivers[..k]) + [line];
    LinesSnoc(StatusLines(editors, drivers[..k]), line);
  }

  /** With every uom known, the first unknown one is past the end. */
  lemma {:induction false} FirstUnknownAll(editors: map<int, string>, drivers: seq<Driver>)
    requires forall i | 0 <= i < |drivers| :: drivers[i].uom in editors
    ensures FirstUnknownUom(editors, drivers) == |drivers|
    decreases |drivers|
  {
    if drivers != [] {
      FirstUnknownAll(editors, drivers[1..]);
    }
  }

  /** The first unknown uom is at `k` when the drivers before it are known and it is not. */
  lemma {:induction false} FirstUnknownAt(editors: map<int, string>, drivers: seq<Driver>, k: nat)
    requires k < |drivers| && drivers[k].uom !in editors
    requires forall i | 0 <= i < k :: drivers[i].uom in editors
    ensures FirstUnknownUom(editors, drivers) == k
    decreases k
  {
    if k > 0 {
      FirstUnknownAt(editors, drivers[1..], k - 1);
    }
  }

  // ---- Server data and the version split ----

  const Dot := '.'
  const CreditsKey := "credits"
  const VersionKey := "version"
  const MajorKey := "version_major"
  const MinorKey := "version_minor"
  const ProfileVersionKey := "profile_version"

  /** The version assumed when `server.json` names none. */
  const DefaultVersion := "0.0.0.0"

  /** A number the version split yields: a Python `int` or a Python `float`. */
  datatype Number = IntNumber(i: int) | FloatNumber(x: real)

  /**
   * The version split of `get_server_data` as evidently meant: a single part is an integer
   * major version; "a.b" a float major version; a third part the integer minor version; a
   * fourth the float minor version "c.d". A part that does not convert raises ValueError.
   */
  function SplitVersion(sv: seq<string>): (r: Result<(Number, Number)>)
    ensures r.Raise? ==> r.error == ValueError
  {
    if |sv| == 0 then Ok((IntNumber(0), IntNumber(0)))
    else if |sv| == 1 then
      match ParseInt(sv[0])
      case None => Raise(ValueError)
      case Some(v) => Ok((IntNumber(v), IntNumber(0)))
    else
      match DecimalOf(sv[0], sv[1])
      case None => Raise(ValueError)
      case Some(major) =>
        match MinorVersion(sv[2..])
        case Raise(e) => Raise(e)
        case Ok(minor) => Ok((FloatNumber(major), minor))
  }

  /**
   * The minor version from the parts after "a.b", as evidently meant: none gives 0, one the
   * integer it reads as, two or more the float "c.d".
   */
  function MinorVersion(rest: seq<string>): (r: Result<Number>)
    ensures r.Raise? ==> r.error == ValueError
  {
    if |rest| == 0 then Ok(IntNumber(0))
    else if |rest| == 1 then
      match ParseInt(rest[0])
      case None => Raise(ValueError)
      case Some(minor) => Ok(IntNumber(minor))
    else
      match DecimalOf(rest[0], rest[1])
      case None => Raise(ValueError)
      case Some(minor) => Ok(FloatNumber(minor))
  }

  /**
   * The split as write_profile.py:133-140 has it: one part indexes the integer `v1` (TypeError),
   * and two parts reach `sv[2]` in the four-part arm (IndexError).
   */
  function SplitVersionAsWritten(sv: seq<string>): (r: Result<(Number, Number)>)
    ensures |sv| == 1 ==> r == Raise(TypeError)
  {
    if |sv| == 0 then Ok((IntNumber(0), IntNumber(0)))
    else if |sv| == 1 then Raise(TypeError)
    else
      match DecimalOf(sv[0], sv[1])
      case None => Raise(ValueError)
      case Some(major) =>
        match MinorAsWritten(sv[2..])
        case Raise(e) => Raise(e)
        case Ok(minor) => Ok((FloatNumber(major), minor))
  }

  /** The minor version as written: anything but exactly one further part reads `sv[2]` and `sv[3]`. */
  function MinorAsWritten(rest: seq<string>): (r: Result<Number>)
    ensures |rest| < 2 && |rest| != 1 ==> r == Raise(IndexError)
  {
    if |rest| == 1 then
      match ParseInt(rest[0])
      case None => Raise(ValueError)
      case Some(minor) => Ok(IntNumber(minor))
    else if |rest| < 2 then Raise(IndexError)
    else
      match DecimalOf(rest[0], rest[1])
      case None => Raise(ValueError)
      case Some(minor) => Ok(FloatNumber(minor))
  }

  /**
   * The code as written and the intended split differ exactly on single-part versions and on
   * two-part versions whose "a.b" converts.
   */
  lemma SplitVersionAsWrittenDiffers(sv: seq<string>)
    ensures SplitVersionAsWritten(sv) != SplitVersion(sv) <==>
      |sv| == 1 || (|sv| == 2 && DecimalOf(sv[0], sv[1]).Some?)
  {
  }

  /** Version "5": the code as written raises TypeError; the intended split gives major 5. */
  lemma OnePartVersion()
    ensures SplitVersionAsWritten(Split("5", Dot)) == Raise(TypeError)
    ensures SplitVersion(Split("5", Dot)) == Ok((IntNumber(5), IntNumber(0)))
  {
    SplitFree("5", Dot);
    ParseIntToString(5);
    assert IntToString(5) == "5";
  }

  /** Version "1.2": the code as written raises IndexError; the intended split gives major 1.2. */
  lemma TwoPartVersion()
    ensures SplitVersionAsWritten(Split("1.2", Dot)) == Raise(IndexError)
    ensures SplitVersion(Split("1.2", Dot)) == Ok((FloatNumber(1.2), IntNumber(0)))
  {
    assert Split("1.2", Dot) == ["1", "2"] by {
      SplitJoin(["1", "2"], Dot);
      assert Join(["1", "2"], Dot) == "1.2";
    }
    OnePointTwo();
    SplitVersionTwo("1", "2");
  }

  lemma SplitVersionTwo(a: string, b: string)
    requires DecimalOf(a, b).Some?
    ensures SplitVersionAsWritten([a, b]) == Raise(IndexError)
    ensures SplitVersion([a, b]) == Ok((FloatNumber(DecimalOf(a, b).value), IntNumber(0)))
  {
    assert [a, b][2..] == [];
  }

  lemma OnePointTwo()
    ensures DecimalOf("1", "2").Some? && DecimalOf("1", "2").value == 1.2
  {
    assert DigitsValue("1") == 1 by {
      assert DigitsValue("1"[..0]) == 0;
    }
    assert DigitsValue("2") == 2 by {
      assert DigitsValue("2"[..0]) == 0;
    }
    assert |"2"| == 1;
    DecimalDigits("1", "2");
    Tenths(1, 2);
  }

  /** w + t / 10 for the whole part w and the single fractional digit t. */
  lemma Tenths(w: nat, t: nat)
    ensures w as real + t as real / Pow10(1) as real == w as real + t as real / 10.0
  {
    assert Pow10(1) == 10;
  }

  /**
   * A version "x.y.z" written from natural numbers splits into major "x.y" and the integer
   * minor version z.
   */
  lemma ThreePartVersion(x: nat, y: nat, z: nat)
    ensures var v := NatToString(x) + [Dot] + NatToString(y) + [Dot] + NatToString(z);
      && SplitVersion(Split(v, Dot)).Ok?
      && DecimalOf(NatToString(x), NatToString(y)).Some?
      && SplitVersion(Split(v, Dot)).value.0 == FloatNumber(DecimalOf(NatToString(x), NatToString(y)).value)
      && SplitVersion(Split(v, Dot)).value.0.x.Floor == x
      && SplitVersion(Split(v, Dot)).value.1 == IntNumber(z)
  {
    var a, b, c := NatToString(x), NatToString(y), NatToString(z);
    assert Split(a + [Dot] + b + [Dot] + c, Dot) == [a, b, c] by {
      NoDots(a);
      NoDots(b);
      NoDots(c);
      SplitThree(a, b, c);
    }
    assert DecimalOf(a, b).Some? && DecimalOf(a, b).value.Floor == x by {
      DecimalWholePart(a, b);
      DigitsOfNatToString(x);
    }
    assert ParseInt(c) == Some(z) by {
      ParseIntToString(z);
    }
    var sv := Split(a + [Dot] + b + [Dot] + c, Dot);
    assert SplitVersion(sv) == Ok((FloatNumber(DecimalOf(a, b).value), IntNumber(z))) by {
      SplitVersionThree(a, b, c);
    }
  }

  /** Three dot-free parts joined by dots split back into those three. */
  lemma SplitThree(a: string, b: string, c: string)
    requires Dot !in a && Dot !in b && Dot !in c
    ensures Split(a + [Dot] + b + [Dot] + c, Dot) == [a, b, c]
  {
    var w := b + [Dot] + c;
    assert a + [Dot] + b + [Dot] + c == a + [Dot] + w;
    SplitAround(a, Dot, w);
    SplitAround(b, Dot, c);
    SplitFree(a, Dot);
    SplitFree(b, Dot);
    SplitFree(c, Dot);
  }

  lemma SplitVersionThree(a: string, b: string, c: string)
    requires DecimalOf(a, b).Some? && ParseInt(c).Some?
    ensures SplitVersion([a, b, c]) == Ok((FloatNumber(DecimalOf(a, b).value), IntNumber(ParseInt(c).value)))
  {
    assert [a, b, c][2..] == [c];
  }

  /**
   * A version "w.x.y.z" splits into major "w.x" and minor "y.z", both floats; parts after the
   * fourth are ignored.
   */
  lemma FourPartVersion(parts: seq<string>)
    requires |parts| >= 4
    requires forall i | 0 <= i < |parts| :: Dot !in parts[i]
    ensures SplitVersion(Split(Join(parts, Dot), Dot)) ==
      if DecimalOf(parts[0], parts[1]).Some? && DecimalOf(parts[2], parts[3]).Some? then
        Ok((FloatNumber(DecimalOf(parts[0], parts[1]).value), FloatNumber(DecimalOf(parts[2], parts[3]).value)))
      else Raise(ValueError)
  {
    SplitJoin(parts, Dot);
    SplitVersionFour(parts);
  }

  lemma SplitVersionFour(sv: seq<string>)
    requires |sv| >= 4
    ensures SplitVersion(sv) ==
      if DecimalOf(sv[0], sv[1]).Some? && DecimalOf(sv[2], sv[3]).Some? then
        Ok((FloatNumber(DecimalOf(sv[0], sv[1]).value), FloatNumber(DecimalOf(sv[2], sv[3]).value)))
      else Raise(ValueError)
  {
    assert sv[2..][0] == sv[2] && sv[2..][1] == sv[3];
  }

  lemma NoDots(s: string)
    requires AllDigits(s)
    ensures Dot !in s
  {
  }

  /**
   * `serverdata['credits'][0]['version']`; the KeyError the code catches gives the default
   * version instead, while a TypeError or IndexError escapes.
   */
  function VersionEntry(sd: Json): (r: Result<Json>)
    ensures r.Ok? ==> sd.Obj?
    ensures r.Raise? ==> r.error != KeyError
    ensures sd.Obj? && CreditsKey !in sd.fields ==> r == Ok(Str(DefaultVersion))
  {
    match Lookup(sd, CreditsKey)
    case Raise(e) => if e == KeyError then Ok(Str(DefaultVersion)) else Raise(e)
    case Ok(credits) =>
      match Index(credits, 0)
      case Raise(e) => if e == KeyError then Ok(Str(DefaultVersion)) else Raise(e)
      case Ok(first) =>
        match Lookup(first, VersionKey)
        case Raise(e) => if e == KeyError then Ok(Str(DefaultVersion)) else Raise(e)
        case Ok(v) => Ok(v)
  }

  /**
   * What `serverdata['credits'][0]['version']` gives, by the shape of the decoded file: the
   * entry itself when it is there; the default when `credits` is a dict or the first credit
   * has no version (KeyError, caught); IndexError for an empty list or string; TypeError where
   * a value cannot be indexed that way.
   */
  lemma VersionEntryShapes(sd: Json)
    ensures !sd.Obj? ==> VersionEntry(sd) == Raise(TypeError)
    ensures sd.Obj? && CreditsKey in sd.fields ==>
      var credits := sd.fields[CreditsKey];
      && (credits.Obj? ==> VersionEntry(sd) == Ok(Str(DefaultVersion)))
      && (credits.Num? || credits.Null? ==> VersionEntry(sd) == Raise(TypeError))
      && (credits.Str? ==> VersionEntry(sd) == Raise(if credits.s == [] then IndexError else TypeError))
      && (credits.Arr? && credits.items == [] ==> VersionEntry(sd) == Raise(IndexError))
      && (credits.Arr? && credits.items != [] ==>
            var first := credits.items[0];
            && (!first.Obj? ==> VersionEntry(sd) == Raise(TypeError))
            && (first.Obj? && VersionKey in first.fields ==> VersionEntry(sd) == Ok(first.fields[VersionKey]))
            && (first.Obj? && VersionKey !in first.fields ==> VersionEntry(sd) == Ok(Str(DefaultVersion))))
  {
  }

  function NumberJson(n: Number): Json
  {
    match n
    case IntNumber(i) => Num(i as real)
    case FloatNumber(x) => Num(x)
  }

  /**
   * `get_server_data` on the decoded `server.json` (None: it could not be read or decoded, and
   * the call returns False): the version is split at its dots and stored back with its major
   * and minor parts. A version that is not a string raises AttributeError at `split`.
   */
  function GetServerData(file: Option<Json>): (r: Result<Option<Json>>)
    ensures file.None? ==> r == Ok(None)
    ensures r.Ok? && r.value.Some? ==>
      && file.Some? && file.value.Obj? && r.value.value.Obj?
      && r.value.value.fields.Keys == file.value.fields.Keys + {VersionKey, MajorKey, MinorKey}
      && VersionEntry(file.value).Ok? && r.value.value.fields[VersionKey] == VersionEntry(file.value).value
      && (forall k | k in file.value.fields && k != VersionKey && k != MajorKey && k != MinorKey ::
            r.value.value.fields[k] == file.value.fields[k])
      && VersionEntry(file.value).value.Str?
      && var numbers := SplitVersion(Split(VersionEntry(file.value).value.s, Dot));
      && numbers.Ok?
      && r.value.value.fields[MajorKey] == NumberJson(numbers.value.0)
      && r.value.value.fields[MinorKey] == NumberJson(numbers.value.1)
    ensures file.Some? && VersionEntry(file.value).Ok? && !VersionEntry(file.value).value.Str? ==>
      r == Raise(AttributeError)
    ensures file.Some? && VersionEntry(file.value).Raise? ==> r == Raise(VersionEntry(file.value).error)
    ensures file.Some? && VersionEntry(file.value).Ok? && VersionEntry(file.value).value.Str? ==>
      var numbers := SplitVersion(Split(VersionEntry(file.value).value.s, Dot));
      && (numbers.Ok? ==> r.Ok? && r.value.Some?)
      && (numbers.Raise? ==> r == Raise(ValueError))
  {
    match file
    case None => Ok(None)
    case Some(sd) =>
      match VersionEntry(sd)
      case Raise(e) => Raise(e)
      case Ok(version) =>
        if !version.Str? then Raise(AttributeError)
        else
          match SplitVersion(Split(version.s, Dot))
          case Raise(e) => Raise(e)
          case Ok(numbers) =>
            Ok(Some(Obj(sd.fields[VersionKey := version][MajorKey := NumberJson(numbers.0)][MinorKey := NumberJson(numbers.1)])))
  }

  /** Without credits the version is '0.0.0.0', so major and minor are both the float 0.0. */
  lemma DefaultServerVersion(fields: map<string, Json>)
    requires CreditsKey !in fields
    ensures GetServerData(Some(Obj(fields))).Ok?
    ensures var sd := GetServerData(Some(Obj(fields))).value;
      && sd.Some?
      && sd.value.fields[VersionKey] == Str(DefaultVersion)
      && sd.value.fields[MajorKey] == Num(0.0) && sd.value.fields[MinorKey] == Num(0.0)
  {
    DefaultVersionSplit();
  }

  /** '0.0.0.0' splits into the float major version 0.0 and the float minor version 0.0. */
  lemma DefaultVersionSplit()
    ensures SplitVersion(Split(DefaultVersion, Dot)) == Ok((FloatNumber(0.0), FloatNumber(0.0)))
  {
    var z := "0";
    assert Split(DefaultVersion, Dot) == [z, z, z, z] by {
      assert DefaultVersion == z + [Dot] + (z + [Dot] + (z + [Dot] + z));
      SplitFree(z, Dot);
      SplitAround(z, Dot, z);
      SplitAround(z, Dot, z + [Dot] + z);
      SplitAround(z, Dot, z + [Dot] + (z + [Dot] + z));
    }
    assert SplitVersion([z, z, z, z]) == Ok((FloatNumber(0.0), FloatNumber(0.0))) by {
      ZeroPointZero();
      SplitVersionFour([z, z, z, z]);
    }
  }

  lemma ZeroPointZero()
    ensures DecimalOf("0", "0").Some? && DecimalOf("0", "0").value == 0.0
  {
    assert DigitsValue("0") == 0 by {
      assert DigitsValue("0"[..0]) == 0;
    }
    DecimalDigits("0", "0");
  }

  // ---- The profile zip archive ----

  const Slash := '/'
  const HiddenMark := "/."
  const XmlSuffix := ".xml"
  const TxtSuffix := "txt"

  /** One step of `os.walk(src)`: the directory as walked, its absolute path, and its files. */
  datatype WalkStep = WalkStep(dirname: string, absDir: string, files: seq<string>)

  /** `zf.write(absname, arcname)`. */
  datatype ZipEntry = ZipEntry(absname: string, arcname: string)

  /** A file goes into the archive iff no dot directory is on its path and it is an xml or txt file. */
  predicate Included(dirname: string, filename: string)
  {
    !Contains(dirname, HiddenMark) && (EndsWith(filename, XmlSuffix) || EndsWith(filename, TxtSuffix))
  }

  /**
   * `absname[len(abs_src) + 1:]`: the name with the source prefix and one separator cut off;
   * Python's slice gives the empty string when the name is not longer than that.
   */
  function ArcName(absname: string, absSrc: string): (arc: string)
    ensures |arc| == if |absSrc| + 1 <= |absname| then |absname| - |absSrc| - 1 else 0
    ensures EndsWith(absname, arc)
  {
    if |absSrc| + 1 <= |absname| then absname[|absSrc| + 1..] else ""
  }

  /** A file under the source directory is archived under its path relative to the source. */
  lemma ArcNameUnderSource(absSrc: string, rel: string)
    ensures ArcName(absSrc + [Slash] + rel, absSrc) == rel
  {
    assert (absSrc + [Slash] + rel)[|absSrc| + 1..] == rel;
  }

  /** `os.path.abspath(os.path.join(dirname, filename))` for a file the walk lists. */
  function AbsName(step: WalkStep, filename: string): string
  {
    step.absDir + [Slash] + filename
  }

  function EntryFor(step: WalkStep, filename: string, absSrc: string): ZipEntry
  {
    ZipEntry(AbsName(step, filename), ArcName(AbsName(step, filename), absSrc))
  }

  /** The entries for the first files of one walk step, in order. */
  function StepEntries(step: WalkStep, files: seq<string>, absSrc: string): seq<ZipEntry>
    decreases |files|
  {
    if files == [] then []
    else
      var init := StepEntries(step, files[..|files| - 1], absSrc);
      var f := files[|files| - 1];
      if Included(step.dirname, f) then init + [EntryFor(step, f, absSrc)] else init
  }

  /** The archive's entries for the whole walk, in walk order. */
  function ZipPlan(walk: seq<WalkStep>, absSrc: string): seq<ZipEntry>
    decreases |walk|
  {
    if walk == [] then []
    else ZipPlan(walk[..|walk| - 1], absSrc) + StepEntries(walk[|walk| - 1], walk[|walk| - 1].files, absSrc)
  }

  /** Each included file of a step has its entry. */
  lemma {:induction false} StepEntriesComplete(step: WalkStep, files: seq<string>, absSrc: string, j: nat)
    requires j < |files| && Included(step.dirname, files[j])
    ensures EntryFor(step, files[j], absSrc) in StepEntries(step, files, absSrc)
    decreases |files|
  {
    var init := files[..|files| - 1];
    if j < |init| {
      assert init[j] == files[j];
      StepEntriesComplete(step, init, absSrc, j);
    }
  }

  /** Each entry of a step is that of an included file. */
  lemma {:induction false} StepEntriesSound(step: WalkStep, files: seq<string>, absSrc: string, k: nat)
    requires k < |StepEntries(step, files, absSrc)|
    ensures exists j | 0 <= j < |files| ::
      Included(step.dirname, files[j]) && StepEntries(step, files, absSrc)[k] == EntryFor(step, files[j], absSrc)
    decreases |files|
  {
    var init := files[..|files| - 1];
    var before := StepEntries(step, init, absSrc);
    if k < |before| {
      StepEntriesSound(step, init, absSrc, k);
      var j :| 0 <= j < |init| && Included(step.dirname, init[j]) && before[k] == EntryFor(step, init[j], absSrc);
      assert files[j] == init[j];
    } else {
      assert Included(step.dirname, files[|files| - 1]);
    }
  }

  /** Every included file of every walked directory is in the archive. */
  lemma {:induction false} ZipPlanComplete(walk: seq<WalkStep>, absSrc: string, i: nat, j: nat)
    requires i < |walk| && j < |walk[i].files| && Included(walk[i].dirname, walk[i].files[j])
    ensures EntryFor(walk[i], walk[i].files[j], absSrc) in ZipPlan(walk, absSrc)
    decreases |walk|
  {
    var init := walk[..|walk| - 1];
    if i < |init| {
      assert init[i] == walk[i];
      ZipPlanComplete(init, absSrc, i, j);
    } else {
      StepEntriesComplete(walk[i], walk[i].files, absSrc, j);
    }
  }

  /** Every archive entry is an included file of some walked directory, under its archive name. */
  lemma {:induction false} ZipPlanSound(walk: seq<WalkStep>, absSrc: string, k: nat)
    requires k < |ZipPlan(walk, absSrc)|
    ensures exists i, j | 0 <= i < |walk| && 0 <= j < |walk[i].files| ::
      Included(walk[i].dirname, walk[i].files[j]) && ZipPlan(walk, absSrc)[k] == EntryFor(walk[i], walk[i].files[j], absSrc)
    decreases |walk|
  {
    var init, last := walk[..|walk| - 1], walk[|walk| - 1];
    var before := ZipPlan(init, absSrc);
    if k < |before| {
      ZipPlanSound(init, absSrc, k);
      var i, j :| 0 <= i < |init| && 0 <= j < |init[i].files| &&
        Included(init[i].dirname, init[i].files[j]) && before[k] == EntryFor(init[i], init[i].files[j], absSrc);
      assert walk[i] == init[i];
    } else {
      StepEntriesSound(last, last.files, absSrc, k - |before|);
      var j :| 0 <= j < |last.files| && Included(last.dirname, last.files[j]) &&
        StepEntries(last, last.files, absSrc)[k - |before|] == EntryFor(last, last.files[j], absSrc);
      assert walk[|walk| - 1] == last;
    }
  }

  /**
   * The nested loop of `write_profile_zip` over the walk and each directory's files, writing
   * every included file under its archive name.
   */
  method ZipEntries(walk: seq<WalkStep>, absSrc: string) returns (entries: seq<ZipEntry>)
    ensures entries == ZipPlan(walk, absSrc)
  {
    entries := [];
    for i := 0 to |walk|
      invariant entries == ZipPlan(walk[..i], absSrc)
    {
      var step := walk[i];
      var added := [];
      if !Contains(step.dirname, HiddenMark) {
        added := StepFiles(step, absSrc);
      } else {
        HiddenStepEmpty(step, step.files, absSrc);
      }
      assert walk[..i + 1][..i] == walk[..i];
      entries := entries + added;
    }
    assert walk[..|walk|] == walk;
  }

  /** The inner loop of `write_profile_zip` over one directory's files, without a dot directory. */
  method StepFiles(step: WalkStep, absSrc: string) returns (added: seq<ZipEntry>)
    requires !Contains(step.dirname, HiddenMark)
    ensures added == StepEntries(step, step.files, absSrc)
  {
    added := [];
    for j := 0 to |step.files|
      invariant added == StepEntries(step, step.files[..j], absSrc)
    {
      var filename := step.files[j];
      assert step.files[..j + 1][..j] == step.files[..j];
      if EndsWith(filename, XmlSuffix) || EndsWith(filename, TxtSuffix) {
        var absname := AbsName(step, filename);
        added := added + [ZipEntry(absname, ArcName(absname, absSrc))];
      }
    }
    assert step.files[..|step.files|] == step.files;
  }

  /** A directory with a dot directory on its path contributes nothing. */
  lemma {:induction false} HiddenStepEmpty(step: WalkStep, files: seq<string>, absSrc: string)
    requires Contains(step.dirname, HiddenMark)
    ensures StepEntries(step, files, absSrc) == []
    decreases |files|
  {
    if files != [] {
      HiddenStepEmpty(step, files[..|files| - 1], absSrc);
    }
  }

  // ---- Writing the profile, and the stand-alone version check ----

  /**
   * `outfile.write(sd['profile_version'])`: a missing key raises KeyError, a value that is not a
   * string TypeError.
   */
  function ProfileVersion(sd: Json): (r: Result<string>)
    ensures r.Ok? <==> sd.Obj? && ProfileVersionKey in sd.fields && sd.fields[ProfileVersionKey].Str?
    ensures r.Ok? ==> Str(r.value) == sd.fields[ProfileVersionKey]
  {
    match Lookup(sd, ProfileVersionKey)
    case Raise(e) => Raise(e)
    case Ok(v) => if v.Str? then Ok(v.s) else Raise(TypeError)
  }

  /**
   * `write_profile(logger, drivers)`. Without server data it returns False (`r == Ok(false)`)
   * before writing anything. Otherwise it writes `nodedef.xml`, where a uom without an editor
   * raises KeyError and leaves the lines before it; then `version.txt`, which is opened (so
   * emptied) before the server's `profile_version` is fetched; then the archive. `Ok(true)`
   * stands for running to the end. An exception from `get_server_data` escapes as it is.
   */
  method WriteProfile(drivers: seq<Driver>, server: Option<Json>, walk: seq<WalkStep>, absSrc: string)
    returns (r: Result<bool>, nodedef: Option<string>, version: Option<string>, zip: seq<ZipEntry>)
    ensures GetServerData(server).Raise? ==>
      r == Raise(GetServerData(server).error) && nodedef.None? && version.None? && zip == []
    ensures GetServerData(server) == Ok(None) ==> r == Ok(false) && nodedef.None? && version.None? && zip == []
    ensures GetServerData(server).Ok? && GetServerData(server).value.Some? ==>
      Written(GetServerData(server).value.value, drivers, walk, absSrc, r, nodedef, version, zip)
  {
    var data := GetServerData(server);
    if data.Raise? {
      return Raise(data.error), None, None, [];
    }
    if data.value.None? {
      return Ok(false), None, None, [];
    }
    r, nodedef, version, zip := WriteFiles(data.value.value, drivers, walk, absSrc);
  }

  /** The files `write_profile` leaves once it has server data `sd`. */
  predicate Written(sd: Json, drivers: seq<Driver>, walk: seq<WalkStep>, absSrc: string,
                    r: Result<bool>, nodedef: Option<string>, version: Option<string>, zip: seq<ZipEntry>)
  {
    var text := NodeDefText(UomEditors, drivers);
    && nodedef == Some(if text.Ok? then text.value else PartialNodeDef(UomEditors, drivers))
    && (text.Raise? ==> r == Raise(KeyError) && version.None? && zip == [])
    && (text.Ok? && ProfileVersion(sd).Raise? ==> r == Raise(ProfileVersion(sd).error) && version == Some("") && zip == [])
    && (text.Ok? && ProfileVersion(sd).Ok? ==>
          r == Ok(true) && version == Some(ProfileVersion(sd).value) && zip == ZipPlan(walk, absSrc))
  }

  /** The part of `write_profile` after the server data is read. */
  method WriteFiles(sd: Json, drivers: seq<Driver>, walk: seq<WalkStep>, absSrc: string)
    returns (r: Result<bool>, nodedef: Option<string>, version: Option<string>, zip: seq<ZipEntry>)
    ensures Written(sd, drivers, walk, absSrc, r, nodedef, version, zip)
  {
    var f := new TextFile();
    var err := WriteNodeDef(f, UomEditors, drivers);
    ghost var text := NodeDefText(UomEditors, drivers);
    ghost var expected := if text.Ok? then text.value else PartialNodeDef(UomEditors, drivers);
    assert f.text == "" + expected;
    assert "" + expected == expected;
    nodedef := Some(f.text);
    if err.Some? {
      return Raise(err.value), nodedef, None, [];
    }
    var v := new TextFile();
    var pv := ProfileVersion(sd);
    if pv.Raise? {
      return Raise(pv.error), nodedef, Some(v.text), [];
    }
    v.Write(pv.value);
    assert v.text == "" + pv.value == pv.value;
    version := Some(v.text);
    zip := ZipEntries(walk, absSrc);
    r := Ok(true);
  }

  /**
   * What reading `profile/version.txt` meets: no file, another read error, or its text as a
   * file opened in text mode reads it, with every `\r\n` and lone `\r` already turned into `\n`.
   */
  datatype VersionFile = Missing | Unreadable | Content(text: string)

  /** `readline()`: the text up to and including the first line break, or all of it. */
  function ReadLine(text: string): (line: string)
    ensures |line| <= |text| && line == text[..|line|]
    ensures NewLine !in text ==> line == text
    ensures NewLine in text ==> |line| >= 1 && line[|line| - 1] == NewLine && NewLine !in line[..|line| - 1]
    decreases |text|
  {
    if text == [] then ""
    else if text[0] == NewLine then [NewLine]
    else [text[0]] + ReadLine(text[1..])
  }

  /** The local version the stand-alone path reads; None when the file cannot be read. */
  function LocalVersion(f: VersionFile): Option<string>
  {
    match f
    case Content(text) => Some(RStrip(ReadLine(text)))
    case _ => None
  }

  /**
   * What `local_version` holds when it is compared: the stripped first line, or None when the
   * file could not be read.
   */
  function LocalJson(f: VersionFile): (j: Json)
    ensures j.Null? <==> LocalVersion(f).None?
    ensures j.Str? ==> j.s == LocalVersion(f).value
  {
    if LocalVersion(f).Some? then Str(LocalVersion(f).value) else Null
  }

  /**
   * The stand-alone path: with server data it regenerates iff `local_version` differs from
   * `profile_version` (a missing key raises KeyError); without it, it decides nothing (None).
   * An unread file leaves `local_version` None, which equals a null `profile_version`.
   */
  function ShouldRegenerate(server: Option<Json>, f: VersionFile): (r: Result<Option<bool>>)
    ensures GetServerData(server) == Ok(None) ==> r == Ok(None)
    ensures GetServerData(server).Ok? && GetServerData(server).value.Some? ==>
      var sd := GetServerData(server).value.value;
      && (r.Ok? <==> ProfileVersionKey in sd.fields)
      && (r.Ok? && LocalVersion(f).Some? ==>
            r.value == Some(sd.fields[ProfileVersionKey] != Str(LocalVersion(f).value)))
      && (r.Ok? && LocalVersion(f).None? ==> r.value == Some(!sd.fields[ProfileVersionKey].Null?))
  {
    match GetServerData(server)
    case Raise(e) => Raise(e)
    case Ok(None) => Ok(None)
    case Ok(Some(sd)) =>
      match Lookup(sd, ProfileVersionKey)
      case Raise(e) => Raise(e)
      case Ok(pv) => Ok(Some(pv != LocalJson(f)))
  }

  /** Without a version file and with a null `profile_version`, None == None: no regeneration. */
  lemma UnreadNullVersion(server: Option<Json>, f: VersionFile)
    requires !f.Content?
    requires GetServerData(server).Ok? && GetServerData(server).value.Some?
    requires ProfileVersionKey in GetServerData(server).value.value.fields
    requires GetServerData(server).value.value.fields[ProfileVersionKey] == Null
    ensures ShouldRegenerate(server, f) == Ok(Some(false))
  {
  }

  /**
   * A version file holding exactly the text `write_profile` wrote (one line, no trailing
   * whitespace) reads back as that text, so the stand-alone path does not regenerate.
   */
  lemma WrittenVersionIsCurrent(server: Option<Json>, written: string)
    requires GetServerData(server).Ok? && GetServerData(server).value.Some?
    requires ProfileVersion(GetServerData(server).value.value) == Ok(written)
    requires NewLine !in written && (written == [] || !IsSpace(written[|written| - 1]))
    ensures ShouldRegenerate(server, Content(written)) == Ok(Some(false))
  {
    assert LocalVersion(Content(written)) == Some(written);
  }

  /** A line with its line break reads back without it. */
  lemma ReadStripLine(v: string, rest: string)
    requires NewLine !in v && (v == [] || !IsSpace(v[|v| - 1]))
    ensures RStrip(ReadLine(v + [NewLine] + rest)) == v
  {
    ReadLineAt(v, rest);
    assert (v + [NewLine])[..|v|] == v;
  }

  lemma {:induction false} ReadLineAt(v: string, rest: string)
    requires NewLine !in v
    ensures ReadLine(v + [NewLine] + rest) == v + [NewLine]
    decreases |v|
  {
    if v != [] {
      var t, w := v + [NewLine] + rest, v[1..];
      assert v == [v[0]] + w;
      assert t[0] == v[0] && v[0] != NewLine;
      assert t[1..] == w + [NewLine] + rest;
      ReadLineAt(w, rest);
      assert ReadLine(t) == [v[0]] + ReadLine(t[1..]);
    } else {
      assert (v + [NewLine] + rest)[0] == NewLine;
    }
  }
}
