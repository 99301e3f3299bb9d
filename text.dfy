/**
 * The few Python string operations the modelled code relies on:
 * `str(int)`, `int(str)`, `float(str)`, `strip`, `split(sep)`, `startswith`, `endswith` and `in`.
 */
module Text {
  import opened Wrappers

  predicate IsDigit(c: char) { '0' <= c <= '9' }

  predicate AllDigits(s: string) { forall i | 0 <= i < |s| :: IsDigit(s[i]) }

  function DigitChar(d: int): (c: char)
    requires 0 <= d < 10
    ensures IsDigit(c) && c as int - '0' as int == d
  {
    ('0' as int + d) as char
  }

  /** Decimal digits of a natural number, most significant first, no leading zeros. */
  function NatToString(n: nat): (s: string)
    ensures |s| >= 1 && AllDigits(s)
    ensures n >= 10 ==> |s| >= 2
    decreases n
  {
    if n < 10 then [DigitChar(n)] else NatToString(n / 10) + [DigitChar(n % 10)]
  }

  /** Python `str(i)` for an `int`. */
  function IntToString(i: int): string
  {
    if i < 0 then "-" + NatToString(-i) else NatToString(i)
  }

  /** The value of a string of decimal digits. */
  function DigitsValue(s: string): nat
    requires AllDigits(s)
    decreases |s|
  {
    if s == [] then 0 else DigitsValue(s[..|s| - 1]) * 10 + (s[|s| - 1] as int - '0' as int)
  }

  /**
   * The characters Python's `str.isspace()` accepts: those `strip()` and `rstrip()` remove, and
   * those `int()` and `float()` ignore around a number.
   */
  predicate IsSpace(c: char)
  {
    || '\t' <= c <= '\r' || '\U{1c}' <= c <= ' ' || c == '\U{85}' || c == '\U{a0}' || c == '\U{1680}'
    || '\U{2000}' <= c <= '\U{200a}' || c == '\U{2028}' || c == '\U{2029}' || c == '\U{202f}'
    || c == '\U{205f}' || c == '\U{3000}'
  }

  predicate AllWhitespace(s: string) { forall i | 0 <= i < |s| :: IsSpace(s[i]) }

  /** Neither end is whitespace. */
  predicate Trimmed(t: string) { t == [] || (!IsSpace(t[0]) && !IsSpace(t[|t| - 1])) }

  /** `s.lstrip()`: what remains after the leading whitespace. */
  function LStrip(s: string): string
    decreases |s|
  {
    if s == [] || !IsSpace(s[0]) then s else LStrip(s[1..])
  }

  /** `s.rstrip()`: the longest prefix that does not end in whitespace. */
  function RStrip(s: string): string
    decreases |s|
  {
    if s == [] || !IsSpace(s[|s| - 1]) then s else RStrip(s[..|s| - 1])
  }

  /** `s.strip()`. */
  function Strip(s: string): string
  {
    RStrip(LStrip(s))
  }

  /** `lstrip()` keeps a suffix that does not start with whitespace and drops only whitespace. */
  lemma {:induction false} LStripSuffix(s: string)
    ensures var r := LStrip(s);
      && |r| <= |s| && r == s[|s| - |r|..]
      && (r == [] || !IsSpace(r[0]))
      && AllWhitespace(s[..|s| - |r|])
    decreases |s|
  {
    if s != [] && IsSpace(s[0]) {
      LStripSuffix(s[1..]);
      var r := LStrip(s);
      assert s[1..][|s| - 1 - |r|..] == s[|s| - |r|..];
      assert forall i | 0 <= i < |s| - |r| :: s[..|s| - |r|][i] == s[i];
      assert forall i | 1 <= i < |s| - |r| :: s[i] == s[1..][..|s| - 1 - |r|][i - 1];
    }
  }

  /** `rstrip()` keeps a prefix that does not end in whitespace and drops only whitespace. */
  lemma {:induction false} RStripPrefix(s: string)
    ensures var r := RStrip(s);
      && |r| <= |s| && r == s[..|r|]
      && (r == [] || !IsSpace(r[|r| - 1]))
      && AllWhitespace(s[|r|..])
    decreases |s|
  {
    if s != [] && IsSpace(s[|s| - 1]) {
      var p := s[..|s| - 1];
      RStripPrefix(p);
      var r := RStrip(p);
      assert RStrip(s) == r;
      assert p[..|r|] == s[..|r|];
      assert s[|r|..] == p[|r|..] + [s[|s| - 1]];
      AllWhitespaceAppend(p[|r|..], s[|s| - 1]);
    }
  }

  lemma AllWhitespaceAppend(w: string, c: char)
    requires AllWhitespace(w) && IsSpace(c)
    ensures AllWhitespace(w + [c])
  {
    assert forall i | 0 <= i < |w| :: (w + [c])[i] == w[i];
  }

  /** `strip()` shortens, and neither end of what it leaves is whitespace. */
  lemma StripTrimmed(s: string)
    ensures |Strip(s)| <= |s| && Trimmed(Strip(s))
  {
    LStripSuffix(s);
    RStripPrefix(LStrip(s));
    var l := LStrip(s);
    var r := RStrip(l);
    if r != [] {
      assert r[0] == l[0];
    }
  }

  /** Whitespace in front of a string that does not start with whitespace is stripped. */
  lemma {:induction false} LStripPadded(pre: string, t: string)
    requires AllWhitespace(pre)
    requires t == [] || !IsSpace(t[0])
    ensures LStrip(pre + t) == t
    decreases |pre|
  {
    if pre != [] {
      assert (pre + t)[1..] == pre[1..] + t;
      LStripPadded(pre[1..], t);
    }
  }

  /** Whitespace after a string that does not end in whitespace is stripped. */
  lemma {:induction false} RStripPadded(t: string, post: string)
    requires AllWhitespace(post)
    requires t == [] || !IsSpace(t[|t| - 1])
    ensures RStrip(t + post) == t
    decreases |post|
  {
    if post != [] {
      var p := post[..|post| - 1];
      assert (t + post)[..|t + post| - 1] == t + p;
      RStripPadded(t, p);
    }
  }

  /** Surrounding whitespace is what `strip()` removes, and all it removes. */
  lemma StripPadded(pre: string, t: string, post: string)
    requires AllWhitespace(pre) && AllWhitespace(post)
    requires Trimmed(t)
    ensures Strip(pre + t + post) == t
  {
    if t == [] {
      assert pre + t + post == pre + post;
      assert AllWhitespace(pre + post);
      LStripPadded(pre + post, []);
      assert pre + post + [] == pre + post;
    } else {
      assert pre + t + post == pre + (t + post);
      LStripPadded(pre, t + post);
      RStripPadded(t, post);
    }
  }

  /** A string whose ends are not whitespace is kept by `strip()`. */
  lemma StripKeeps(t: string)
    requires Trimmed(t)
    ensures Strip(t) == t
  {
    StripPadded("", t, "");
    assert "" + t + "" == t;
  }

  const Underscore := '_'

  /**
   * A digit part as `int()` and `float()` read it: ASCII digits, where a single underscore may
   * stand between two digits.
   */
  predicate DigitPart(u: string)
  {
    && |u| >= 1 && IsDigit(u[0]) && IsDigit(u[|u| - 1])
    && (forall i | 0 <= i < |u| :: IsDigit(u[i]) || u[i] == Underscore)
    && (forall i, j | 0 <= i < |u| && 0 <= j < |u| && j == i + 1 :: u[i] == Underscore ==> u[j] != Underscore)
  }

  /** `u` without its underscores. */
  function Ungrouped(u: string): string
    decreases |u|
  {
    if u == [] then [] else (if u[0] == Underscore then [] else [u[0]]) + Ungrouped(u[1..])
  }

  /** Digits and underscores lose the underscores and keep the digits. */
  lemma {:induction false} UngroupedDigits(u: string)
    requires forall i | 0 <= i < |u| :: IsDigit(u[i]) || u[i] == Underscore
    ensures AllDigits(Ungrouped(u))
    decreases |u|
  {
    if u != [] {
      UngroupedDigits(u[1..]);
    }
  }

  /** Digits alone are kept as they are. */
  lemma {:induction false} UngroupedPlain(u: string)
    requires AllDigits(u)
    ensures Ungrouped(u) == u
    decreases |u|
  {
    if u != [] {
      UngroupedPlain(u[1..]);
      assert u == [u[0]] + u[1..];
    }
  }

  /**
   * The value of a digit part, read from its last digit back and passing over underscores; 0
   * for the empty part on one side of a point.
   */
  function PartValue(u: string): nat
    decreases |u|
  {
    if u == [] then 0
    else if u[|u| - 1] == Underscore then PartValue(u[..|u| - 1])
    else PartValue(u[..|u| - 1]) * 10 + DigitValue(u[|u| - 1])
  }

  /** The worth of a digit character; a character of any other kind, which no digit part holds, is 0. */
  function DigitValue(c: char): nat
  {
    if IsDigit(c) then c as int - '0' as int else 0
  }

  /** A part of digits and underscores is worth the digits left once the underscores go. */
  lemma {:induction false} PartValueDigits(u: string)
    requires forall i | 0 <= i < |u| :: IsDigit(u[i]) || u[i] == Underscore
    ensures AllDigits(Ungrouped(u)) && PartValue(u) == DigitsValue(Ungrouped(u))
    decreases |u|
  {
    UngroupedDigits(u);
    if u != [] {
      var p, c := u[..|u| - 1], u[|u| - 1];
      assert u == p + [c];
      assert forall i | 0 <= i < |p| :: p[i] == u[i];
      PartValueDigits(p);
      UngroupedAppend(p, [c]);
      assert [c][1..] == [];
      var x := Ungrouped(p);
      if c == Underscore {
        assert Ungrouped([c]) == [];
        assert x + [] == x;
      } else {
        assert Ungrouped([c]) == [c];
        assert (x + [c])[..|x|] == x;
      }
    }
  }

  /** An integer literal as `int()` reads it once stripped: an optional sign, then a digit part. */
  predicate IntLiteral(t: string)
  {
    DigitPart(t) || (|t| >= 2 && (t[0] == '-' || t[0] == '+') && DigitPart(t[1..]))
  }

  function LiteralValue(t: string): int
    requires IntLiteral(t)
  {
    if DigitPart(t) then PartValue(t)
    else if t[0] == '-' then -(PartValue(t[1..]) as int)
    else PartValue(t[1..])
  }

  /**
   * Python `int(s)` on a string: surrounding whitespace is ignored, then an optional sign and a
   * digit part; anything else raises ValueError (here: None).
   */
  function ParseInt(s: string): (r: Option<int>)
    ensures r.Some? <==> IntLiteral(Strip(s))
  {
    var t := Strip(s);
    if IntLiteral(t) then Some(LiteralValue(t)) else None
  }

  lemma {:induction false} DigitsOfNatToString(n: nat)
    ensures DigitsValue(NatToString(n)) == n
    decreases n
  {
    if n >= 10 {
      var s, c := NatToString(n / 10), DigitChar(n % 10);
      DigitsOfNatToString(n / 10);
      assert (s + [c])[..|s + [c]| - 1] == s;
    }
  }

  /** The decimal rendering of an integer is an integer literal of that value. */
  lemma IntToStringLiteral(i: int)
    ensures IntLiteral(IntToString(i)) && LiteralValue(IntToString(i)) == i
  {
    var n: nat := if i < 0 then -i else i;
    var d := NatToString(n);
    DigitsOfNatToString(n);
    DigitsPart(d);
    if i < 0 {
      var s := "-" + d;
      assert s[1..] == d;
      assert !IsDigit(s[0]);
    }
  }

  /** `int(str(i)) == i`: the decimal rendering of an integer reads back as that integer. */
  lemma ParseIntToString(i: int)
    ensures ParseInt(IntToString(i)) == Some(i)
  {
    IntToStringLiteral(i);
    var s := IntToString(i);
    assert IsDigit(s[|s| - 1]);
    StripKeeps(s);
  }

  /** `int()` ignores whitespace around the number: `int(" 9\n") == int("9")`. */
  lemma ParseIntPadded(pre: string, t: string, post: string)
    requires AllWhitespace(pre) && AllWhitespace(post)
    requires Trimmed(t)
    ensures ParseInt(pre + t + post) == ParseInt(t)
  {
    StripPadded(pre, t, post);
    StripKeeps(t);
  }

  lemma {:induction false} UngroupedAppend(x: string, y: string)
    ensures Ungrouped(x + y) == Ungrouped(x) + Ungrouped(y)
    decreases |x|
  {
    if x == [] {
      assert x + y == y;
    } else {
      assert (x + y)[0] == x[0] && (x + y)[1..] == x[1..] + y;
      UngroupedAppend(x[1..], y);
    }
  }

  /**
   * An underscore between two digit parts leaves the value alone, `int("1_0") == int("10")`,
   * and the value is the first part shifted past the digits of the second.
   */
  lemma ParseIntGrouped(a: string, b: string)
    requires DigitPart(a) && DigitPart(b)
    ensures ParseInt(a + [Underscore] + b).Some? && ParseInt(a + b).Some?
    ensures ParseInt(a + [Underscore] + b).value == ParseInt(a + b).value
      == PartValue(a) * Pow10(|Ungrouped(b)|) + PartValue(b)
  {
    GroupedValue(a, b);
    JoinedValue(a, b);
  }

  lemma GroupedValue(a: string, b: string)
    requires DigitPart(a) && DigitPart(b)
    ensures ParseInt(a + [Underscore] + b).Some?
    ensures ParseInt(a + [Underscore] + b).value == PartValue(a) * Pow10(|Ungrouped(b)|) + PartValue(b)
  {
    GroupedPart(a, b);
    ParseIntPart(a + [Underscore] + b);
    PartValueDigits(a + [Underscore] + b);
    PartValueDigits(a);
    PartValueDigits(b);
    UngroupedGrouped(a, b);
    UngroupedDigits(a);
    UngroupedDigits(b);
    DigitsValueAppend(Ungrouped(a), Ungrouped(b));
  }

  lemma UngroupedGrouped(a: string, b: string)
    ensures Ungrouped(a + [Underscore] + b) == Ungrouped(a) + Ungrouped(b)
  {
    UngroupedAppend(a, [Underscore] + b);
    UngroupedAppend([Underscore], b);
    assert a + [Underscore] + b == a + ([Underscore] + b);
    assert Ungrouped([Underscore]) == [];
    assert [] + Ungrouped(b) == Ungrouped(b);
  }

  lemma JoinedValue(a: string, b: string)
    requires DigitPart(a) && DigitPart(b)
    ensures ParseInt(a + b).Some? && ParseInt(a + b).value == PartValue(a) * Pow10(|Ungrouped(b)|) + PartValue(b)
  {
    JoinedPart(a, b);
    ParseIntPart(a + b);
    JoinedPartValue(a, b);
  }

  lemma JoinedPartValue(a: string, b: string)
    requires DigitPart(a) && DigitPart(b) && DigitPart(a + b)
    ensures PartValue(a + b) == PartValue(a) * Pow10(|Ungrouped(b)|) + PartValue(b)
  {
    UngroupedAppend(a, b);
    PartValueDigits(a + b);
    PartValueDigits(a);
    PartValueDigits(b);
    DigitsValueAppend(Ungrouped(a), Ungrouped(b));
  }

  /** The digits of `x + y` are worth `x` shifted past the digits of `y`, plus `y`. */
  lemma {:induction false} DigitsValueAppend(x: string, y: string)
    requires AllDigits(x) && AllDigits(y)
    ensures AllDigits(x + y) && DigitsValue(x + y) == DigitsValue(x) * Pow10(|y|) + DigitsValue(y)
    decreases |y|
  {
    if y == [] {
      assert x + y == x;
    } else {
      var y', c := y[..|y| - 1], y[|y| - 1] as int - '0' as int;
      assert (x + y)[..|x + y| - 1] == x + y';
      assert (x + y)[|x + y| - 1] == y[|y| - 1];
      DigitsValueAppend(x, y');
      var dx, dy := DigitsValue(x), DigitsValue(y');
      assert DigitsValue(x + y) == DigitsValue(x + y') * 10 + c;
      assert DigitsValue(y) == dy * 10 + c;
      assert Pow10(|y|) == Pow10(|y'|) * 10;
      calc {
        DigitsValue(x + y);
        (dx * Pow10(|y'|) + dy) * 10 + c;
        { MulShift(dx, Pow10(|y'|)); }
        dx * Pow10(|y|) + (dy * 10 + c);
      }
    }
  }

  lemma MulShift(d: nat, p: nat)
    ensures d * p * 10 == d * (p * 10)
  {
  }

  lemma GroupedPart(a: string, b: string)
    requires DigitPart(a) && DigitPart(b)
    ensures DigitPart(a + [Underscore] + b)
  {
    var g := a + [Underscore] + b;
    forall i | 0 <= i < |g| ensures IsDigit(g[i]) || g[i] == Underscore {
      if i < |a| { assert g[i] == a[i]; } else if i > |a| { assert g[i] == b[i - |a| - 1]; }
    }
    forall i, k | 0 <= i && k == i + 1 && k < |g| && g[i] == Underscore ensures g[k] != Underscore {
      if i < |a| {
        assert g[i] == a[i];
        assert i < |a| - 1;
        assert g[i + 1] == a[i + 1];
      } else if i == |a| {
        assert g[i + 1] == b[0];
      } else {
        assert g[i] == b[i - |a| - 1] && g[i + 1] == b[i - |a|];
      }
    }
    assert g[|g| - 1] == b[|b| - 1];
  }

  lemma JoinedPart(a: string, b: string)
    requires DigitPart(a) && DigitPart(b)
    ensures DigitPart(a + b)
  {
    var j := a + b;
    forall i | 0 <= i < |j| ensures IsDigit(j[i]) || j[i] == Underscore {
      if i < |a| { assert j[i] == a[i]; } else { assert j[i] == b[i - |a|]; }
    }
    forall i, k | 0 <= i && k == i + 1 && k < |j| && j[i] == Underscore ensures j[k] != Underscore {
      if i < |a| {
        assert j[i] == a[i];
        assert i < |a| - 1;
        assert j[i + 1] == a[i + 1];
      } else {
        assert j[i] == b[i - |a|] && j[i + 1] == b[i - |a| + 1];
      }
    }
    assert j[|j| - 1] == b[|b| - 1];
  }

  /** A digit part, with nothing around it, reads as its value. */
  lemma ParseIntPart(u: string)
    requires DigitPart(u)
    ensures ParseInt(u) == Some(PartValue(u))
  {
    StripKeeps(u);
  }

  /** A non-empty digit string is a digit part worth its digits. */
  lemma DigitsPart(d: string)
    requires |d| >= 1 && AllDigits(d)
    ensures DigitPart(d) && Ungrouped(d) == d && PartValue(d) == DigitsValue(d)
  {
    UngroupedPlain(d);
    PartValueDigits(d);
  }

  /** Distinct integers have distinct decimal renderings. */
  lemma IntToStringInjective(i: int, j: int)
    requires IntToString(i) == IntToString(j)
    ensures i == j
  {
    ParseIntToString(i);
    ParseIntToString(j);
  }

  predicate StartsWith(s: string, prefix: string)
  {
    |prefix| <= |s| && s[..|prefix|] == prefix
  }

  predicate EndsWith(s: string, suffix: string)
  {
    |suffix| <= |s| && s[|s| - |suffix|..] == suffix
  }

  predicate OccursAt(s: string, sub: string, k: int)
  {
    0 <= k && k + |sub| <= |s| && s[k..k + |sub|] == sub
  }

  /** Python `sub in s` for strings. */
  predicate Contains(s: string, sub: string)
  {
    exists k | 0 <= k <= |s| :: OccursAt(s, sub, k)
  }

  /** Python `s.split(sep)` for a one-character separator. */
  function Split(s: string, sep: char): (parts: seq<string>)
    ensures |parts| >= 1
    decreases |s|
  {
    if s == [] then [""]
    else if s[0] == sep then [""] + Split(s[1..], sep)
    else var rest := Split(s[1..], sep); [[s[0]] + rest[0]] + rest[1..]
  }

  /** Python `sep.join(parts)`. */
  function Join(parts: seq<string>, sep: char): string
    decreases |parts|
  {
    if parts == [] then ""
    else if |parts| == 1 then parts[0]
    else parts[0] + [sep] + Join(parts[1..], sep)
  }

  /** Splitting and re-joining on the same separator gives the original string back. */
  lemma {:induction false} JoinSplit(s: string, sep: char)
    ensures Join(Split(s, sep), sep) == s
    decreases |s|
  {
    if s != [] {
      JoinSplit(s[1..], sep);
      var rest := Split(s[1..], sep);
      if s[0] == sep {
        assert s == [sep] + s[1..];
      } else {
        if |rest| == 1 {
          assert s == [s[0]] + s[1..];
        } else {
          assert Join(rest, sep) == rest[0] + [sep] + Join(rest[1..], sep);
          assert s == [s[0]] + s[1..];
        }
      }
    }
  }

  /** No part of a split contains the separator. */
  lemma {:induction false} SplitPartsFree(s: string, sep: char)
    ensures forall k | 0 <= k < |Split(s, sep)| :: sep !in Split(s, sep)[k]
    decreases |s|
  {
    if s != [] {
      SplitPartsFree(s[1..], sep);
    }
  }

  /** A string without the separator splits into itself. */
  lemma {:induction false} SplitFree(s: string, sep: char)
    requires sep !in s
    ensures Split(s, sep) == [s]
    decreases |s|
  {
    if s != [] {
      SplitFree(s[1..], sep);
      assert [s[0]] + s[1..] == s;
    }
  }

  /** Splitting `x + sep + y` splits `x` and `y` separately. */
  lemma {:induction false} SplitAround(x: string, sep: char, y: string)
    ensures Split(x + [sep] + y, sep) == Split(x, sep) + Split(y, sep)
    decreases |x|
  {
    if x == [] {
      assert x + [sep] + y == [sep] + y;
      SplitCons(sep, y, sep);
    } else {
      SplitAround(x[1..], sep, y);
      SplitAroundCons(x[0], x[1..], sep, y);
      assert x == [x[0]] + x[1..];
    }
  }

  /** The step of `SplitAround`: one more character in front of `x`. */
  lemma SplitAroundCons(c: char, x: string, sep: char, y: string)
    requires Split(x + [sep] + y, sep) == Split(x, sep) + Split(y, sep)
    ensures Split([c] + x + [sep] + y, sep) == Split([c] + x, sep) + Split(y, sep)
  {
    var t := x + [sep] + y;
    assert [c] + x + [sep] + y == [c] + t;
    SplitCons(c, t, sep);
    SplitCons(c, x, sep);
    HeadedAppend(c, sep, Split(x, sep), Split(y, sep));
  }

  /** What `SplitCons` makes of a first character `c`, applied to the parts `a` of a string. */
  function Headed(c: char, sep: char, a: seq<string>): seq<string>
    requires |a| >= 1
  {
    if c == sep then [""] + a else Prefixed(c, a)
  }

  lemma HeadedAppend(c: char, sep: char, a: seq<string>, b: seq<string>)
    requires |a| >= 1
    ensures Headed(c, sep, a + b) == Headed(c, sep, a) + b
  {
    if c != sep {
      PrefixAppend(c, a, b);
    } else {
      assert [""] + (a + b) == [""] + a + b;
    }
  }

  /** `parts` with `c` put in front of its first part. */
  function Prefixed(c: char, parts: seq<string>): seq<string>
    requires |parts| >= 1
  {
    [[c] + parts[0]] + parts[1..]
  }

  lemma PrefixAppend(c: char, a: seq<string>, b: seq<string>)
    requires |a| >= 1
    ensures Prefixed(c, a + b) == Prefixed(c, a) + b
  {
    assert (a + b)[0] == a[0] && (a + b)[1..] == a[1..] + b;
  }

  /** `Split` of a string by its first character. */
  lemma SplitCons(c: char, t: string, sep: char)
    ensures Split([c] + t, sep) == Headed(c, sep, Split(t, sep))
  {
    assert ([c] + t)[0] == c && ([c] + t)[1..] == t;
  }

  /** Joining parts free of the separator and splitting again gives the parts back. */
  lemma {:induction false} SplitJoin(parts: seq<string>, sep: char)
    requires |parts| >= 1
    requires forall i | 0 <= i < |parts| :: sep !in parts[i]
    ensures Split(Join(parts, sep), sep) == parts
    decreases |parts|
  {
    if |parts| == 1 {
      SplitFree(parts[0], sep);
    } else {
      SplitJoin(parts[1..], sep);
      SplitAround(parts[0], sep, Join(parts[1..], sep));
      SplitFree(parts[0], sep);
      assert parts == [parts[0]] + parts[1..];
    }
  }

  /** Ten to the power `n`. */
  function Pow10(n: nat): (p: nat)
    ensures p >= 1
  {
    if n == 0 then 1 else 10 * Pow10(n - 1)
  }

  lemma {:induction false} DigitsBelowPow10(s: string)
    requires AllDigits(s)
    ensures DigitsValue(s) < Pow10(|s|)
    decreases |s|
  {
    if s != [] {
      DigitsBelowPow10(s[..|s| - 1]);
    }
  }

  /** `m` with each `E` written `e`, so that both exponent markers split alike. */
  function LowerE(m: string): (r: string)
    ensures |r| == |m|
    ensures forall i | 0 <= i < |m| :: r[i] == (if m[i] == 'E' then 'e' else m[i])
  {
    seq(|m|, i requires 0 <= i < |m| => if m[i] == 'E' then 'e' else m[i])
  }

  /** `x` times ten to the power `e`. */
  function Scaled(x: real, e: int): real
  {
    if e >= 0 then x * Pow10(e) as real else x / Pow10(-e) as real
  }

  /**
   * A mantissa as `float()` reads it: a digit part, or two digit parts around a point of which
   * either may be empty but not both.
   */
  function Mantissa(n: string): (r: Option<real>)
    ensures r.Some? ==> |Split(n, '.')| <= 2
  {
    var p := Split(n, '.');
    if |p| == 1 then
      if DigitPart(n) then Some(PartValue(n) as real) else None
    else if |p| == 2 && (p[0] == [] || DigitPart(p[0])) && (p[1] == [] || DigitPart(p[1]))
         && |p[0]| + |p[1]| >= 1 then
      Some(PartValue(p[0]) as real + PartValue(p[1]) as real / Pow10(|Ungrouped(p[1])|) as real)
    else None
  }

  /** An unsigned number as `float()` reads it: a mantissa, then optionally `e` or `E` and an integer literal. */
  function UnsignedFloat(m: string): (r: Option<real>)
  {
    var parts := Split(LowerE(m), 'e');
    if |parts| == 1 then Mantissa(parts[0])
    else if |parts| == 2 && Mantissa(parts[0]).Some? && IntLiteral(parts[1]) then
      Some(Scaled(Mantissa(parts[0]).value, LiteralValue(parts[1])))
    else None
  }

  /** An optionally signed number, as `float()` reads it once stripped. */
  function SignedFloat(t: string): Option<real>
  {
    if |t| >= 1 && (t[0] == '-' || t[0] == '+') then
      match UnsignedFloat(t[1..])
      case None => None
      case Some(v) => Some(if t[0] == '-' then -v else v)
    else UnsignedFloat(t)
  }

  /**
   * Python `float(s)` on a string: surrounding whitespace is ignored, then an optional sign and
   * an unsigned number; anything else raises ValueError (None). The value is exact: binary
   * floating point, and with it `inf` and `nan`, is not modelled.
   */
  function ParseFloat(s: string): (r: Option<real>)
    ensures r.Some? ==> |Split(s, '.')| <= 2
  {
    StripPoints(s);
    SignedPoints(Strip(s));
    SplitPieces(s, '.');
    SignedFloat(Strip(s))
  }

  /** Python `float("%s.%s" % (whole, frac))`: neither part can hold a point of its own. */
  function DecimalOf(whole: string, frac: string): (r: Option<real>)
    ensures r.Some? ==> '.' !in whole && '.' !in frac
  {
    SplitAround(whole, '.', frac);
    SplitPieces(whole, '.');
    SplitPieces(frac, '.');
    ParseFloat(whole + "." + frac)
  }

  /** The number of parts of a split is one more than the separators in the string. */
  lemma {:induction false} SplitPieces(s: string, sep: char)
    ensures |Split(s, sep)| == multiset(s)[sep] + 1
    decreases |s|
  {
    if s != [] {
      assert s == [s[0]] + s[1..];
      SplitPieces(s[1..], sep);
    }
  }

  /** Stripping removes whitespace only, so it keeps every point. */
  lemma StripPoints(s: string)
    ensures multiset(Strip(s))['.'] == multiset(s)['.']
  {
    LStripPoints(s);
    RStripPoints(LStrip(s));
  }

  lemma LStripPoints(s: string)
    ensures multiset(LStrip(s))['.'] == multiset(s)['.']
  {
    LStripSuffix(s);
    var l := LStrip(s);
    var w := s[..|s| - |l|];
    assert s == w + l;
    assert '.' !in w by {
      assert forall i | 0 <= i < |w| :: IsSpace(w[i]);
    }
  }

  lemma RStripPoints(s: string)
    ensures multiset(RStrip(s))['.'] == multiset(s)['.']
  {
    RStripPrefix(s);
    var r := RStrip(s);
    var w := s[|r|..];
    assert s == r + w;
    assert '.' !in w by {
      assert forall i | 0 <= i < |w| :: IsSpace(w[i]);
    }
  }

  /** A signed number `float()` reads has at most one point. */
  lemma SignedPoints(t: string)
    ensures SignedFloat(t).Some? ==> multiset(t)['.'] <= 1
  {
    UnsignedPoints(t);
    if |t| >= 1 && (t[0] == '-' || t[0] == '+') {
      assert t == [t[0]] + t[1..];
      UnsignedPoints(t[1..]);
    }
  }

  /** An unsigned number `float()` reads has at most one point. */
  lemma UnsignedPoints(m: string)
    ensures UnsignedFloat(m).Some? ==> multiset(m)['.'] <= 1
  {
    var e := LowerE(m);
    var parts := Split(e, 'e');
    LowerEPoints(m);
    JoinSplit(e, 'e');
    if UnsignedFloat(m).Some? {
      SplitPieces(parts[0], '.');
      if |parts| == 2 {
        assert Join(parts, 'e') == parts[0] + ['e'] + parts[1];
        LiteralPoints(parts[1]);
      } else {
        assert Join(parts, 'e') == parts[0];
      }
    }
  }

  lemma {:induction false} LowerEPoints(m: string)
    ensures multiset(LowerE(m))['.'] == multiset(m)['.']
    decreases |m|
  {
    if m != [] {
      assert m == [m[0]] + m[1..];
      assert LowerE(m) == [LowerE(m)[0]] + LowerE(m[1..]);
      LowerEPoints(m[1..]);
    }
  }

  lemma LiteralPoints(t: string)
    requires IntLiteral(t)
    ensures '.' !in t
  {
    if !DigitPart(t) {
      assert t == [t[0]] + t[1..];
    }
  }

  /** Trimmed text that does not start with a sign reads as an unsigned number. */
  lemma ParseUnsigned(t: string)
    requires Trimmed(t) && (t == [] || (t[0] != '-' && t[0] != '+'))
    ensures ParseFloat(t) == UnsignedFloat(t)
  {
    StripKeeps(t);
  }

  /** Without an exponent marker the whole text is the mantissa. */
  lemma UnsignedPlain(m: string)
    requires 'e' !in m && 'E' !in m
    ensures UnsignedFloat(m) == Mantissa(m)
  {
    assert LowerE(m) == m;
    SplitFree(m, 'e');
  }

  /** With one exponent marker, the text before it is the mantissa and the text after it the exponent. */
  lemma UnsignedWithExponent(m: string, x: string)
    requires 'e' !in m && 'E' !in m && 'e' !in x && 'E' !in x
    ensures UnsignedFloat(m + "e" + x) ==
      if Mantissa(m).Some? && IntLiteral(x) then Some(Scaled(Mantissa(m).value, LiteralValue(x))) else None
  {
    var s := m + "e" + x;
    assert LowerE(s) == s;
    assert s == m + ['e'] + x;
    SplitAround(m, 'e', x);
    SplitFree(m, 'e');
    SplitFree(x, 'e');
  }

  /** A digit string is a mantissa worth its digits. */
  lemma MantissaDigits(d: string)
    requires |d| >= 1 && AllDigits(d)
    ensures Mantissa(d).Some? && Mantissa(d).value == DigitsValue(d) as real
  {
    NoPoint(d);
    SplitFree(d, '.');
    DigitsPart(d);
  }

  /** Digits around a point are a mantissa worth the whole part plus the fraction. */
  lemma MantissaPoint(whole: string, frac: string)
    requires AllDigits(whole) && AllDigits(frac) && |whole| + |frac| >= 1
    ensures Mantissa(whole + "." + frac).Some?
    ensures Mantissa(whole + "." + frac).value ==
      DigitsValue(whole) as real + DigitsValue(frac) as real / Pow10(|frac|) as real
  {
    var s := whole + "." + frac;
    assert s == whole + ['.'] + frac;
    SplitAround(whole, '.', frac);
    NoPoint(whole);
    NoPoint(frac);
    SplitFree(whole, '.');
    SplitFree(frac, '.');
    var p := Split(s, '.');
    assert p == [whole, frac];
    if whole != [] { DigitsPart(whole); }
    if frac != [] { DigitsPart(frac); }
    assert PartValue(whole) == DigitsValue(whole) && PartValue(frac) == DigitsValue(frac);
    assert |Ungrouped(frac)| == |frac|;
  }

  /**
   * For digit strings, `float("a.b")` is the whole part `a` plus the fraction `b` over ten to the
   * number of its digits.
   */
  lemma DecimalDigits(whole: string, frac: string)
    requires AllDigits(whole) && AllDigits(frac) && |whole| + |frac| >= 1
    ensures DecimalOf(whole, frac).Some?
    ensures DecimalOf(whole, frac).value ==
      DigitsValue(whole) as real + DigitsValue(frac) as real / Pow10(|frac|) as real
  {
    var s := whole + "." + frac;
    DecimalText(whole, frac);
    ParseUnsigned(s);
    UnsignedPlain(s);
    MantissaPoint(whole, frac);
  }

  /** Digits around a point: trimmed, unsigned, and without an exponent marker. */
  lemma DecimalText(whole: string, frac: string)
    requires AllDigits(whole) && AllDigits(frac)
    ensures var s := whole + "." + frac;
      Trimmed(s) && s[0] != '-' && s[0] != '+' && 'e' !in s && 'E' !in s
  {
    var s := whole + "." + frac;
    assert whole != [] ==> s[0] == whole[0];
    assert frac != [] ==> s[|s| - 1] == frac[|frac| - 1];
    NoPoint(whole);
    NoPoint(frac);
  }

  lemma NoPoint(s: string)
    requires AllDigits(s)
    ensures '.' !in s && 'e' !in s && 'E' !in s
  {
  }

  /** For unsigned digits, the number's whole part is the digits before the point. */
  lemma DecimalWholePart(whole: string, frac: string)
    requires AllDigits(whole) && AllDigits(frac) && |whole| + |frac| >= 1
    ensures DecimalOf(whole, frac).Some?
    ensures DecimalOf(whole, frac).value.Floor == DigitsValue(whole)
  {
    var w := DigitsValue(whole);
    var q := DigitsValue(frac) as real / Pow10(|frac|) as real;
    DecimalDigits(whole, frac);
    assert DecimalOf(whole, frac).value == w as real + q;
    DigitsBelowPow10(frac);
    FractionBelowOne(DigitsValue(frac), Pow10(|frac|));
    FloorOf(w, q);
  }

  lemma FloorOf(w: int, q: real)
    requires 0.0 <= q < 1.0
    ensures (w as real + q).Floor == w
  {
  }

  lemma FractionBelowOne(d: nat, p: nat)
    requires d < p
    ensures 0.0 <= d as real / p as real < 1.0
  {
    var q := d as real / p as real;
    assert q * p as real == d as real;
  }

  /** `float(str(n))` is `n`. */
  lemma ParseFloatOfNat(n: nat)
    ensures ParseFloat(NatToString(n)).Some? && ParseFloat(NatToString(n)).value == n as real
  {
    ParseFloatDigits(NatToString(n));
    DigitsOfNatToString(n);
  }

  /** A non-empty digit string reads as the number its digits spell. */
  lemma ParseFloatDigits(d: string)
    requires |d| >= 1 && AllDigits(d)
    ensures ParseFloat(d) == Some(DigitsValue(d) as real)
  {
    NoPoint(d);
    ParseUnsigned(d);
    UnsignedPlain(d);
    MantissaDigits(d);
  }

  /** Python `s * n` for a string and a count. */
  function Repeat(s: string, n: nat): string
    decreases n
  {
    if n == 0 then "" else s + Repeat(s, n - 1)
  }

  /** Each character occurs n times as often in `s * n` as in s. */
  lemma {:induction false} RepeatCount(s: string, n: nat, c: char)
    ensures multiset(Repeat(s, n))[c] == n * multiset(s)[c]
    decreases n
  {
    if n > 0 {
      var m := multiset(s)[c];
      RepeatCount(s, n - 1, c);
      assert multiset(s + Repeat(s, n - 1)) == multiset(s) + multiset(Repeat(s, n - 1));
      assert multiset(Repeat(s, n))[c] == m + (n - 1) * m;
      assert m + (n - 1) * m == n * m;
    }
  }

  /** Repeating digits gives digits, at least as many as those repeated. */
  lemma {:induction false} RepeatDigits(d: string, n: nat)
    requires AllDigits(d)
    ensures AllDigits(Repeat(d, n)) && (n >= 1 ==> |Repeat(d, n)| >= |d|)
    decreases n
  {
    if n > 0 {
      RepeatDigits(d, n - 1);
      var t := Repeat(d, n - 1);
      assert forall i | |d| <= i < |d + t| :: (d + t)[i] == t[i - |d|];
    }
  }

  /**
   * `float(s * n)` of a text holding a decimal point, repeated at least twice, raises
   * ValueError: the repetition holds two points.
   */
  lemma RepeatedPointRejected(s: string, n: nat)
    requires '.' in s && n >= 2
    ensures ParseFloat(Repeat(s, n)).None?
  {
    RepeatCount(s, n, '.');
    assert multiset(s)['.'] >= 1;
    SplitPieces(Repeat(s, n), '.');
  }

  /** `float(d * n)` of digits d is the number the repeated digits spell. */
  lemma RepeatedDigitsRead(d: string, n: nat)
    requires |d| >= 1 && AllDigits(d) && n >= 1
    ensures AllDigits(Repeat(d, n))
    ensures ParseFloat(Repeat(d, n)) == Some(DigitsValue(Repeat(d, n)) as real)
  {
    RepeatDigits(d, n);
    ParseFloatDigits(Repeat(d, n));
  }

  /** `float()` ignores whitespace around the number: `float(" 0.23") == float("0.23")`. */
  lemma ParseFloatPadded(pre: string, t: string, post: string)
    requires AllWhitespace(pre) && AllWhitespace(post)
    requires Trimmed(t)
    ensures ParseFloat(pre + t + post) == ParseFloat(t)
  {
    StripPadded(pre, t, post);
    StripKeeps(t);
  }

  /** An exponent scales the digits by a power of ten: `float("1e-1") == 0.1`. */
  lemma ParseFloatExponent(digits: string, e: int)
    requires |digits| >= 1 && AllDigits(digits)
    ensures ParseFloat(digits + "e" + IntToString(e)).Some?
    ensures ParseFloat(digits + "e" + IntToString(e)).value == Scaled(DigitsValue(digits) as real, e)
  {
    var x := IntToString(e);
    IntToStringLiteral(e);
    IntToStringChars(e);
    NoPoint(digits);
    ExponentText(digits, x);
    ParseUnsigned(digits + "e" + x);
    UnsignedWithExponent(digits, x);
    MantissaDigits(digits);
  }

  /** Digits, `e` and text ending in a digit: trimmed and unsigned. */
  lemma ExponentText(digits: string, x: string)
    requires |digits| >= 1 && AllDigits(digits) && |x| >= 1 && IsDigit(x[|x| - 1])
    ensures var s := digits + "e" + x; Trimmed(s) && s[0] != '-' && s[0] != '+'
  {
    var s := digits + "e" + x;
    assert s[0] == digits[0] && s[|s| - 1] == x[|x| - 1];
  }

  lemma IntToStringChars(e: int)
    ensures var x := IntToString(e); |x| >= 1 && IsDigit(x[|x| - 1]) && 'e' !in x && 'E' !in x
  {
    var x := IntToString(e);
    if e < 0 {
      assert x == "-" + NatToString(-e);
      NoPoint(NatToString(-e));
    } else {
      NoPoint(x);
    }
  }
}
