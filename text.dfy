/**
  String helpers shared by the Python and JavaScript parts of the model:
  case mapping, whitespace stripping, splitting on one character, substring
  search and decimal rendering of integers.

  Case mapping follows Python's str.lower/str.upper exactly on the code
  points U+0000..U+00FF and leaves every other code point unchanged.
*/
module Text {
  import opened Wrappers

  // ----- character classes -----------------------------------------------

  predicate IsAsciiDigit(c: char) { '0' <= c <= '9' }

  predicate IsHexDigit(c: char) {
    IsAsciiDigit(c) || ('a' <= c <= 'f') || ('A' <= c <= 'F')
  }

  function HexDigitValue(c: char): (v: nat)
    requires IsHexDigit(c)
    ensures v < 16
  {
    if IsAsciiDigit(c) then c as int - '0' as int
    else if 'a' <= c <= 'f' then c as int - 'a' as int + 10
    else c as int - 'A' as int + 10
  }

  /** The characters Python's str.isspace accepts (and str.strip removes). */
  predicate IsPyWhitespace(c: char) {
    ('\t' <= c <= '\r') || ('\U{1C}' <= c <= ' ') || c == '\U{85}' || c == '\U{A0}'
    || c == '\U{1680}' || ('\U{2000}' <= c <= '\U{200A}') || c == '\U{2028}'
    || c == '\U{2029}' || c == '\U{202F}' || c == '\U{205F}' || c == '\U{3000}'
  }

  /** WhiteSpace and LineTerminator of ECMA-262, which String.prototype.trim removes. */
  predicate IsJsWhitespace(c: char) {
    ('\t' <= c <= '\r') || c == ' ' || c == '\U{A0}' || c == '\U{1680}'
    || ('\U{2000}' <= c <= '\U{200A}') || c == '\U{2028}' || c == '\U{2029}'
    || c == '\U{202F}' || c == '\U{205F}' || c == '\U{3000}' || c == '\U{FEFF}'
  }

  // ----- case mapping ----------------------------------------------------

  predicate IsLatin1Upper(c: char) {
    ('A' <= c <= 'Z') || ('\U{C0}' <= c <= '\U{DE}' && c != '\U{D7}')
  }

  predicate IsLatin1Lower(c: char) {
    ('a' <= c <= 'z') || ('\U{E0}' <= c <= '\U{FE}' && c != '\U{F7}')
  }

  function LowerChar(c: char): (r: char)
    ensures IsLatin1Upper(c) ==> r as int == c as int + 32
    ensures !IsLatin1Upper(c) ==> r == c
  {
    if IsLatin1Upper(c) then (c as int + 32) as char else c
  }

  /** Python's str.lower restricted as described in the module comment. */
  function Lower(s: string): (r: string)
    ensures |r| == |s|
    ensures forall i :: 0 <= i < |s| ==> r[i] == LowerChar(s[i])
  {
    if s == [] then [] else [LowerChar(s[0])] + Lower(s[1..])
  }

  /** Upper case of one character; 'ß' becomes the two characters "SS". */
  function UpperChar(c: char): (r: string)
    ensures |r| >= 1
  {
    if IsLatin1Lower(c) then [(c as int - 32) as char]
    else if c == '\U{DF}' then "SS"
    else if c == '\U{FF}' then ['\U{178}']
    else if c == '\U{B5}' then ['\U{39C}']
    else [c]
  }

  function Upper(s: string): (r: string)
    ensures |r| >= |s|
  {
    if s == [] then [] else UpperChar(s[0]) + Upper(s[1..])
  }

  lemma {:induction false} UpperAppend(a: string, b: string)
    ensures Upper(a + b) == Upper(a) + Upper(b)
  {
    if a != [] {
      assert (a + b)[0] == a[0];
      assert (a + b)[1..] == a[1..] + b;
      UpperAppend(a[1..], b);
      assert Upper(a + b) == UpperChar(a[0]) + (Upper(a[1..]) + Upper(b));
      assert Upper(a) == UpperChar(a[0]) + Upper(a[1..]);
    } else {
      assert a + b == b;
    }
  }

  lemma {:induction false} UpperIdempotent(s: string)
    ensures Upper(Upper(s)) == Upper(s)
  {
    if s != [] {
      UpperIdempotent(s[1..]);
      UpperAppend(UpperChar(s[0]), Upper(s[1..]));
      var u := UpperChar(s[0]);
      if |u| == 1 {
        assert Upper(u) == UpperChar(u[0]) + Upper([]);
      } else {
        assert u == "SS";
        assert Upper(u) == UpperChar('S') + Upper("S");
      }
    }
  }

  /** Lower-casing first does not change the upper case. */
  lemma {:induction false} UpperOfLower(s: string)
    ensures Upper(Lower(s)) == Upper(s)
  {
    if s != [] {
      UpperOfLower(s[1..]);
      var l := Lower(s);
      assert l[0] == LowerChar(s[0]) && l[1..] == Lower(s[1..]);
      assert UpperChar(LowerChar(s[0])) == UpperChar(s[0]);
    }
  }

  /** A string made of ASCII upper-case letters, digits and '#' is its own upper case. */
  lemma {:induction false} UpperOfUpperHex(s: string)
    requires forall i :: 0 <= i < |s| ==> IsAsciiDigit(s[i]) || 'A' <= s[i] <= 'Z' || s[i] == '#'
    ensures Upper(s) == s
  {
    if s != [] {
      UpperOfUpperHex(s[1..]);
    }
  }

  // ----- stripping -------------------------------------------------------

  function StripLeft(s: string, ws: char -> bool): (r: string)
    ensures |r| <= |s| && r == s[|s| - |r|..]
    ensures r == [] || !ws(r[0])
    ensures forall i :: 0 <= i < |s| - |r| ==> ws(s[i])
  {
    if s != [] && ws(s[0]) then StripLeft(s[1..], ws) else s
  }

  function StripRight(s: string, ws: char -> bool): (r: string)
    ensures |r| <= |s| && r == s[..|r|]
    ensures r == [] || !ws(r[|r| - 1])
    ensures forall i :: |r| <= i < |s| ==> ws(s[i])
  {
    if s != [] && ws(s[|s| - 1]) then StripRight(s[..|s| - 1], ws) else s
  }

  /** Python's str.strip() with no argument. */
  function PyStrip(s: string): (r: string)
    ensures |r| <= |s|
  {
    StripRight(StripLeft(s, IsPyWhitespace), IsPyWhitespace)
  }

  /** JavaScript's String.prototype.trim(). */
  function JsTrim(s: string): (r: string)
    ensures |r| <= |s|
  {
    StripRight(StripLeft(s, IsJsWhitespace), IsJsWhitespace)
  }

  // ----- prefixes, search, splitting ------------------------------------

  predicate StartsWith(s: string, p: string) {
    |p| <= |s| && s[..|p|] == p
  }

  /** Python's `t in s` / JavaScript's s.includes(t): t occurs as a substring of s. */
  predicate Contains(s: string, t: string)
    decreases |s|
  {
    StartsWith(s, t) || (s != [] && Contains(s[1..], t))
  }

  lemma {:induction false} ContainsAt(s: string, t: string, k: nat)
    requires k + |t| <= |s| && s[k..k + |t|] == t
    ensures Contains(s, t)
    decreases k
  {
    if k > 0 {
      assert s[1..][k - 1..k - 1 + |t|] == s[k..k + |t|];
      ContainsAt(s[1..], t, k - 1);
    }
  }

  lemma {:induction false} ContainsWitness(s: string, t: string) returns (k: nat)
    requires Contains(s, t)
    ensures k + |t| <= |s| && s[k..k + |t|] == t
    decreases |s|
  {
    if StartsWith(s, t) {
      k := 0;
    } else {
      var k' := ContainsWitness(s[1..], t);
      k := k' + 1;
      assert s[k..k + |t|] == s[1..][k'..k' + |t|];
    }
  }

  /** t occurs in s starting at index k. */
  predicate OccursAt(s: string, t: string, k: int) {
    0 <= k && k + |t| <= |s| && s[k..k + |t|] == t
  }

  /** The first index at or after `from` where `t` occurs in `s`, if any. */
  function FindFrom(s: string, t: string, from: nat): (r: int)
    requires from <= |s|
    ensures r == -1 || (from <= r && OccursAt(s, t, r))
    ensures r == -1 ==> forall k :: from <= k ==> !OccursAt(s, t, k)
    ensures r != -1 ==> forall k :: from <= k < r ==> !OccursAt(s, t, k)
    decreases |s| - from
  {
    if from + |t| > |s| then -1
    else if OccursAt(s, t, from) then from
    else if from == |s| then -1
    else FindFrom(s, t, from + 1)
  }

  /** Python's str.split(sep) / JavaScript's s.split(sep) for a one-character separator. */
  function Split(s: string, sep: char): (parts: seq<string>)
    ensures |parts| >= 1
    ensures forall i, j :: 0 <= i < |parts| && 0 <= j < |parts[i]| ==> parts[i][j] != sep
    decreases |s|
  {
    if s == [] then [""]
    else
      var rest := Split(s[1..], sep);
      if s[0] == sep then [""] + rest
      else [[s[0]] + rest[0]] + rest[1..]
  }

  function Join(parts: seq<string>, sep: char): string
    requires |parts| >= 1
  {
    if |parts| == 1 then parts[0] else parts[0] + [sep] + Join(parts[1..], sep)
  }

  /** Splitting and joining on the same character gives back the original string. */
  lemma {:induction false} JoinSplit(s: string, sep: char)
    ensures Join(Split(s, sep), sep) == s
    decreases |s|
  {
    if s != [] {
      JoinSplit(s[1..], sep);
      var rest := Split(s[1..], sep);
      if s[0] == sep {
        assert Split(s, sep)[1..] == rest;
      } else {
        var parts := Split(s, sep);
        if |rest| == 1 {
          assert parts == [[s[0]] + rest[0]];
        } else {
          assert parts[1..] == rest[1..];
          assert Join(rest, sep) == rest[0] + [sep] + Join(rest[1..], sep);
        }
      }
    }
  }

  /** ''.join(parts): the parts one after another. */
  function Concat(parts: seq<string>): string
  {
    if parts == [] then "" else Concat(parts[..|parts| - 1]) + parts[|parts| - 1]
  }

  /** s with every occurrence of c removed (Python's s.replace(c, "")). */
  function RemoveChar(s: string, c: char): (r: string)
    ensures forall i :: 0 <= i < |r| ==> r[i] != c
    ensures |r| <= |s|
  {
    if s == [] then [] else (if s[0] == c then [] else [s[0]]) + RemoveChar(s[1..], c)
  }

  // ----- decimal rendering ----------------------------------------------

  function DigitChar(d: nat): (c: char)
    requires d < 10
    ensures IsAsciiDigit(c)
  {
    ('0' as int + d) as char
  }

  /** Python's str(n) / JavaScript's String(n) for a non-negative integer. */
  function NatToString(n: nat): (s: string)
    ensures |s| >= 1
    ensures forall i :: 0 <= i < |s| ==> IsAsciiDigit(s[i])
    ensures n < 10 <==> |s| == 1
  {
    if n < 10 then [DigitChar(n)] else NatToString(n / 10) + [DigitChar(n % 10)]
  }

  /** Python's str(i) for any integer: a '-' sign before the digits of |i|. */
  function IntToString(i: int): (s: string)
    ensures |s| >= 1
    ensures forall k :: 0 <= k < |s| ==> IsAsciiDigit(s[k]) || (k == 0 && s[k] == '-')
    ensures s[0] == '-' <==> i < 0
  {
    if i >= 0 then NatToString(i) else "-" + NatToString(-i)
  }

  /** The value of a string of decimal digits. */
  function DigitsValue(s: string): int
    requires forall i :: 0 <= i < |s| ==> IsAsciiDigit(s[i])
  {
    if s == [] then 0 else DigitsValue(s[..|s| - 1]) * 10 + (s[|s| - 1] as int - '0' as int)
  }

  lemma {:induction false} DigitsValueOfNatToString(n: nat)
    ensures DigitsValue(NatToString(n)) == n
  {
    if n >= 10 {
      DigitsValueOfNatToString(n / 10);
      var s := NatToString(n);
      assert s[..|s| - 1] == NatToString(n / 10);
    }
  }

  /** Distinct numbers have distinct decimal renderings. */
  lemma {:induction false} NatToStringInjective(a: nat, b: nat)
    requires NatToString(a) == NatToString(b)
    ensures a == b
  {
    DigitsValueOfNatToString(a);
    DigitsValueOfNatToString(b);
  }

  lemma {:induction false} IntToStringInjective(a: int, b: int)
    requires IntToString(a) == IntToString(b)
    ensures a == b
  {
    var s := IntToString(a);
    if a >= 0 && b >= 0 {
      NatToStringInjective(a, b);
    } else if a < 0 && b < 0 {
      assert NatToString(-a) == s[1..] == NatToString(-b);
      NatToStringInjective(-a, -b);
    } else {
      assert false;
    }
  }

  // ----- decimal parsing -----------------------------------------------

  predicate DoubleUnderscoreAt(d: string, i: nat)
    requires i + 1 < |d|
  {
    d[i] == '_' && d[i + 1] == '_'
  }

  /** Digits with single underscores between them, as Python's int() accepts. */
  predicate IsDigitGroups(d: string) {
    |d| >= 1 && IsAsciiDigit(d[0]) && IsAsciiDigit(d[|d| - 1])
    && (forall i :: 0 <= i < |d| ==> IsAsciiDigit(d[i]) || d[i] == '_')
    && (forall i :: 0 <= i < |d| - 1 ==> !DoubleUnderscoreAt(d, i))
  }

  /** The value of digits and underscores, the underscores skipped. */
  function GroupsValue(d: string): int
    requires forall i :: 0 <= i < |d| ==> IsAsciiDigit(d[i]) || d[i] == '_'
  {
    if d == [] then 0
    else if d[|d| - 1] == '_' then GroupsValue(d[..|d| - 1])
    else GroupsValue(d[..|d| - 1]) * 10 + (d[|d| - 1] as int - '0' as int)
  }

  lemma {:induction false} GroupsValueOfDigits(d: string)
    requires forall i :: 0 <= i < |d| ==> IsAsciiDigit(d[i])
    ensures GroupsValue(d) == DigitsValue(d)
  {
    if d != [] {
      GroupsValueOfDigits(d[..|d| - 1]);
    }
  }

  /** Python's int(s) on a str, base 10: surrounding whitespace, one sign,
      then digit groups; None where Python raises ValueError. */
  function ParseDecimalInt(s: string): (r: Option<int>)
  {
    ParseSigned(PyStrip(s))
  }

  /** One optional sign, then digit groups. */
  function ParseSigned(t: string): (r: Option<int>)
  {
    if t == [] then None
    else if t[0] == '+' || t[0] == '-' then
      if IsDigitGroups(t[1..]) then
        var v := GroupsValue(t[1..]);
        Some(if t[0] == '-' then -v else v)
      else None
    else if IsDigitGroups(t) then Some(GroupsValue(t))
    else None
  }

  /** A string with no surrounding whitespace is its own strip. */
  lemma {:induction false} PyStripOfUnpadded(s: string)
    requires s != [] && !IsPyWhitespace(s[0]) && !IsPyWhitespace(s[|s| - 1])
    ensures PyStrip(s) == s
  {
    assert StripLeft(s, IsPyWhitespace) == s;
  }

  /** The decimal rendering of a natural number parses back to it. */
  lemma {:induction false} ParseDigitsOfNat(n: nat)
    ensures IsDigitGroups(NatToString(n)) && GroupsValue(NatToString(n)) == n
  {
    var d := NatToString(n);
    GroupsValueOfDigits(d);
    DigitsValueOfNatToString(n);
  }

  lemma {:induction false} ParseUnpadded(s: string)
    requires s != [] && !IsPyWhitespace(s[0]) && !IsPyWhitespace(s[|s| - 1])
    ensures ParseDecimalInt(s) == ParseSigned(s)
  {
    PyStripOfUnpadded(s);
  }

  lemma {:induction false} ParseNatToString(n: nat)
    ensures ParseDecimalInt(NatToString(n)) == Some(n)
  {
    var s := NatToString(n);
    PyStripOfUnpadded(s);
    ParseDigitsOfNat(n);
  }

  lemma {:induction false} ParseSignedMinus(d: string)
    requires IsDigitGroups(d)
    ensures ParseSigned("-" + d) == Some(-GroupsValue(d))
  {
    assert ("-" + d)[1..] == d;
  }

  lemma {:induction false} ParseNegativeDigits(d: string, n: int)
    requires IsDigitGroups(d) && GroupsValue(d) == n
    ensures ParseDecimalInt("-" + d) == Some(-n)
  {
    ParseSignedMinus(d);
    ParseUnpadded("-" + d);
  }

  lemma {:induction false} ParseNegativeIntToString(i: int)
    requires i < 0
    ensures ParseDecimalInt(IntToString(i)) == Some(i)
  {
    var d := NatToString(-i);
    assert IntToString(i) == "-" + d;
    ParseDigitsOfNat(-i);
    ParseNegativeDigits(d, -i);
  }

  /** int(str(i)) == i. */
  lemma {:induction false} ParseDecimalIntOfIntToString(i: int)
    ensures ParseDecimalInt(IntToString(i)) == Some(i)
  {
    if i >= 0 {
      assert IntToString(i) == NatToString(i);
      ParseNatToString(i);
    } else {
      ParseNegativeIntToString(i);
    }
  }

  /** Python's s.zfill(width) for a string without sign. */
  function ZFill(s: string, width: nat): (r: string)
    ensures |r| == if |s| >= width then |s| else width
    ensures forall i :: 0 <= i < |s| ==> r[|r| - |s| + i] == s[i]
    ensures forall i :: 0 <= i < |r| - |s| ==> r[i] == '0'
  {
    if |s| >= width then s else seq(width - |s|, _ => '0') + s
  }

  /** Leading zeros do not change the value of a digit string. */
  lemma {:induction false} DigitsValueLeadingZeros(z: string, s: string)
    requires forall i :: 0 <= i < |z| ==> z[i] == '0'
    requires forall i :: 0 <= i < |s| ==> IsAsciiDigit(s[i])
    ensures DigitsValue(z + s) == DigitsValue(s)
    decreases |z| + |s|
  {
    if s == [] {
      assert z + s == z;
      if z != [] {
        DigitsValueLeadingZeros(z[..|z| - 1], []);
        assert z[..|z| - 1] + [] == z[..|z| - 1];
      }
    } else {
      var t := z + s;
      assert t[..|t| - 1] == z + s[..|s| - 1];
      DigitsValueLeadingZeros(z, s[..|s| - 1]);
    }
  }

  /** zfill keeps a digit string made of digits, and keeps its value. */
  lemma {:induction false} ZFillDigits(s: string, width: nat)
    requires forall i :: 0 <= i < |s| ==> IsAsciiDigit(s[i])
    ensures forall i :: 0 <= i < |ZFill(s, width)| ==> IsAsciiDigit(ZFill(s, width)[i])
    ensures DigitsValue(ZFill(s, width)) == DigitsValue(s)
  {
    var r := ZFill(s, width);
    if |s| < width {
      var z := seq(width - |s|, _ => '0');
      assert r == z + s;
      DigitsValueLeadingZeros(z, s);
    }
  }

  /** zfill keeps the value of a number's digits, so distinct numbers
      stay distinct once padded. */
  lemma {:induction false} ZFillNatToString(n: nat, width: nat)
    ensures forall i :: 0 <= i < |ZFill(NatToString(n), width)| ==> IsAsciiDigit(ZFill(NatToString(n), width)[i])
    ensures DigitsValue(ZFill(NatToString(n), width)) == n
  {
    ZFillDigits(NatToString(n), width);
    DigitsValueOfNatToString(n);
  }
}
