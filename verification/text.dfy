/**
 The JavaScript string primitives the bot relies on, written over `seq<char>`:
 the white-space class shared by `\s`, `String.prototype.trim` and `parseInt`,
 decimal rendering of integers, `parseInt(s, 10)`, and `split` on one character.
 */
module Text {
  import opened Common

  /** ECMAScript WhiteSpace and LineTerminator code points: the `\s` class, and
      what `trim` and `parseInt` skip. */
  predicate IsSpace(c: char) {
    || c == '\t' || c == '\n' || c == '\U{B}' || c == '\U{C}' || c == '\r'
    || c == ' ' || c == '\U{A0}' || c == '\U{1680}'
    || ('\U{2000}' <= c <= '\U{200A}')
    || c == '\U{2028}' || c == '\U{2029}' || c == '\U{202F}' || c == '\U{205F}'
    || c == '\U{3000}' || c == '\U{FEFF}'
  }

  predicate IsDigit(c: char) {
    '0' <= c <= '9'
  }

  predicate AllDigits(s: string) {
    forall i :: 0 <= i < |s| ==> IsDigit(s[i])
  }

  /** Decimal text without a redundant leading zero, as `toString` writes it. */
  predicate Canonical(s: string) {
    1 <= |s| && AllDigits(s) && (s[0] == '0' ==> |s| == 1)
  }

  function DigitValue(c: char): (d: nat)
    requires IsDigit(c)
    ensures d < 10
  {
    c as int - '0' as int
  }

  function DigitChar(d: nat): (c: char)
    requires d < 10
    ensures IsDigit(c) && DigitValue(c) == d
  {
    ('0' as int + d) as char
  }

  /** The number a string of decimal digits denotes (0 for the empty string). */
  function DigitsValue(s: string): nat
    requires AllDigits(s)
    decreases |s|
  {
    if |s| == 0 then 0 else 10 * DigitsValue(s[..|s| - 1]) + DigitValue(s[|s| - 1])
  }

  /** `Number.prototype.toString()` of a natural number: plain decimal digits. */
  function NatToString(n: nat): (s: string)
    ensures Canonical(s)
    decreases n
  {
    if n < 10 then [DigitChar(n)] else NatToString(n / 10) + [DigitChar(n % 10)]
  }

  lemma {:induction false} NatToStringValue(n: nat)
    ensures DigitsValue(NatToString(n)) == n
    decreases n
  {
    if n >= 10 {
      var s := NatToString(n);
      assert s[..|s| - 1] == NatToString(n / 10);
      NatToStringValue(n / 10);
    }
  }

  lemma {:induction false} LeadingNonZeroPositive(s: string)
    requires 1 <= |s| && AllDigits(s) && s[0] != '0'
    ensures DigitsValue(s) >= 1
    decreases |s|
  {
    if |s| > 1 {
      LeadingNonZeroPositive(s[..|s| - 1]);
    }
  }

  /** Canonical decimal text and natural numbers are in one-to-one correspondence. */
  lemma {:induction false} NatToStringOfValue(s: string)
    requires Canonical(s)
    ensures NatToString(DigitsValue(s)) == s
    decreases |s|
  {
    if |s| > 1 {
      var p := s[..|s| - 1];
      LeadingNonZeroPositive(p);
      LeadingNonZeroPositive(s);
      NatToStringOfValue(p);
      assert s == p + [s[|s| - 1]];
    }
  }

  /** The longest prefix of s made of decimal digits. */
  function LeadingDigits(s: string): (p: string)
    ensures p <= s && AllDigits(p)
    ensures |p| < |s| ==> !IsDigit(s[|p|])
    decreases |s|
  {
    if |s| == 0 || !IsDigit(s[0]) then "" else [s[0]] + LeadingDigits(s[1..])
  }

  lemma {:induction false} LeadingDigitsOf(ds: string, rest: string)
    requires AllDigits(ds)
    requires |rest| == 0 || !IsDigit(rest[0])
    ensures LeadingDigits(ds + rest) == ds
    decreases |ds|
  {
    if |ds| > 0 {
      assert (ds + rest)[1..] == ds[1..] + rest;
      LeadingDigitsOf(ds[1..], rest);
    }
  }

  /** Drops leading white space, as `parseInt` does before reading. */
  function TrimStart(s: string): (r: string)
    ensures r <= s || (|r| <= |s| && r == s[|s| - |r|..])
    ensures |r| > 0 ==> !IsSpace(r[0])
    ensures (forall i :: 0 <= i < |s| ==> !IsSpace(s[i])) ==> r == s
    decreases |s|
  {
    if |s| > 0 && IsSpace(s[0]) then TrimStart(s[1..]) else s
  }

  /** Drops trailing white space. */
  function TrimEnd(s: string): (r: string)
    ensures r <= s
    ensures |r| > 0 ==> !IsSpace(r[|r| - 1])
    decreases |s|
  {
    if |s| > 0 && IsSpace(s[|s| - 1]) then TrimEnd(s[..|s| - 1]) else s
  }

  /** `String.prototype.trim`. */
  function Trim(s: string): (r: string)
    ensures |r| > 0 ==> !IsSpace(r[0]) && !IsSpace(r[|r| - 1])
  {
    TrimEnd(TrimStart(s))
  }

  /** `s.replace(/\s/g, "")`: every white-space character deleted. */
  function RemoveSpaces(s: string): (r: string)
    ensures |r| <= |s|
    decreases |s|
  {
    if |s| == 0 then ""
    else if IsSpace(s[0]) then RemoveSpaces(s[1..])
    else [s[0]] + RemoveSpaces(s[1..])
  }

  lemma {:induction false} RemoveSpacesAppend(a: string, b: string)
    ensures RemoveSpaces(a + b) == RemoveSpaces(a) + RemoveSpaces(b)
    decreases |a|
  {
    if |a| > 0 {
      assert (a + b)[0] == a[0];
      assert (a + b)[1..] == a[1..] + b;
      RemoveSpacesAppend(a[1..], b);
      if IsSpace(a[0]) {
        calc {
          RemoveSpaces(a + b);
          RemoveSpaces(a[1..] + b);
          RemoveSpaces(a[1..]) + RemoveSpaces(b);
        }
      } else {
        calc {
          RemoveSpaces(a + b);
          [a[0]] + RemoveSpaces(a[1..] + b);
          [a[0]] + (RemoveSpaces(a[1..]) + RemoveSpaces(b));
          ([a[0]] + RemoveSpaces(a[1..])) + RemoveSpaces(b);
        }
      }
    } else {
      assert a + b == b;
    }
  }

  lemma {:induction false} RemoveSpacesSpaceFree(s: string)
    ensures forall i :: 0 <= i < |RemoveSpaces(s)| ==> !IsSpace(RemoveSpaces(s)[i])
    decreases |s|
  {
    if |s| > 0 {
      RemoveSpacesSpaceFree(s[1..]);
    }
  }

  lemma {:induction false} RemoveSpacesNone(s: string)
    requires forall i :: 0 <= i < |s| ==> !IsSpace(s[i])
    ensures RemoveSpaces(s) == s
    decreases |s|
  {
    if |s| > 0 {
      RemoveSpacesNone(s[1..]);
    }
  }

  /** `parseInt(s, 10)`, with `None` standing for NaN: skip leading white space,
      take one optional sign, then read the longest run of digits. */
  function ParseInt(s: string): (r: Option<int>)
  {
    var t := TrimStart(s);
    var ds := LeadingDigits(Unsigned(t));
    var v: int := if |ds| == 0 then 0 else DigitsValue(ds);
    if |ds| == 0 then None
    else if |t| > 0 && t[0] == '-' then Some(-v)
    else Some(v)
  }

  /** The text after one optional leading sign. */
  function Unsigned(t: string): (u: string)
    ensures u == t || (|t| > 0 && (t[0] == '-' || t[0] == '+') && u == t[1..])
  {
    if |t| > 0 && (t[0] == '-' || t[0] == '+') then t[1..] else t
  }

  /** `parseInt` reads an unsigned run of digits up to the first non-digit. */
  lemma ParseIntUnsigned(ds: string, rest: string)
    requires |ds| >= 1 && AllDigits(ds)
    requires |rest| == 0 || !IsDigit(rest[0])
    ensures ParseInt(ds + rest) == Some(DigitsValue(ds) as int)
  {
    LeadingDigitsOf(ds, rest);
    var s := ds + rest;
    assert !IsSpace(s[0]) by { assert IsDigit(s[0]); }
    assert TrimStart(s) == s;
    assert Unsigned(s) == s;
    var r := ParseInt(s);
    assert r.Some?;
    assert r.value == DigitsValue(ds);
  }

  /** `parseInt` reads a signed run of digits up to the first non-digit. */
  lemma ParseIntSigned(c: char, ds: string, rest: string)
    requires c == '-' || c == '+'
    requires |ds| >= 1 && AllDigits(ds)
    requires |rest| == 0 || !IsDigit(rest[0])
    ensures ParseInt([c] + (ds + rest)) == Some(if c == '-' then -(DigitsValue(ds) as int) else DigitsValue(ds))
  {
    LeadingDigitsOf(ds, rest);
    var u := ds + rest;
    var s := [c] + u;
    assert !IsSpace(s[0]);
    assert TrimStart(s) == s;
    assert s[1..] == u;
    assert Unsigned(s) == u;
    var r := ParseInt(s);
    assert r.Some?;
    assert r.value == (if c == '-' then -(DigitsValue(ds) as int) else DigitsValue(ds));
  }

  /** `parseInt` finds nothing to read unless a digit follows the optional sign. */
  lemma ParseIntNaN(s: string)
    requires var u := Unsigned(TrimStart(s)); |u| == 0 || !IsDigit(u[0])
    ensures ParseInt(s) == None
  {
  }

  // ---------------------------------------------------------------------------
  // `parseInt(s)` without a radix

  predicate IsHexDigit(c: char) {
    IsDigit(c) || ('a' <= c <= 'f') || ('A' <= c <= 'F')
  }

  predicate AllHexDigits(s: string) {
    forall i :: 0 <= i < |s| ==> IsHexDigit(s[i])
  }

  function HexDigitValue(c: char): (d: nat)
    requires IsHexDigit(c)
    ensures d < 16
    ensures IsDigit(c) ==> d == DigitValue(c)
  {
    if IsDigit(c) then DigitValue(c)
    else if 'a' <= c <= 'f' then c as int - 'a' as int + 10
    else c as int - 'A' as int + 10
  }

  /** The number a string of hexadecimal digits denotes (0 for the empty string). */
  function HexDigitsValue(s: string): nat
    requires AllHexDigits(s)
    decreases |s|
  {
    if |s| == 0 then 0 else 16 * HexDigitsValue(s[..|s| - 1]) + HexDigitValue(s[|s| - 1])
  }

  /** The longest prefix of s made of hexadecimal digits. */
  function LeadingHexDigits(s: string): (p: string)
    ensures p <= s && AllHexDigits(p)
    ensures |p| < |s| ==> !IsHexDigit(s[|p|])
    decreases |s|
  {
    if |s| == 0 || !IsHexDigit(s[0]) then "" else [s[0]] + LeadingHexDigits(s[1..])
  }

  /** Text that `parseInt` without a radix reads in base 16: it starts with `0x` or `0X`. */
  predicate HexPrefixed(u: string) {
    |u| >= 2 && u[0] == '0' && (u[1] == 'x' || u[1] == 'X')
  }

  /** `parseInt(s)` with no radix argument, `None` standing for NaN: after the
      white space and the optional sign, a `0x` or `0X` prefix switches to base
      16 and is dropped; otherwise the text is read in base 10 as `ParseInt` does. */
  function ParseIntAuto(s: string): (r: Option<int>)
  {
    var t := TrimStart(s);
    var u := Unsigned(t);
    if HexPrefixed(u) then
      var hs := LeadingHexDigits(u[2..]);
      var v: int := if |hs| == 0 then 0 else HexDigitsValue(hs);
      if |hs| == 0 then None
      else if |t| > 0 && t[0] == '-' then Some(-v)
      else Some(v)
    else ParseInt(s)
  }

  /** Without a `0x` prefix, the radix-less read agrees with the base-10 one. */
  lemma ParseIntAutoDecimal(s: string)
    requires !HexPrefixed(Unsigned(TrimStart(s)))
    ensures ParseIntAuto(s) == ParseInt(s)
  {
  }

  lemma {:induction false} LeadingHexDigitsOf(hs: string, rest: string)
    requires AllHexDigits(hs)
    requires |rest| == 0 || !IsHexDigit(rest[0])
    ensures LeadingHexDigits(hs + rest) == hs
    decreases |hs|
  {
    if |hs| > 0 {
      assert (hs + rest)[1..] == hs[1..] + rest;
      LeadingHexDigitsOf(hs[1..], rest);
    }
  }

  /** A `0x` prefix followed by hexadecimal digits reads as their base-16 value,
      up to the first character that is not a hexadecimal digit. */
  lemma ParseIntAutoHex(x: char, hs: string, rest: string)
    requires x == 'x' || x == 'X'
    requires |hs| >= 1 && AllHexDigits(hs)
    requires |rest| == 0 || !IsHexDigit(rest[0])
    ensures ParseIntAuto(['0', x] + (hs + rest)) == Some(HexDigitsValue(hs) as int)
  {
    var s := ['0', x] + (hs + rest);
    assert !IsSpace(s[0]);
    assert TrimStart(s) == s;
    assert Unsigned(s) == s;
    assert s[2..] == hs + rest;
    LeadingHexDigitsOf(hs, rest);
  }

  /** A `0x` prefix with no hexadecimal digit after it reads as NaN. */
  lemma ParseIntAutoHexEmpty(x: char, rest: string)
    requires x == 'x' || x == 'X'
    requires |rest| == 0 || !IsHexDigit(rest[0])
    ensures ParseIntAuto(['0', x] + rest) == None
  {
    var s := ['0', x] + rest;
    assert !IsSpace(s[0]);
    assert TrimStart(s) == s;
    assert Unsigned(s) == s;
    assert s[2..] == rest;
  }

  /** `toString` of a natural number never starts with `0x`, so it reads back
      the same with or without a radix. */
  lemma ParseIntAutoNatToString(n: nat)
    ensures ParseIntAuto(NatToString(n)) == ParseInt(NatToString(n))
  {
    var s := NatToString(n);
    assert !IsSpace(s[0]) by { assert IsDigit(s[0]); }
    assert TrimStart(s) == s;
    assert Unsigned(s) == s;
    assert !HexPrefixed(s) by {
      if |s| >= 2 { assert IsDigit(s[1]); }
    }
  }

  /** `s.split(sep)`: the maximal separator-free pieces, empty pieces kept. */
  function Split(s: string, sep: char): (parts: seq<string>)
    ensures |parts| >= 1
    ensures forall i :: 0 <= i < |parts| ==> sep !in parts[i]
    decreases |s|
  {
    if |s| == 0 then [""]
    else
      var rest := Split(s[1..], sep);
      if s[0] == sep then [""] + rest else [[s[0]] + rest[0]] + rest[1..]
  }

  /** `parts.join(sep)`. */
  function Join(parts: seq<string>, sep: char): string
    requires |parts| >= 1
    decreases |parts|
  {
    if |parts| == 1 then parts[0] else parts[0] + [sep] + Join(parts[1..], sep)
  }

  /** Splitting loses nothing: joining the pieces restores the string. */
  lemma {:induction false} JoinSplit(s: string, sep: char)
    ensures Join(Split(s, sep), sep) == s
    decreases |s|
  {
    if |s| > 0 {
      var rest := Split(s[1..], sep);
      JoinSplit(s[1..], sep);
      if s[0] != sep && |rest| > 1 {
        var parts := Split(s, sep);
        assert parts[1..] == rest[1..];
        assert Join(rest, sep) == rest[0] + [sep] + Join(rest[1..], sep);
      } else if s[0] == sep {
        var parts := Split(s, sep);
        assert parts[1..] == rest;
      }
    }
  }

  lemma {:induction false} SplitNoSep(a: string, sep: char)
    requires sep !in a
    ensures Split(a, sep) == [a]
    decreases |a|
  {
    if |a| > 0 {
      assert a[0] != sep;
      assert sep !in a[1..] by {
        assert forall k :: 0 <= k < |a| - 1 ==> a[1..][k] == a[k + 1];
      }
      SplitNoSep(a[1..], sep);
      assert a == [a[0]] + a[1..];
    }
  }

  lemma {:induction false} SplitFirst(a: string, b: string, sep: char)
    requires sep !in a
    ensures Split(a + [sep] + b, sep) == [a] + Split(b, sep)
    decreases |a|
  {
    var s := a + [sep] + b;
    if |a| == 0 {
      assert s[1..] == b;
    } else {
      assert s[1..] == a[1..] + [sep] + b;
      assert a[0] != sep && s[0] == a[0];
      assert sep !in a[1..] by {
        assert forall k :: 0 <= k < |a| - 1 ==> a[1..][k] == a[k + 1];
      }
      SplitFirst(a[1..], b, sep);
      assert a == [a[0]] + a[1..];
    }
  }

  lemma {:induction false} SplitLast(a: string, b: string, sep: char)
    requires sep !in b
    ensures Split(a + [sep] + b, sep) == Split(a, sep) + [b]
    decreases |a|
  {
    var s := a + [sep] + b;
    if |a| == 0 {
      assert s[1..] == b;
      SplitNoSep(b, sep);
    } else {
      assert s[1..] == a[1..] + [sep] + b;
      SplitLast(a[1..], b, sep);
    }
  }

  /** Joining separator-free pieces and splitting again gives the pieces back. */
  lemma {:induction false} SplitJoin(parts: seq<string>, sep: char)
    requires |parts| >= 1
    requires forall i :: 0 <= i < |parts| ==> sep !in parts[i]
    ensures Split(Join(parts, sep), sep) == parts
    decreases |parts|
  {
    if |parts| == 1 {
      SplitNoSep(parts[0], sep);
    } else {
      SplitJoin(parts[1..], sep);
      SplitFirst(parts[0], Join(parts[1..], sep), sep);
    }
  }

  /** `s.startsWith(p)`. */
  predicate StartsWith(s: string, p: string) {
    p <= s
  }

  /** `s.includes(p)`, which is what an unanchored regular expression on a literal tests. */
  predicate Contains(s: string, p: string)
    decreases |s|
  {
    StartsWith(s, p) || (|s| > 0 && Contains(s[1..], p))
  }
}
