/**
 * The Python `str` built-ins that the rig's scripts rely on, restricted to
 * what those scripts use: `strip()`, `split(c)`, `c.join(parts)`, `lower()`,
 * `startswith`, `endswith`, the `in` substring test, `replace` of a
 * one-character pattern, `str(int)`, `int(str)` and `isnumeric()`.
 * Characters are treated as ASCII where Python would consult Unicode tables.
 */
module PyStr {

  datatype Option<+T> = None | Some(value: T)

  // ---------------------------------------------------------------------
  // Whitespace and strip()
  // ---------------------------------------------------------------------

  /** The ASCII characters for which Python's `str.isspace()` holds. */
  predicate IsSpace(c: char) {
    c == ' ' || c == '\t' || c == '\n' || c == '\r' || c == '\U{000B}' || c == '\U{000C}'
    || c == '\U{001C}' || c == '\U{001D}' || c == '\U{001E}' || c == '\U{001F}'
  }

  /** `s.lstrip()`: drops the leading whitespace, and only that. */
  function StripStart(s: string): (r: string)
    ensures |r| <= |s| && r == s[|s| - |r|..]
    ensures r != [] ==> !IsSpace(r[0])
    ensures forall i :: 0 <= i < |s| - |r| ==> IsSpace(s[i])
  {
    if s != [] && IsSpace(s[0]) then StripStart(s[1..]) else s
  }

  /** `s.rstrip()`: drops the trailing whitespace, and only that. */
  function StripEnd(s: string): (r: string)
    ensures |r| <= |s| && r == s[..|r|]
    ensures r != [] ==> !IsSpace(r[|r| - 1])
    ensures forall i :: |r| <= i < |s| ==> IsSpace(s[i])
  {
    if s != [] && IsSpace(s[|s| - 1]) then StripEnd(s[..|s| - 1]) else s
  }

  /**
   * `s.strip()`: the slice of `s` left once the whitespace at both ends is
   * cut; it neither starts nor ends with whitespace.
   */
  function Strip(s: string): (r: string)
    ensures r != [] ==> !IsSpace(r[0]) && !IsSpace(r[|r| - 1])
    ensures exists a, b :: StrippedAt(s, r, a, b)
    ensures s == [] || (!IsSpace(s[0]) && !IsSpace(s[|s| - 1])) ==> r == s
  {
    var m := StripStart(s);
    var r := StripEnd(m);
    SuffixPrefixSlice(s, m, r);
    r
  }

  /** A prefix `r` of a suffix `m` of `s` is a slice of `s`, with whitespace
      all around when the parts cut off are whitespace. */
  lemma SuffixPrefixSlice(s: string, m: string, r: string)
    requires |m| <= |s| && m == s[|s| - |m|..] && (forall i :: 0 <= i < |s| - |m| ==> IsSpace(s[i]))
    requires |r| <= |m| && r == m[..|r|] && (forall i :: |r| <= i < |m| ==> IsSpace(m[i]))
    ensures StrippedAt(s, r, |s| - |m|, |s| - |m| + |r|)
  {
    var a := |s| - |m|;
    assert r == s[a..a + |r|];
    forall i | a + |r| <= i < |s|
      ensures IsSpace(s[i])
    {
      assert s[i] == m[i - a];
    }
  }

  /** `r` is `s[a..b]`, and everything of `s` outside it is whitespace. */
  predicate StrippedAt(s: string, r: string, a: int, b: int) {
    && 0 <= a <= b <= |s| && r == s[a..b]
    && (forall i :: 0 <= i < a ==> IsSpace(s[i]))
    && (forall i :: b <= i < |s| ==> IsSpace(s[i]))
  }

  // ---------------------------------------------------------------------
  // lower()
  // ---------------------------------------------------------------------

  function LowerChar(c: char): char {
    if 'A' <= c <= 'Z' then (c as int + 32) as char else c
  }

  /** `s.lower()` on ASCII letters. */
  function Lower(s: string): (r: string)
    ensures |r| == |s|
    ensures forall i :: 0 <= i < |s| ==> r[i] == LowerChar(s[i])
  {
    if s == [] then [] else [LowerChar(s[0])] + Lower(s[1..])
  }

  /** Lower-casing twice is lower-casing once. */
  lemma LowerIdempotent(s: string)
    ensures Lower(Lower(s)) == Lower(s)
  {
  }

  /** Lower-casing leaves a string with no upper-case letter as it is. */
  lemma LowerUnchanged(s: string)
    requires forall i :: 0 <= i < |s| ==> !('A' <= s[i] <= 'Z')
    ensures Lower(s) == s
  {
  }

  // ---------------------------------------------------------------------
  // split(sep) and sep.join(parts)
  // ---------------------------------------------------------------------

  /** `sep.join(parts)`. */
  function Join(parts: seq<string>, sep: char): string
  {
    if |parts| == 0 then []
    else if |parts| == 1 then parts[0]
    else parts[0] + [sep] + Join(parts[1..], sep)
  }

  /** A join of non-empty parts starts with the first part's first character and ends with the last part's last. */
  lemma {:induction false} JoinEnds(parts: seq<string>, sep: char)
    requires |parts| >= 1
    requires forall i :: 0 <= i < |parts| ==> parts[i] != []
    ensures Join(parts, sep) != []
    ensures Join(parts, sep)[0] == parts[0][0]
    ensures Join(parts, sep)[|Join(parts, sep)| - 1] == parts[|parts| - 1][|parts[|parts| - 1]| - 1]
  {
    if |parts| > 1 {
      JoinEnds(parts[1..], sep);
    }
  }

  /**
   * `s.split(sep)` with an explicit one-character separator.  Two
   * separators in a row yield an empty part, as in Python.
   */
  function Split(s: string, sep: char): (parts: seq<string>)
    ensures |parts| >= 1
  {
    if s == [] then [[]]
    else
      var rest := Split(s[1..], sep);
      if s[0] == sep then [[]] + rest
      else [[s[0]] + rest[0]] + rest[1..]
  }

  /** No part holds the separator, and joining the parts gives `s` back. */
  lemma {:induction false} JoinSplit(s: string, sep: char)
    ensures forall p :: p in Split(s, sep) ==> sep !in p
    ensures Join(Split(s, sep), sep) == s
  {
    if s != [] {
      JoinSplit(s[1..], sep);
      var rest := Split(s[1..], sep);
      var parts := Split(s, sep);
      if s[0] == sep {
        assert parts[1..] == rest;
      } else {
        assert parts[1..] == rest[1..];
        assert rest[0] in rest;
        forall p | p in parts ensures sep !in p {
          if p != parts[0] { assert p in rest[1..]; assert p in rest; }
        }
        if |rest| > 1 {
          assert rest == [rest[0]] + rest[1..];
        }
      }
    }
  }

  lemma {:induction false} SplitWithoutSeparator(a: string, sep: char)
    requires sep !in a
    ensures Split(a, sep) == [a]
  {
    if a != [] {
      SplitWithoutSeparator(a[1..], sep);
      assert a[0] != sep && [a[0]] + a[1..] == a;
    }
  }

  lemma {:induction false} SplitAtFirstSeparator(a: string, sep: char, b: string)
    requires sep !in a
    ensures Split(a + [sep] + b, sep) == [a] + Split(b, sep)
  {
    var s := a + [sep] + b;
    if a == [] {
      assert s[1..] == b;
    } else {
      assert s[0] == a[0] && a[0] != sep;
      assert s[1..] == a[1..] + [sep] + b;
      SplitAtFirstSeparator(a[1..], sep, b);
      assert [a[0]] + a[1..] == a;
    }
  }

  /** Splitting undoes joining, as long as no part holds the separator. */
  lemma {:induction false} SplitJoin(parts: seq<string>, sep: char)
    requires |parts| >= 1
    requires forall p :: p in parts ==> sep !in p
    ensures Split(Join(parts, sep), sep) == parts
  {
    if |parts| == 1 {
      SplitWithoutSeparator(parts[0], sep);
    } else {
      SplitJoin(parts[1..], sep);
      SplitAtFirstSeparator(parts[0], sep, Join(parts[1..], sep));
    }
  }

  // ---------------------------------------------------------------------
  // startswith, endswith, `in`, replace
  // ---------------------------------------------------------------------

  predicate StartsWith(s: string, prefix: string) {
    |prefix| <= |s| && s[..|prefix|] == prefix
  }

  predicate EndsWith(s: string, suffix: string) {
    |suffix| <= |s| && s[|s| - |suffix|..] == suffix
  }

  /** `sub in s`. */
  predicate Contains(s: string, sub: string) {
    exists i :: 0 <= i <= |s| && StartsWith(s[i..], sub)
  }

  /** A string holding `sub` holds every character of `sub`. */
  lemma ContainsChar(s: string, sub: string, c: char)
    requires Contains(s, sub) && c in sub
    ensures c in s
  {
    var i :| 0 <= i <= |s| && StartsWith(s[i..], sub);
    var k :| 0 <= k < |sub| && sub[k] == c;
    assert s[i..][k] == c;
  }

  /** `s.replace(c, repl)` for a one-character pattern `c`. */
  function ReplaceChar(s: string, c: char, repl: string): (r: string)
    ensures c !in repl ==> c !in r
  {
    if s == [] then [] else (if s[0] == c then repl else [s[0]]) + ReplaceChar(s[1..], c, repl)
  }

  /** With a one-character replacement, `replace` rewrites position by position. */
  lemma {:induction false} ReplaceByOneChar(s: string, c: char, b: char)
    ensures |ReplaceChar(s, c, [b])| == |s|
    ensures forall i :: 0 <= i < |s| ==> ReplaceChar(s, c, [b])[i] == if s[i] == c then b else s[i]
  {
    if s != [] {
      ReplaceByOneChar(s[1..], c, b);
    }
  }

  // ---------------------------------------------------------------------
  // str(int), int(str), isnumeric()
  // ---------------------------------------------------------------------

  predicate IsDigit(c: char) {
    '0' <= c <= '9'
  }

  function DigitChar(d: nat): (c: char)
    requires d < 10
    ensures IsDigit(c) && c as int - '0' as int == d
  {
    ('0' as int + d) as char
  }

  /** `str(n)` for a natural number: its decimal digits, without leading zeros. */
  function NatToString(n: nat): (r: string)
    ensures |r| >= 1
    ensures forall i :: 0 <= i < |r| ==> IsDigit(r[i])
    ensures r[0] == '0' ==> n == 0
  {
    if n < 10 then [DigitChar(n)] else NatToString(n / 10) + [DigitChar(n % 10)]
  }

  /** `str(i)` for any integer. */
  function IntToString(i: int): (r: string)
    ensures |r| >= 1
    ensures forall k :: 0 <= k < |r| ==> IsDigit(r[k]) || (k == 0 && r[k] == '-')
    ensures r[|r| - 1] != '-'
  {
    if i < 0 then "-" + NatToString(-i) else NatToString(i)
  }

  /** `s.isnumeric()` restricted to the ASCII digits. */
  predicate IsNumeric(s: string) {
    |s| > 0 && forall i :: 0 <= i < |s| ==> IsDigit(s[i])
  }

  /** The value of a string of decimal digits. */
  function DigitsValue(s: string): nat
    requires forall i :: 0 <= i < |s| ==> IsDigit(s[i])
  {
    if s == [] then 0
    else
      assert IsDigit(s[|s| - 1]);
      10 * DigitsValue(s[..|s| - 1]) + (s[|s| - 1] as int - '0' as int)
  }

  /** Reading back the digits that `str(n)` writes gives `n`. */
  lemma {:induction false} NatToStringRoundTrip(n: nat)
    ensures IsNumeric(NatToString(n))
    ensures DigitsValue(NatToString(n)) == n
  {
    var s := NatToString(n);
    if n >= 10 {
      NatToStringRoundTrip(n / 10);
      assert s[..|s| - 1] == NatToString(n / 10);
    }
  }

  /**
   * The digits of an integer literal as `int()` reads them: decimal digits,
   * where a single `_` may stand between two digits ("1_000"), so never at
   * either end and never two in a row.
   */
  predicate IsGroupedNumeral(t: string)
    decreases |t|
  {
    && |t| > 0 && IsDigit(t[0])
    && (|t| == 1 || if t[1] == '_' then IsGroupedNumeral(t[2..]) else IsGroupedNumeral(t[1..]))
  }

  /** The digits of a grouped numeral, its grouping underscores left out. */
  function Ungrouped(t: string): (d: string)
    requires IsGroupedNumeral(t)
    ensures IsNumeric(d)
    decreases |t|
  {
    if |t| == 1 then [t[0]]
    else if t[1] == '_' then [t[0]] + Ungrouped(t[2..])
    else [t[0]] + Ungrouped(t[1..])
  }

  /** The value of a grouped numeral. */
  function NumeralValue(t: string): nat
    requires IsGroupedNumeral(t)
  {
    DigitsValue(Ungrouped(t))
  }

  /**
   * The whitespace `int()` skips around the number in an ASCII string:
   * space, tab, newline, carriage return, vertical tab and form feed.  The
   * separators U+001C to U+001F, which `str.isspace()` also accepts, are not
   * among them.
   */
  predicate IsIntSpace(c: char) {
    c == ' ' || c == '\t' || c == '\n' || c == '\r' || c == '\U{000B}' || c == '\U{000C}'
  }

  /** The leading characters `int()` skips, dropped. */
  function SkipIntSpace(s: string): (r: string)
    ensures |r| <= |s| && r == s[|s| - |r|..]
    ensures r != [] ==> !IsIntSpace(r[0])
    ensures forall i :: 0 <= i < |s| - |r| ==> IsIntSpace(s[i])
  {
    if s != [] && IsIntSpace(s[0]) then SkipIntSpace(s[1..]) else s
  }

  /** The trailing characters `int()` skips, dropped. */
  function DropIntSpace(s: string): (r: string)
    ensures |r| <= |s| && r == s[..|r|]
    ensures r != [] ==> !IsIntSpace(r[|r| - 1])
    ensures forall i :: |r| <= i < |s| ==> IsIntSpace(s[i])
  {
    if s != [] && IsIntSpace(s[|s| - 1]) then DropIntSpace(s[..|s| - 1]) else s
  }

  /**
   * `int(s)` for an ASCII string: surrounding spaces, tabs and line breaks,
   * an optional sign, then a grouped numeral; anything else is the
   * ValueError, here `None`.
   */
  function ParseInt(s: string): Option<int>
  {
    ParseSigned(DropIntSpace(SkipIntSpace(s)))
  }

  /** `int(t)` for a string `t` that has already been stripped. */
  function ParseSigned(t: string): Option<int>
  {
    if t == [] then None
    else if (t[0] == '-' || t[0] == '+') && IsGroupedNumeral(t[1..]) then
      Some(if t[0] == '-' then -(NumeralValue(t[1..]) as int) else NumeralValue(t[1..]))
    else if IsGroupedNumeral(t) then Some(NumeralValue(t))
    else None
  }

  /** A run of digits is a numeral with nothing to ungroup. */
  lemma {:induction false} DigitsNumeral(d: string)
    requires IsNumeric(d)
    ensures IsGroupedNumeral(d) && Ungrouped(d) == d
  {
    if |d| > 1 {
      assert IsNumeric(d[1..]);
      DigitsNumeral(d[1..]);
    }
  }

  lemma ParseDigits(d: string)
    requires IsNumeric(d)
    ensures ParseSigned(d) == Some(DigitsValue(d) as int)
  {
    DigitsNumeral(d);
  }

  lemma ParseNegated(d: string)
    requires IsNumeric(d)
    ensures ParseSigned("-" + d) == Some(-(DigitsValue(d) as int))
  {
    DigitsNumeral(d);
    assert ("-" + d)[1..] == d;
  }

  /** A single underscore between two runs of digits is grouping. */
  lemma {:induction false} UnderscoreGrouped(a: string, b: string)
    requires IsNumeric(a) && IsNumeric(b)
    ensures IsGroupedNumeral(a + "_" + b)
  {
    var t := a + "_" + b;
    if |a| == 1 {
      DigitsNumeral(b);
      assert t[1] == '_' && t[2..] == b;
    } else {
      assert IsNumeric(a[1..]);
      UnderscoreGrouped(a[1..], b);
      assert t[1] == a[1] && t[1..] == a[1..] + "_" + b;
    }
  }

  /** The numeral `a_b` has the digits of `a` then those of `b`. */
  lemma {:induction false} UnderscoreJoins(a: string, b: string)
    requires IsNumeric(a) && IsNumeric(b)
    ensures IsGroupedNumeral(a + "_" + b) && Ungrouped(a + "_" + b) == a + b
  {
    var t := a + "_" + b;
    UnderscoreGrouped(a, b);
    if |a| == 1 {
      DigitsNumeral(b);
      assert t[1] == '_' && t[2..] == b;
    } else {
      assert IsNumeric(a[1..]);
      UnderscoreJoins(a[1..], b);
      assert t[1] == a[1] && t[1..] == a[1..] + "_" + b;
      assert a == [a[0]] + a[1..];
    }
  }

  /** A string of digits and underscores that starts and ends with a digit
      survives `strip()` and has no sign: `int()` reads it as a numeral
      or refuses it. */
  lemma ParseUnsigned(t: string)
    requires t != [] && IsDigit(t[0]) && IsDigit(t[|t| - 1])
    ensures ParseInt(t) == if IsGroupedNumeral(t) then Some(NumeralValue(t) as int) else None
  {
    ParseUnpadded(t);
  }

  /** `int()` skips nothing of a string that neither starts nor ends with its whitespace. */
  lemma ParseUnpadded(t: string)
    requires t != [] && !IsIntSpace(t[0]) && !IsIntSpace(t[|t| - 1])
    ensures ParseInt(t) == ParseSigned(t)
  {
  }

  /**
   * `int()` refuses a number after a file separator (U+001C), although
   * `str.isspace()` counts it as whitespace; the other three separators
   * behave the same.
   */
  lemma SeparatorRefused(d: string)
    requires IsNumeric(d)
    ensures ParseInt(['\U{001C}'] + d) == None
  {
    var s := ['\U{001C}'] + d;
    assert s[0] == '\U{001C}' && s[|s| - 1] == d[|d| - 1];
    ParseUnpadded(s);
  }

  /** `int()` skips any run of its whitespace before the number ... */
  lemma {:induction false} SkipsLeading(pre: string, t: string)
    requires forall i :: 0 <= i < |pre| ==> IsIntSpace(pre[i])
    requires t != [] && !IsIntSpace(t[0])
    ensures SkipIntSpace(pre + t) == t
  {
    if pre != [] {
      assert (pre + t)[1..] == pre[1..] + t;
      SkipsLeading(pre[1..], t);
    }
  }

  /** ... and after it. */
  lemma {:induction false} DropsTrailing(t: string, post: string)
    requires forall i :: 0 <= i < |post| ==> IsIntSpace(post[i])
    requires t != [] && !IsIntSpace(t[|t| - 1])
    ensures DropIntSpace(t + post) == t
  {
    if post != [] {
      var u := t + post;
      assert u[..|u| - 1] == t + post[..|post| - 1];
      assert u[|u| - 1] == post[|post| - 1];
      DropsTrailing(t, post[..|post| - 1]);
    } else {
      assert t + post == t;
    }
  }

  /** `int()` reads a number padded on both sides with spaces, tabs and line breaks as the number alone. */
  lemma PaddingSkipped(pre: string, t: string, post: string)
    requires forall i :: 0 <= i < |pre| ==> IsIntSpace(pre[i])
    requires forall i :: 0 <= i < |post| ==> IsIntSpace(post[i])
    requires t != [] && !IsIntSpace(t[0]) && !IsIntSpace(t[|t| - 1])
    ensures ParseInt(pre + t + post) == ParseSigned(t)
  {
    assert pre + t + post == pre + (t + post);
    assert (t + post)[0] == t[0];
    SkipsLeading(pre, t + post);
    DropsTrailing(t, post);
  }

  /** `int(a + "_" + b)` reads the digits of `a` and `b` together. */
  lemma UnderscoreGroups(a: string, b: string)
    requires IsNumeric(a) && IsNumeric(b)
    ensures ParseInt(a + "_" + b) == Some(DigitsValue(a + b) as int)
  {
    var t := a + "_" + b;
    assert t[0] == a[0] && t[|t| - 1] == b[|b| - 1];
    ParseUnsigned(t);
    UnderscoreJoins(a, b);
  }

  /** Two underscores in a row break a numeral. */
  lemma {:induction false} DoubledUnderscoreBreaks(a: string, b: string)
    requires IsNumeric(a)
    ensures !IsGroupedNumeral(a + "__" + b)
  {
    var t := a + "__" + b;
    if |a| == 1 {
      assert t[1] == '_' && t[2..][0] == '_';
    } else {
      assert IsNumeric(a[1..]);
      DoubledUnderscoreBreaks(a[1..], b);
      assert t[1] == a[1] && t[1..] == a[1..] + "__" + b;
    }
  }

  /** `int()` refuses two underscores in a row. */
  lemma DoubledUnderscore(a: string, b: string)
    requires IsNumeric(a) && IsNumeric(b)
    ensures ParseInt(a + "__" + b) == None
  {
    var t := a + "__" + b;
    assert t[0] == a[0] && t[|t| - 1] == b[|b| - 1];
    DoubledUnderscoreBreaks(a, b);
    ParseUnsigned(t);
  }

  /** A trailing underscore breaks a numeral. */
  lemma {:induction false} TrailingUnderscoreBreaks(d: string)
    requires IsNumeric(d)
    ensures !IsGroupedNumeral(d + "_")
  {
    var t := d + "_";
    if |d| == 1 {
      assert t[1] == '_' && t[2..] == [];
    } else {
      assert IsNumeric(d[1..]);
      TrailingUnderscoreBreaks(d[1..]);
      assert t[1] == d[1] && t[1..] == d[1..] + "_";
    }
  }

  /** `int()` refuses an underscore at either end of the digits. */
  lemma EdgeUnderscore(d: string)
    requires IsNumeric(d)
    ensures ParseInt("_" + d) == None && ParseInt(d + "_") == None
  {
    LeadingUnderscore(d);
    TrailingUnderscore(d);
  }

  lemma LeadingUnderscore(d: string)
    requires IsNumeric(d)
    ensures ParseInt("_" + d) == None
  {
    var s := "_" + d;
    assert s[0] == '_' && s[|s| - 1] == d[|d| - 1];
    ParseUnpadded(s);
  }

  lemma TrailingUnderscore(d: string)
    requires IsNumeric(d)
    ensures ParseInt(d + "_") == None
  {
    var t := d + "_";
    assert t[0] == d[0] && t[|t| - 1] == '_';
    ParseUnpadded(t);
    TrailingUnderscoreBreaks(d);
  }

  /** `int(str(i)) == i`. */
  lemma IntToStringRoundTrip(i: int)
    ensures ParseInt(IntToString(i)) == Some(i)
  {
    var n: nat := if i < 0 then -i else i;
    var d := NatToString(n);
    NatToStringRoundTrip(n);
    var s := IntToString(i);
    if i < 0 {
      ParseNegated(d);
    } else {
      ParseDigits(d);
    }
    assert !IsIntSpace(s[0]) && !IsIntSpace(s[|s| - 1]);
    ParseUnpadded(s);
  }
}
