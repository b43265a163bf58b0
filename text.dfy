/**
 * String helpers shared by the models: Python's `upper`/`strip` and the
 * substring test `in`, the single-character `split` of Python and
 * JavaScript, decimal digit strings, JavaScript's first-occurrence
 * `replace` and `padStart`.
 */
module Text {

  import opened Wrappers

  // ---------------------------------------------------------------------------
  // Whitespace and case
  // ---------------------------------------------------------------------------

  /** The characters Python's `str.strip()` removes (its whitespace set). */
  predicate IsSpace(c: char)
  {
    || c == ' '
    || ('\t' <= c <= '\r')
    || ('\U{1C}' <= c <= '\U{1F}')
    || c == '\U{85}' || c == '\U{A0}' || c == '\U{1680}'
    || ('\U{2000}' <= c <= '\U{200A}')
    || c == '\U{2028}' || c == '\U{2029}' || c == '\U{202F}' || c == '\U{205F}' || c == '\U{3000}'
  }

  predicate AllSpace(s: string)
  {
    forall i :: 0 <= i < |s| ==> IsSpace(s[i])
  }

  predicate NoSpace(s: string)
  {
    forall i :: 0 <= i < |s| ==> !IsSpace(s[i])
  }

  /**
   * Upper-casing of one character, as Python's `str.upper` does it for the
   * ASCII letters and the Latin-1 letters à..þ (÷ is not a letter).
   */
  function UpperChar(c: char): (u: char)
    ensures IsSpace(c) ==> u == c
    ensures !('a' <= u <= 'z')
  {
    if 'a' <= c <= 'z' then (c as int - 32) as char
    else if '\U{E0}' <= c <= '\U{FE}' && c != '\U{F7}' then (c as int - 32) as char
    else c
  }

  function Upper(s: string): (r: string)
    ensures |r| == |s|
    ensures forall i :: 0 <= i < |s| ==> r[i] == UpperChar(s[i])
  {
    seq(|s|, i requires 0 <= i < |s| => UpperChar(s[i]))
  }

  lemma UpperCharIdempotent(c: char)
    ensures UpperChar(UpperChar(c)) == UpperChar(c)
  {
  }

  /** Upper-casing twice is upper-casing once. */
  lemma UpperIdempotent(s: string)
    ensures Upper(Upper(s)) == Upper(s)
  {
    forall i | 0 <= i < |s|
      ensures Upper(Upper(s))[i] == Upper(s)[i]
    {
      UpperCharIdempotent(s[i]);
    }
  }

  lemma UpperConcat(a: string, b: string)
    ensures Upper(a + b) == Upper(a) + Upper(b)
  {
    assert forall i :: 0 <= i < |a + b| ==> Upper(a + b)[i] == (Upper(a) + Upper(b))[i];
  }

  lemma UpperAllSpace(w: string)
    requires AllSpace(w)
    ensures Upper(w) == w
  {
  }

  /** Python's `str.lstrip()` of whitespace. */
  function TrimStart(s: string): (r: string)
    ensures |r| <= |s|
    ensures |r| > 0 ==> !IsSpace(r[0])
  {
    if |s| > 0 && IsSpace(s[0]) then TrimStart(s[1..]) else s
  }

  /** Python's `str.rstrip()` of whitespace. */
  function TrimEnd(s: string): (r: string)
    ensures |r| <= |s|
    ensures |r| > 0 ==> !IsSpace(r[|r| - 1])
  {
    if |s| > 0 && IsSpace(s[|s| - 1]) then TrimEnd(s[..|s| - 1]) else s
  }

  /** Python's `str.strip()`. */
  function Strip(s: string): (r: string)
    ensures |r| <= |s|
  {
    TrimEnd(TrimStart(s))
  }

  /** Stripping keeps a middle slice of the text, with no whitespace left at either end. */
  lemma {:induction false} StripFatia(s: string)
    ensures forall i :: 0 <= i < |Strip(s)| ==> Strip(s)[i] == s[|s| - |TrimStart(s)| + i]
    ensures |Strip(s)| > 0 ==> !IsSpace(Strip(s)[0]) && !IsSpace(Strip(s)[|Strip(s)| - 1])
  {
    TrimStartSufixo(s);
    TrimEndPrefixo(TrimStart(s));
  }

  lemma {:induction false} TrimStartSufixo(s: string)
    ensures TrimStart(s) == s[|s| - |TrimStart(s)|..]
    decreases |s|
  {
    if |s| > 0 && IsSpace(s[0]) {
      TrimStartSufixo(s[1..]);
    }
  }

  lemma {:induction false} TrimEndPrefixo(s: string)
    ensures TrimEnd(s) == s[..|TrimEnd(s)|]
    decreases |s|
  {
    if |s| > 0 && IsSpace(s[|s| - 1]) {
      TrimEndPrefixo(s[..|s| - 1]);
    }
  }

  // ---------------------------------------------------------------------------
  // Substring test (Python's `k in s`)
  // ---------------------------------------------------------------------------

  predicate IsPrefix(p: string, s: string)
  {
    |p| <= |s| && s[..|p|] == p
  }

  predicate Contains(s: string, k: string)
    decreases |s|
  {
    IsPrefix(k, s) || (|s| > 0 && Contains(s[1..], k))
  }

  /** Every character of an occurring substring occurs in the string. */
  lemma {:induction false} ContainsChars(s: string, k: string, j: int)
    requires Contains(s, k) && 0 <= j < |k|
    ensures k[j] in s
    decreases |s|
  {
    if IsPrefix(k, s) {
      assert s[j] == k[j];
    } else {
      ContainsChars(s[1..], k, j);
      assert s[1..][..] == s[1..];
    }
  }

  /** A keyword: non-empty and free of whitespace. */
  predicate IsKeyword(k: string)
  {
    |k| > 0 && NoSpace(k)
  }

  lemma ContainsDropFrontSpace(s: string, k: string)
    requires IsKeyword(k) && |s| > 0 && IsSpace(s[0])
    ensures Contains(s, k) == Contains(s[1..], k)
  {
    assert s[0] != k[0];
  }

  lemma {:induction false} ContainsDropBackSpace(s: string, k: string)
    requires IsKeyword(k) && |s| > 0 && IsSpace(s[|s| - 1])
    ensures Contains(s, k) == Contains(s[..|s| - 1], k)
    decreases |s|
  {
    var t := s[..|s| - 1];
    assert k[|k| - 1] != s[|s| - 1];
    assert IsPrefix(k, s) == IsPrefix(k, t) by {
      if |k| <= |t| {
        assert s[..|k|] == t[..|k|];
      }
    }
    if |s| == 1 {
      assert !Contains(s[1..], k);
      assert t == [];
      assert !Contains(t, k);
    } else {
      ContainsDropBackSpace(s[1..], k);
      assert s[1..][..|s[1..]| - 1] == t[1..];
    }
  }

  lemma {:induction false} ContainsTrimStart(s: string, k: string)
    requires IsKeyword(k)
    ensures Contains(TrimStart(s), k) == Contains(s, k)
    decreases |s|
  {
    if |s| > 0 && IsSpace(s[0]) {
      ContainsDropFrontSpace(s, k);
      ContainsTrimStart(s[1..], k);
    }
  }

  lemma {:induction false} ContainsTrimEnd(s: string, k: string)
    requires IsKeyword(k)
    ensures Contains(TrimEnd(s), k) == Contains(s, k)
    decreases |s|
  {
    if |s| > 0 && IsSpace(s[|s| - 1]) {
      ContainsDropBackSpace(s, k);
      ContainsTrimEnd(s[..|s| - 1], k);
    }
  }

  /** Stripping surrounding whitespace never changes whether a keyword occurs. */
  lemma ContainsStrip(s: string, k: string)
    requires IsKeyword(k)
    ensures Contains(Strip(s), k) == Contains(s, k)
  {
    ContainsTrimStart(s, k);
    ContainsTrimEnd(TrimStart(s), k);
  }

  /** Whitespace added around a string never changes whether a keyword occurs. */
  lemma {:induction false} ContainsPadded(w1: string, s: string, w2: string, k: string)
    requires IsKeyword(k) && AllSpace(w1) && AllSpace(w2)
    ensures Contains(w1 + s + w2, k) == Contains(s, k)
    decreases |w1| + |w2|
  {
    if |w1| > 0 {
      ContainsDropFrontSpace(w1 + s + w2, k);
      assert (w1 + s + w2)[1..] == w1[1..] + s + w2;
      ContainsPadded(w1[1..], s, w2, k);
    } else if |w2| > 0 {
      assert w1 + s + w2 == s + w2;
      var u := s + w2;
      ContainsDropBackSpace(u, k);
      assert u[..|u| - 1] == [] + s + w2[..|w2| - 1];
      ContainsPadded([], s, w2[..|w2| - 1], k);
    } else {
      assert w1 + s + w2 == s;
    }
  }

  // ---------------------------------------------------------------------------
  // Single-character split and join (Python `s.split(c)`, JavaScript `s.split(c)`)
  // ---------------------------------------------------------------------------

  /** Splits at every occurrence of `sep`; the empty string gives `[""]`. */
  function Split(s: string, sep: char): (r: seq<string>)
    ensures |r| >= 1
    decreases |s|
  {
    if |s| == 0 then [""]
    else if s[0] == sep then [""] + Split(s[1..], sep)
    else
      var rest := Split(s[1..], sep);
      [[s[0]] + rest[0]] + rest[1..]
  }

  lemma {:induction false} SplitNoSep(a: string, sep: char)
    requires sep !in a
    ensures Split(a, sep) == [a]
    decreases |a|
  {
    if |a| > 0 {
      SplitNoSep(a[1..], sep);
      assert [a[0]] + a[1..] == a;
    }
  }

  lemma {:induction false} SplitAt(a: string, b: string, sep: char)
    requires sep !in a
    ensures Split(a + [sep] + b, sep) == [a] + Split(b, sep)
    decreases |a|
  {
    var s := a + [sep] + b;
    if |a| == 0 {
      assert s[0] == sep && s[1..] == b;
    } else {
      assert s[0] == a[0] && s[1..] == a[1..] + [sep] + b;
      SplitAt(a[1..], b, sep);
      assert [a[0]] + a[1..] == a;
    }
  }

  /** Joins the parts with `sep` between consecutive parts. */
  function Join(parts: seq<string>, sep: char): string
    decreases |parts|
  {
    if |parts| == 0 then ""
    else if |parts| == 1 then parts[0]
    else parts[0] + [sep] + Join(parts[1..], sep)
  }

  /** Splitting a join gives the parts back when no part holds the separator. */
  lemma {:induction false} SplitJoin(parts: seq<string>, sep: char)
    requires |parts| >= 1
    requires forall i :: 0 <= i < |parts| ==> sep !in parts[i]
    ensures Split(Join(parts, sep), sep) == parts
    decreases |parts|
  {
    if |parts| == 1 {
      SplitNoSep(parts[0], sep);
    } else {
      SplitAt(parts[0], Join(parts[1..], sep), sep);
      SplitJoin(parts[1..], sep);
      assert [parts[0]] + parts[1..] == parts;
    }
  }

  // ---------------------------------------------------------------------------
  // Decimal digit strings
  // ---------------------------------------------------------------------------

  predicate IsDigit(c: char)
  {
    '0' <= c <= '9'
  }

  predicate IsDigits(s: string)
  {
    forall i :: 0 <= i < |s| ==> IsDigit(s[i])
  }

  function DigitChar(d: nat): (c: char)
    requires d < 10
    ensures IsDigit(c) && c as int - '0' as int == d
  {
    ('0' as int + d) as char
  }

  /** The decimal numeral of a natural number, without leading zeros. */
  function NatToString(n: nat): (r: string)
    ensures |r| >= 1 && IsDigits(r)
    ensures (|r| == 1) == (n < 10)
    decreases n
  {
    if n < 10 then [DigitChar(n)] else NatToString(n / 10) + [DigitChar(n % 10)]
  }

  /** The value of a digit string; the empty string is 0 (as JavaScript's `Number("")`). */
  function ParseNat(s: string): nat
    requires IsDigits(s)
    decreases |s|
  {
    if |s| == 0 then 0 else ParseNat(s[..|s| - 1]) * 10 + (s[|s| - 1] as int - '0' as int)
  }

  lemma {:induction false} ParseNatToString(n: nat)
    ensures ParseNat(NatToString(n)) == n
    decreases n
  {
    if n >= 10 {
      var s := NatToString(n);
      assert s[..|s| - 1] == NatToString(n / 10);
      ParseNatToString(n / 10);
    }
  }

  /** Leading zeros do not change the value of a digit string. */
  lemma {:induction false} ParseNatLeadingZero(s: string)
    requires IsDigits(s)
    ensures IsDigits("0" + s) && ParseNat("0" + s) == ParseNat(s)
    decreases |s|
  {
    if |s| > 0 {
      var t := "0" + s;
      assert t[..|t| - 1] == "0" + s[..|s| - 1];
      ParseNatLeadingZero(s[..|s| - 1]);
    }
  }

  /** JavaScript's `String(n)` and Python's `str(n)` for an integer. */
  function IntToString(i: int): (r: string)
    ensures |r| >= 1
    ensures i >= 0 ==> IsDigits(r)
  {
    if i < 0 then "-" + NatToString(-i) else NatToString(i)
  }

  /** An optionally negative decimal numeral, as an integer path parameter is read. */
  function ParseInt(s: string): Option<int>
  {
    if |s| > 1 && s[0] == '-' && IsDigits(s[1..]) then Some(-(ParseNat(s[1..]) as int))
    else if |s| > 0 && IsDigits(s) then Some(ParseNat(s))
    else None
  }

  lemma ParseIntToString(i: int)
    ensures ParseInt(IntToString(i)) == Some(i)
  {
    var s := IntToString(i);
    if i < 0 {
      var n := NatToString(-i);
      assert s == "-" + n && s[1..] == n;
      ParseNatToString(-i);
      assert ParseInt(s) == Some(-(ParseNat(n) as int));
    } else {
      assert IsDigit(s[0]);
      ParseNatToString(i);
      assert ParseInt(s) == Some(ParseNat(s) as int);
    }
  }

  lemma IntToStringHasNo(i: int, c: char)
    requires c != '-' && !IsDigit(c)
    ensures c !in IntToString(i)
  {
    var s := IntToString(i);
    if i < 0 {
      var n := NatToString(-i);
      assert s == "-" + n;
      assert forall k :: 0 <= k < |s| ==> s[k] == '-' || IsDigit(s[k]) by {
        forall k | 0 <= k < |s| ensures s[k] == '-' || IsDigit(s[k]) {
          if k > 0 { assert s[k] == n[k - 1]; }
        }
      }
    }
  }

  // ---------------------------------------------------------------------------
  // JavaScript string operations
  // ---------------------------------------------------------------------------

  /** JavaScript's `s.replace(from, to)` with a one-character string pattern. */
  function ReplaceFirst(s: string, from: char, to: char): (r: string)
    ensures |r| == |s|
    ensures forall i :: 0 <= i < |s| ==>
      r[i] == (if s[i] == from && from !in s[..i] then to else s[i])
    decreases |s|
  {
    if |s| == 0 then ""
    else if s[0] == from then
      var r := [to] + s[1..];
      assert forall i :: 1 <= i < |s| ==> from in s[..i] by {
        forall i | 1 <= i < |s| ensures from in s[..i] {
          assert s[..i][0] == from;
        }
      }
      r
    else
      var rest := ReplaceFirst(s[1..], from, to);
      var r := [s[0]] + rest;
      assert forall i :: 1 <= i < |s| ==> r[i] == (if s[i] == from && from !in s[..i] then to else s[i]) by {
        forall i | 1 <= i < |s| ensures r[i] == (if s[i] == from && from !in s[..i] then to else s[i]) {
          assert s[..i] == [s[0]] + s[1..][..i - 1];
          assert r[i] == rest[i - 1] && s[i] == s[1..][i - 1];
        }
      }
      r
  }

  /** JavaScript's `s.padStart(2, '0')`. */
  function PadStart2(s: string): (r: string)
    ensures |r| == if |s| >= 2 then |s| else 2
    ensures r[|r| - |s|..] == s
    ensures forall i :: 0 <= i < |r| - |s| ==> r[i] == '0'
  {
    if |s| >= 2 then s else seq(2 - |s|, _ => '0') + s
  }
}
