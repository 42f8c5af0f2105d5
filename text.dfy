/**
 * The few Python string operations the application relies on, over
 * `seq<char>` (the statutes are CJK text inside the Basic Multilingual Plane,
 * so one `char` is one code point, as Python's `len` and slicing count):
 * `str.strip()`, the emptiness test `not s or not s.strip()`, substring
 * search `t in s`, `str.lower()` as the ASCII mapping the callers' tests
 * need, `sep.join(parts)` and `str(n)` for a natural number.
 */
module Text {

  /** The characters for which Python's `str.isspace()` holds. */
  predicate IsSpace(c: char) {
    c == ' ' || c == '\t' || c == '\n' || c == '\r' ||
    c == '\U{000B}' || c == '\U{000C}' ||
    ('\U{001C}' <= c <= '\U{001F}') ||
    c == '\U{0085}' || c == '\U{00A0}' || c == '\U{1680}' ||
    ('\U{2000}' <= c <= '\U{200A}') ||
    c == '\U{2028}' || c == '\U{2029}' || c == '\U{202F}' || c == '\U{205F}' ||
    c == '\U{3000}'
  }

  predicate AllSpace(s: string) {
    forall i :: 0 <= i < |s| ==> IsSpace(s[i])
  }

  /** `s.lstrip()`. */
  function TrimStart(s: string): string {
    if |s| > 0 && IsSpace(s[0]) then TrimStart(s[1..]) else s
  }

  /** `s.rstrip()`. */
  function TrimEnd(s: string): string {
    if |s| > 0 && IsSpace(s[|s| - 1]) then TrimEnd(s[..|s| - 1]) else s
  }

  /** `s.strip()`. */
  function Strip(s: string): string {
    TrimEnd(TrimStart(s))
  }

  /** lstrip() keeps the longest suffix that does not begin with whitespace. */
  lemma {:induction false} TrimStartSpec(s: string)
    ensures |TrimStart(s)| <= |s| && TrimStart(s) == s[|s| - |TrimStart(s)|..]
    ensures AllSpace(s[..|s| - |TrimStart(s)|])
    ensures TrimStart(s) == [] || !IsSpace(TrimStart(s)[0])
  {
    if |s| > 0 && IsSpace(s[0]) {
      var t := s[1..];
      TrimStartSpec(t);
      var k := |s| - |TrimStart(s)|;
      assert TrimStart(s) == TrimStart(t);
      assert s[k..] == t[k - 1..];
      forall i | 0 <= i < k
        ensures IsSpace(s[..k][i])
      {
        if i > 0 {
          assert s[..k][i] == t[..k - 1][i - 1];
        }
      }
    }
  }

  /** rstrip() keeps the longest prefix that does not end with whitespace. */
  lemma {:induction false} TrimEndSpec(s: string)
    ensures |TrimEnd(s)| <= |s| && TrimEnd(s) == s[..|TrimEnd(s)|]
    ensures AllSpace(s[|TrimEnd(s)|..])
    ensures TrimEnd(s) == [] || !IsSpace(TrimEnd(s)[|TrimEnd(s)| - 1])
  {
    if |s| > 0 && IsSpace(s[|s| - 1]) {
      var t := s[..|s| - 1];
      TrimEndSpec(t);
      var k := |TrimEnd(s)|;
      assert TrimEnd(s) == TrimEnd(t);
      assert t[..k] == s[..k];
      forall i | 0 <= i < |s| - k
        ensures IsSpace(s[k..][i])
      {
        if i < |t| - k {
          assert s[k..][i] == t[k..][i];
        }
      }
    }
  }

  /** strip() leaves text that neither begins nor ends with whitespace. */
  lemma StripSpec(s: string)
    ensures |Strip(s)| <= |s|
    ensures Strip(s) == [] || (!IsSpace(Strip(s)[0]) && !IsSpace(Strip(s)[|Strip(s)| - 1]))
  {
    var t := TrimStart(s);
    TrimStartSpec(s);
    TrimEndSpec(t);
    if Strip(s) != [] {
      assert Strip(s)[0] == t[0];
    }
  }

  /** Stripping leaves nothing exactly when the text is all whitespace. */
  lemma StripEmptyIffAllSpace(s: string)
    ensures Strip(s) == [] <==> AllSpace(s)
  {
    var t := TrimStart(s);
    TrimStartSpec(s);
    TrimEndSpec(t);
    assert t == s[|s| - |t|..];
    assert t[0..] == t;
    assert s[..|s|] == s;
  }

  /** What strip() keeps is one contiguous run of the text, and all it drops is whitespace. */
  lemma StripIsInnerRun(s: string)
    ensures exists i ::
      OccursAt(s, Strip(s), i) && AllSpace(s[..i]) && AllSpace(s[i + |Strip(s)|..])
  {
    var t := TrimStart(s);
    TrimStartSpec(s);
    TrimEndSpec(t);
    var r := TrimEnd(t);
    var i := |s| - |t|;
    assert s[i..] == t;
    assert s[i..i + |r|] == r by { assert t[..|r|] == r; }
    assert s[i + |r|..] == t[|r|..];
    assert OccursAt(s, r, i);
  }

  /** Python's `not s or not s.strip()`: the text is missing or only whitespace. */
  predicate IsBlank(s: string) {
    s == [] || Strip(s) == []
  }

  lemma BlankIffAllSpace(s: string)
    ensures IsBlank(s) <==> AllSpace(s)
  {
    StripEmptyIffAllSpace(s);
  }

  /** Python's `t in s` for strings. */
  predicate Contains(s: string, t: string)
    decreases |s|
  {
    |t| <= |s| && (s[..|t|] == t || Contains(s[1..], t))
  }

  /** `t` occurs in `s` starting at offset `i`. */
  predicate OccursAt(s: string, t: string, i: int) {
    0 <= i <= |s| - |t| && s[i..i + |t|] == t
  }

  /** The recursive search agrees with "t occurs at some offset of s". */
  lemma {:induction false} ContainsIffOccurs(s: string, t: string)
    ensures Contains(s, t) <==> exists i :: OccursAt(s, t, i)
    decreases |s|
  {
    if |t| <= |s| {
      if s[..|t|] == t {
        assert OccursAt(s, t, 0);
      } else {
        ContainsIffOccurs(s[1..], t);
        if Contains(s[1..], t) {
          var i :| OccursAt(s[1..], t, i);
          assert s[i + 1..i + 1 + |t|] == s[1..][i..i + |t|];
          assert OccursAt(s, t, i + 1);
        }
        if exists i :: OccursAt(s, t, i) {
          var i :| OccursAt(s, t, i);
          assert i != 0;
          assert s[1..][i - 1..i - 1 + |t|] == s[i..i + |t|];
          assert OccursAt(s[1..], t, i - 1);
        }
      }
    }
  }

  function LowerChar(c: char): char {
    if 'A' <= c <= 'Z' then (c as int - 'A' as int + 'a' as int) as char else c
  }

  /** `s.lower()` on the ASCII letters; every other character is kept. */
  function Lower(s: string): (r: string)
    ensures |r| == |s|
  {
    seq(|s|, i requires 0 <= i < |s| => LowerChar(s[i]))
  }

  /** Lowering commutes with taking a slice. */
  lemma LowerSlice(s: string, i: int, j: int)
    requires 0 <= i <= j <= |s|
    ensures Lower(s)[i..j] == Lower(s[i..j])
  {
  }

  /** `t` occurs in `s` at offset `i` once the ASCII letters of `s` are lowered. */
  predicate OccursAnyCaseAt(s: string, t: string, i: int) {
    0 <= i <= |s| - |t| && Lower(s[i..i + |t|]) == t
  }

  /**
   * Searching the lowered text for `t` finds every place where the text,
   * lowered, reads `t`: for a lower-case pattern, "Connection", "CONNECTION"
   * and "connection" all match.
   */
  lemma ContainsIgnoringCase(s: string, t: string)
    ensures Contains(Lower(s), t) <==> exists i :: OccursAnyCaseAt(s, t, i)
  {
    ContainsIffOccurs(Lower(s), t);
    forall i
      ensures OccursAt(Lower(s), t, i) <==> OccursAnyCaseAt(s, t, i)
    {
      if 0 <= i <= |s| - |t| {
        LowerSlice(s, i, i + |t|);
      }
    }
  }

  /** `sep.join(parts)`. */
  function Join(sep: string, parts: seq<string>): string {
    if |parts| == 0 then ""
    else if |parts| == 1 then parts[0]
    else Join(sep, parts[..|parts| - 1]) + sep + parts[|parts| - 1]
  }

  /** Joining two non-empty lists is joining each and putting one separator between. */
  lemma {:induction false} JoinConcat(sep: string, xs: seq<string>, ys: seq<string>)
    requires |xs| > 0 && |ys| > 0
    ensures Join(sep, xs + ys) == Join(sep, xs) + sep + Join(sep, ys)
    decreases |ys|
  {
    if |ys| == 1 {
      assert (xs + ys)[..|xs + ys| - 1] == xs;
    } else {
      var ys' := ys[..|ys| - 1];
      assert (xs + ys)[..|xs + ys| - 1] == xs + ys';
      JoinConcat(sep, xs, ys');
    }
  }

  /** A join starts with its first part. */
  lemma {:induction false} JoinStartsWithFirst(sep: string, parts: seq<string>)
    requires |parts| > 0
    ensures |Join(sep, parts)| >= |parts[0]| && Join(sep, parts)[..|parts[0]|] == parts[0]
  {
    if |parts| > 1 {
      var front := parts[..|parts| - 1];
      JoinStartsWithFirst(sep, front);
      assert front[0] == parts[0];
      var j := Join(sep, front);
      assert Join(sep, parts) == j + sep + parts[|parts| - 1];
      assert (j + sep + parts[|parts| - 1])[..|parts[0]|] == j[..|parts[0]|];
    }
  }

  function DigitChar(d: nat): char
    requires d < 10
  {
    ('0' as int + d) as char
  }

  predicate IsDigit(c: char) {
    '0' <= c <= '9'
  }

  function DigitValue(c: char): nat
    requires IsDigit(c)
  {
    c as int - '0' as int
  }

  /** The number a string of decimal digits denotes. */
  function DecimalValue(s: string): nat
    requires forall i :: 0 <= i < |s| ==> IsDigit(s[i])
  {
    if s == [] then 0
    else 10 * DecimalValue(s[..|s| - 1]) + DigitValue(s[|s| - 1])
  }

  /** `str(n)`: the canonical decimal numeral of n, which reads back as n. */
  function NatToString(n: nat): (r: string)
    ensures |r| >= 1 && forall i :: 0 <= i < |r| ==> IsDigit(r[i])
    ensures r[0] == '0' ==> n == 0
    ensures DecimalValue(r) == n
  {
    if n < 10 then [DigitChar(n)]
    else
      var p := NatToString(n / 10);
      assert (p + [DigitChar(n % 10)])[..|p|] == p;
      p + [DigitChar(n % 10)]
  }
}
