/** The pieces of Python's `str` behaviour that the trading code relies on:
    whitespace stripping, `split`, `startswith`, ASCII upper-casing, `int()` on
    a string, and decimal rendering of integers inside f-strings. */
module Text {
  import opened Basics

  /** Characters that Python's `str.strip()` and `str.split()` treat as whitespace. */
  predicate IsSpace(c: char) {
    ('\t' <= c <= '\r') || ('\U{1C}' <= c <= '\U{1F}') || c == ' ' || c == '\U{85}'
    || c == '\U{A0}' || c == '\U{1680}' || ('\U{2000}' <= c <= '\U{200A}')
    || c == '\U{2028}' || c == '\U{2029}' || c == '\U{202F}' || c == '\U{205F}'
    || c == '\U{3000}'
  }

  predicate IsDigit(c: char) {
    '0' <= c <= '9'
  }

  function DigitValue(c: char): (d: nat)
    requires IsDigit(c)
    ensures d < 10
  {
    (c as int) - ('0' as int)
  }

  function DigitChar(d: nat): (c: char)
    requires d < 10
    ensures IsDigit(c) && DigitValue(c) == d
  {
    (('0' as int) + d) as char
  }

  /** `s.lstrip()` */
  function TrimLeft(s: string): (r: string)
    ensures |r| <= |s| && r == s[|s| - |r|..]
    ensures r == [] || !IsSpace(r[0])
    ensures forall i :: 0 <= i < |s| - |r| ==> IsSpace(s[i])
  {
    if s == [] || !IsSpace(s[0]) then s else TrimLeft(s[1..])
  }

  /** `s.rstrip()` */
  function TrimRight(s: string): (r: string)
    ensures |r| <= |s| && r == s[..|r|]
    ensures r == [] || !IsSpace(r[|r| - 1])
    ensures forall i :: |r| <= i < |s| ==> IsSpace(s[i])
  {
    if s == [] || !IsSpace(s[|s| - 1]) then s else TrimRight(s[..|s| - 1])
  }

  predicate AllSpace(t: string) {
    forall i :: 0 <= i < |t| ==> IsSpace(t[i])
  }

  /** Empty, or starting with whitespace: what may follow a token. */
  predicate StartsAtSpace(t: string) {
    t == [] || IsSpace(t[0])
  }

  /** `s.strip()`: `s` is the result between a whitespace prefix and a
      whitespace suffix, and the result neither starts nor ends with
      whitespace. */
  function Strip(s: string): (r: string)
    ensures |r| <= |s|
    ensures exists lead, trail :: s == lead + r + trail && AllSpace(lead) && AllSpace(trail)
    ensures r == [] || (!IsSpace(r[0]) && !IsSpace(r[|r| - 1]))
  {
    StripSplits(s);
    TrimRight(TrimLeft(s))
  }

  lemma StripSplits(s: string)
    ensures exists lead, trail :: s == lead + TrimRight(TrimLeft(s)) + trail && AllSpace(lead) && AllSpace(trail)
  {
    var t := TrimLeft(s);
    var r := TrimRight(t);
    PrefixAllSpace(s, |s| - |t|);
    SuffixAllSpace(t, |r|);
    SplitAt(s, |s| - |t|);
    SplitAt(t, |r|);
    Around(s, s[..|s| - |t|], r, t[|r|..]);
  }

  lemma SplitAt(s: string, n: nat)
    requires n <= |s|
    ensures s == s[..n] + s[n..]
  {
  }

  lemma PrefixAllSpace(s: string, n: nat)
    requires n <= |s| && forall i :: 0 <= i < n ==> IsSpace(s[i])
    ensures AllSpace(s[..n])
  {
  }

  lemma SuffixAllSpace(s: string, n: nat)
    requires n <= |s| && forall i :: n <= i < |s| ==> IsSpace(s[i])
    ensures AllSpace(s[n..])
  {
    forall i | 0 <= i < |s| - n ensures IsSpace(s[n..][i]) {
      assert s[n..][i] == s[n + i];
    }
  }

  /** `mid` with whitespace around it makes up `s`. */
  lemma Around(s: string, lead: string, mid: string, trail: string)
    requires s == lead + (mid + trail) && AllSpace(lead) && AllSpace(trail)
    ensures exists l, t :: s == l + mid + t && AllSpace(l) && AllSpace(t)
  {
    assert s == lead + mid + trail;
  }

  lemma StripNoSpace(s: string)
    requires forall i :: 0 <= i < |s| ==> !IsSpace(s[i])
    ensures Strip(s) == s
  {
  }

  /** `s.startswith(p)` */
  predicate StartsWith(s: string, p: string) {
    |p| <= |s| && s[..|p|] == p
  }

  /** Index of the first occurrence of `c` in `s`. */
  function IndexOf(s: string, c: char): (i: nat)
    requires c in s
    ensures i < |s| && s[i] == c && c !in s[..i]
  {
    if s[0] == c then 0 else 1 + IndexOf(s[1..], c)
  }

  /** `s.split(c, 1)[1]`: everything after the first occurrence of `c`. */
  function AfterFirst(s: string, c: char): (r: string)
    requires c in s
    ensures |r| < |s|
  {
    s[IndexOf(s, c) + 1..]
  }

  /** When `c` occurs in `key` only as its last character, the text after
      the first `c` of `key + rest` is `rest`, whatever `rest` holds. */
  lemma AfterFirstOfKey(key: string, rest: string, c: char)
    requires |key| > 0 && key[|key| - 1] == c && c !in key[..|key| - 1]
    ensures c in key + rest && AfterFirst(key + rest, c) == rest
  {
    var s := key + rest;
    assert s[|key| - 1] == c;
    assert s[IndexOf(s, c) + 1..] == rest;
  }

  /** `s.split(sep)`: always at least one piece; pieces never contain `sep`,
      and joining them with `sep` gives back `s`. */
  function SplitOn(s: string, sep: char): (r: seq<string>)
    ensures |r| >= 1
    ensures forall k :: 0 <= k < |r| ==> sep !in r[k]
    ensures Join(r, [sep]) == s
  {
    if s == [] then [""]
    else if s[0] == sep then
      var rest := SplitOn(s[1..], sep);
      assert Join([""] + rest, [sep]) == "" + [sep] + Join(rest, [sep]) by {
        assert ([""] + rest)[1..] == rest;
      }
      assert s == [sep] + s[1..];
      [""] + rest
    else
      var rest := SplitOn(s[1..], sep);
      var r := [[s[0]] + rest[0]] + rest[1..];
      assert r[1..] == rest[1..];
      assert s == [s[0]] + s[1..];
      if |rest| == 1 then r
      else
        assert Join(rest, [sep]) == rest[0] + [sep] + Join(rest[1..], [sep]);
        r
  }

  /** Longest prefix of `s` that holds no whitespace. */
  function TakeNonSpace(s: string): (r: string)
    ensures |r| <= |s| && r == s[..|r|]
    ensures forall i :: 0 <= i < |r| ==> !IsSpace(r[i])
    ensures |r| == |s| || IsSpace(s[|r|])
  {
    if s == [] || IsSpace(s[0]) then [] else [s[0]] + TakeNonSpace(s[1..])
  }

  /** `s.split()[0]`, or None where Python raises IndexError (no token at
      all): the token is a non-empty run without whitespace that follows only
      whitespace and ends at whitespace or at the end of `s`. */
  function FirstToken(s: string): (r: Option<string>)
    ensures r.None? <==> AllSpace(s)
    ensures r.Some? ==> |r.value| > 0 && forall i :: 0 <= i < |r.value| ==> !IsSpace(r.value[i])
    ensures r.Some? ==> exists lead, rest :: s == lead + r.value + rest && AllSpace(lead) && StartsAtSpace(rest)
  {
    var t := TrimLeft(s);
    if t == [] then None
    else
      var token := TakeNonSpace(t);
      PrefixAllSpace(s, |s| - |t|);
      SplitAt(s, |s| - |t|);
      SplitAt(t, |token|);
      FollowedBy(s, s[..|s| - |t|], token, t[|token|..]);
      Some(token)
  }

  /** `token` after whitespace starts `s` and ends where whitespace or `s` does. */
  lemma FollowedBy(s: string, lead: string, token: string, rest: string)
    requires s == lead + (token + rest) && AllSpace(lead) && StartsAtSpace(rest)
    ensures exists l, t :: s == l + token + t && AllSpace(l) && StartsAtSpace(t)
  {
    assert s == lead + token + rest;
  }

  /** Upper case of one character as far as it matters here: the ASCII letters,
      and the two non-ASCII letters whose upper case is an ASCII letter. */
  function UpperChar(c: char): char {
    if 'a' <= c <= 'z' then ((c as int) - 32) as char
    else if c == '\U{131}' then 'I'
    else if c == '\U{17F}' then 'S'
    else c
  }

  /** `s.upper()` (see UpperChar). */
  function Upper(s: string): (r: string)
    ensures |r| == |s| && forall i :: 0 <= i < |s| ==> r[i] == UpperChar(s[i])
  {
    if s == [] then [] else [UpperChar(s[0])] + Upper(s[1..])
  }

  /** `sep.join(parts)` */
  function Join(parts: seq<string>, sep: string): string {
    if parts == [] then ""
    else if |parts| == 1 then parts[0]
    else parts[0] + sep + Join(parts[1..], sep)
  }

  // ---------------------------------------------------------------------
  // Decimal rendering of integers (`f"{n}"`, `str(n)`)
  // ---------------------------------------------------------------------

  function NatToString(n: nat): (s: string)
    ensures |s| > 0
    ensures forall i :: 0 <= i < |s| ==> IsDigit(s[i])
  {
    if n < 10 then [DigitChar(n)] else NatToString(n / 10) + [DigitChar(n % 10)]
  }

  function IntToString(i: int): (s: string)
    ensures |s| > 0
  {
    if i < 0 then "-" + NatToString(-i) else NatToString(i)
  }

  /** A rendered integer holds only digits and the minus sign. */
  lemma IntToStringChars(i: int)
    ensures forall k :: 0 <= k < |IntToString(i)| ==> IntToString(i)[k] == '-' || IsDigit(IntToString(i)[k])
  {
    if i < 0 {
      var d := NatToString(-i);
      assert forall k :: 1 <= k < |IntToString(i)| ==> IntToString(i)[k] == d[k - 1];
    }
  }

  // ---------------------------------------------------------------------
  // Python `int(s)` for a string argument (base 10)
  // ---------------------------------------------------------------------

  /** A run of ASCII digits in which single underscores may separate digits. */
  predicate DigitGroups(s: string)
    decreases |s|
  {
    |s| > 0 && IsDigit(s[0])
    && (|s| == 1 || DigitGroups(s[1..]) || (s[1] == '_' && DigitGroups(s[2..])))
  }

  /** Value of the digits of `s`, anything else (the underscores) skipped. */
  function DigitsValue(s: string): nat
  {
    if s == [] then 0
    else if !IsDigit(s[|s| - 1]) then DigitsValue(s[..|s| - 1])
    else DigitsValue(s[..|s| - 1]) * 10 + DigitValue(s[|s| - 1])
  }

  lemma {:induction false} AllDigitsAreGroups(s: string)
    requires |s| > 0 && forall i :: 0 <= i < |s| ==> IsDigit(s[i])
    ensures DigitGroups(s)
  {
    if |s| > 1 {
      AllDigitsAreGroups(s[1..]);
    }
  }

  /** `int(t)` for an already stripped `t`: an optional sign, then digit groups. */
  function ParseSigned(t: string): (r: Option<int>)
  {
    if |t| > 0 && (t[0] == '+' || t[0] == '-') then
      var body := t[1..];
      var v: int := if DigitGroups(body) then DigitsValue(body) else 0;
      if DigitGroups(body) then Some(if t[0] == '-' then -v else v) else None
    else if DigitGroups(t) then Some(DigitsValue(t))
    else None
  }

  /** `int(s)`; None where Python raises ValueError. */
  function ParseInt(s: string): (r: Option<int>)
  {
    ParseSigned(Strip(s))
  }

  lemma {:induction false} DigitsValueOfNatToString(n: nat)
    ensures DigitsValue(NatToString(n)) == n
  {
    var s := NatToString(n);
    if n < 10 {
      assert s[..|s| - 1] == [];
    } else {
      DigitsValueOfNatToString(n / 10);
      assert s[..|s| - 1] == NatToString(n / 10);
    }
  }

  lemma NatToStringIsDigitGroups(n: nat)
    ensures DigitGroups(NatToString(n))
    ensures Strip(NatToString(n)) == NatToString(n)
  {
    var s := NatToString(n);
    AllDigitsAreGroups(s);
    StripNoSpace(s);
  }

  lemma ParseIntOfNatToString(n: nat)
    ensures ParseInt(NatToString(n)) == Some(n)
  {
    var s := NatToString(n);
    NatToStringIsDigitGroups(n);
    DigitsValueOfNatToString(n);
    assert IsDigit(s[0]);
  }

  lemma ParseSignedOfMinus(body: string)
    requires DigitGroups(body)
    ensures ParseSigned("-" + body) == Some(-(DigitsValue(body) as int))
  {
    var t := "-" + body;
    assert t[1..] == body;
  }

  /** Without whitespace at either end, `int(s)` reads `s` as it is. */
  lemma ParseIntOfUnpadded(s: string)
    requires |s| > 0 && !IsSpace(s[0]) && !IsSpace(s[|s| - 1])
    ensures ParseInt(s) == ParseSigned(s)
  {
    assert TrimLeft(s) == s;
    assert TrimRight(s) == s;
  }

  lemma ParseIntOfMinusDigits(d: string)
    requires forall i :: 0 <= i < |d| ==> IsDigit(d[i])
    ensures ParseInt("-" + d) == ParseSigned("-" + d)
  {
    var s := "-" + d;
    assert s[|s| - 1] == '-' || IsDigit(s[|s| - 1]);
    ParseIntOfUnpadded(s);
  }

  lemma ParseSignedOfMinusValue(d: string, n: nat)
    requires DigitGroups(d) && DigitsValue(d) == n
    ensures ParseSigned("-" + d) == Some(-(n as int))
  {
    ParseSignedOfMinus(d);
  }

  lemma ParseIntOfNegative(n: nat)
    ensures ParseInt("-" + NatToString(n)) == Some(-(n as int))
  {
    var d := NatToString(n);
    ParseIntOfMinusDigits(d);
    assert DigitGroups(d) && DigitsValue(d) == n by {
      NatToStringIsDigitGroups(n);
      DigitsValueOfNatToString(n);
    }
    ParseSignedOfMinusValue(d, n);
  }

  /** Rendering an integer and reading it back with `int()` gives the integer. */
  lemma ParseIntOfIntToString(i: int)
    ensures ParseInt(IntToString(i)) == Some(i)
  {
    if i < 0 {
      var n: nat := -i;
      assert IntToString(i) == "-" + NatToString(n);
      ParseIntOfNegative(n);
    } else {
      ParseIntOfNatToString(i);
    }
  }
}
