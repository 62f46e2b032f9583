/** Ordering helpers shared by the scanners and the reports: Python's stable
    `list.sort(key=..., reverse=True)`, `sorted()` on strings, the slice
    `s[:n]`, and `max`/`min` with a key (which return the FIRST extremal
    element). */
module Ranking {

  // ---------------------------------------------------------------------
  // Stable sort by an integer key, highest first
  // ---------------------------------------------------------------------

  predicate SortedDesc<T>(s: seq<T>, key: T -> int) {
    forall i, j :: 0 <= i < j < |s| ==> key(s[i]) >= key(s[j])
  }

  /** Inserts `x` after every leading element whose key is at least `key(x)`. */
  function InsertDesc<T>(t: seq<T>, x: T, key: T -> int): (r: seq<T>)
    ensures |r| == |t| + 1
  {
    if t == [] then [x]
    else if key(t[0]) >= key(x) then [t[0]] + InsertDesc(t[1..], x, key)
    else [x] + t
  }

  /** `sorted(s, key=key, reverse=True)`: Python keeps equal keys in their
      original order, which insertion from the back reproduces. */
  function SortDesc<T>(s: seq<T>, key: T -> int): (r: seq<T>)
    ensures |r| == |s|
  {
    if s == [] then [] else InsertDesc(SortDesc(s[..|s| - 1], key), s[|s| - 1], key)
  }

  /** The elements of `s` whose key is `k`, in order. */
  function WithKey<T>(s: seq<T>, key: T -> int, k: int): seq<T> {
    if s == [] then []
    else (if key(s[0]) == k then [s[0]] else []) + WithKey(s[1..], key, k)
  }

  lemma {:induction false} WithKeyAppend<T>(a: seq<T>, b: seq<T>, key: T -> int, k: int)
    ensures WithKey(a + b, key, k) == WithKey(a, key, k) + WithKey(b, key, k)
  {
    if a == [] {
      assert a + b == b;
    } else {
      var head := if key(a[0]) == k then [a[0]] else [];
      var x := WithKey(a[1..], key, k);
      var y := WithKey(b, key, k);
      assert (a + b)[0] == a[0];
      assert (a + b)[1..] == a[1..] + b;
      WithKeyAppend(a[1..], b, key, k);
      assert WithKey(a + b, key, k) == head + (x + y);
      assert head + (x + y) == head + x + y;
    }
  }

  lemma {:induction false} WithKeyNone<T>(s: seq<T>, key: T -> int, k: int)
    requires forall i :: 0 <= i < |s| ==> key(s[i]) < k
    ensures WithKey(s, key, k) == []
  {
    if s != [] {
      WithKeyNone(s[1..], key, k);
    }
  }

  lemma {:induction false} InsertDescBound<T>(t: seq<T>, x: T, key: T -> int, b: int)
    requires forall i :: 0 <= i < |t| ==> key(t[i]) <= b
    requires key(x) <= b
    ensures forall i :: 0 <= i < |InsertDesc(t, x, key)| ==> key(InsertDesc(t, x, key)[i]) <= b
  {
    if t != [] && key(t[0]) >= key(x) {
      InsertDescBound(t[1..], x, key, b);
    }
  }

  lemma {:induction false} InsertDescSorted<T>(t: seq<T>, x: T, key: T -> int)
    requires SortedDesc(t, key)
    ensures SortedDesc(InsertDesc(t, x, key), key)
  {
    if t != [] {
      if key(t[0]) >= key(x) {
        InsertDescSorted(t[1..], x, key);
        InsertDescBound(t[1..], x, key, key(t[0]));
      } else {
        forall i | 0 <= i < |t| ensures key(t[i]) < key(x) {
          assert i == 0 || key(t[0]) >= key(t[i]);
        }
      }
    }
  }

  lemma {:induction false} InsertDescPerm<T>(t: seq<T>, x: T, key: T -> int)
    ensures multiset(InsertDesc(t, x, key)) == multiset(t) + multiset{x}
  {
    if t != [] && key(t[0]) >= key(x) {
      InsertDescPerm(t[1..], x, key);
      assert t == [t[0]] + t[1..];
    }
  }

  lemma {:induction false} InsertDescWithKey<T>(t: seq<T>, x: T, key: T -> int, k: int)
    requires SortedDesc(t, key)
    ensures WithKey(InsertDesc(t, x, key), key, k)
            == WithKey(t, key, k) + (if key(x) == k then [x] else [])
  {
    var r := InsertDesc(t, x, key);
    if t == [] {
      assert r[1..] == [];
    } else if key(t[0]) >= key(x) {
      InsertDescWithKey(t[1..], x, key, k);
      assert r[1..] == InsertDesc(t[1..], x, key);
    } else {
      assert r[1..] == t;
      if key(x) == k {
        forall i | 0 <= i < |t| ensures key(t[i]) < k {
          assert i == 0 || key(t[0]) >= key(t[i]);
        }
        WithKeyNone(t, key, k);
      }
    }
  }

  /** The descending sort is ordered, a permutation of its input, and stable:
      among equal keys the input order survives. */
  lemma SortDescCorrect<T>(s: seq<T>, key: T -> int)
    ensures SortedDesc(SortDesc(s, key), key)
    ensures multiset(SortDesc(s, key)) == multiset(s)
    ensures forall k :: WithKey(SortDesc(s, key), key, k) == WithKey(s, key, k)
  {
    SortDescSorted(s, key);
    SortDescPerm(s, key);
    forall k ensures WithKey(SortDesc(s, key), key, k) == WithKey(s, key, k) {
      SortDescStable(s, key, k);
    }
  }

  lemma {:induction false} SortDescSorted<T>(s: seq<T>, key: T -> int)
    ensures SortedDesc(SortDesc(s, key), key)
  {
    if s != [] {
      SortDescSorted(s[..|s| - 1], key);
      InsertDescSorted(SortDesc(s[..|s| - 1], key), s[|s| - 1], key);
    }
  }

  lemma {:induction false} SortDescPerm<T>(s: seq<T>, key: T -> int)
    ensures multiset(SortDesc(s, key)) == multiset(s)
  {
    if s != [] {
      var init := s[..|s| - 1];
      SortDescPerm(init, key);
      InsertDescPerm(SortDesc(init, key), s[|s| - 1], key);
      assert s == init + [s[|s| - 1]];
    }
  }

  lemma {:induction false} SortDescStable<T>(s: seq<T>, key: T -> int, k: int)
    ensures WithKey(SortDesc(s, key), key, k) == WithKey(s, key, k)
  {
    if s != [] {
      var init := s[..|s| - 1];
      var last := s[|s| - 1];
      SortDescStable(init, key, k);
      SortDescSorted(init, key);
      InsertDescWithKey(SortDesc(init, key), last, key, k);
      WithKeyAppend(init, [last], key, k);
      assert [last][1..] == [];
      assert s == init + [last];
    }
  }

  // ---------------------------------------------------------------------
  // Python slicing `s[:n]`
  // ---------------------------------------------------------------------

  /** `s[:n]`: a negative `n` counts from the end. */
  function PyPrefix<T>(s: seq<T>, n: int): (r: seq<T>)
    ensures |r| <= |s| && r == s[..|r|]
    ensures n >= 0 ==> |r| == (if n < |s| then n else |s|)
    ensures n < 0 ==> |r| == (if |s| + n > 0 then |s| + n else 0)
  {
    if n >= 0 then (if n < |s| then s[..n] else s)
    else if |s| + n > 0 then s[..|s| + n]
    else []
  }

  /** A leading part of a list in descending order keeps its best entries:
      nothing it leaves out has a larger key than anything it keeps. */
  lemma PrefixKeepsBest<T>(s: seq<T>, n: nat, key: T -> int)
    requires SortedDesc(s, key) && n <= |s|
    ensures forall x, i :: x in s && x !in s[..n] && 0 <= i < n ==> key(x) <= key(s[i])
  {
    forall x, i | x in s && x !in s[..n] && 0 <= i < n ensures key(x) <= key(s[i]) {
      var j :| 0 <= j < |s| && s[j] == x;
    }
  }

  // ---------------------------------------------------------------------
  // `max(s, key=...)` and `min(s, key=...)`
  // ---------------------------------------------------------------------

  /** Index of the element `max(s, key=key)` returns: a maximal one, and the
      first of them (later ties do not replace it). */
  function FirstArgMax<T>(s: seq<T>, key: T -> real): (i: nat)
    requires |s| > 0
    ensures i < |s|
    ensures forall j :: 0 <= j < |s| ==> key(s[j]) <= key(s[i])
    ensures forall j :: 0 <= j < i ==> key(s[j]) < key(s[i])
  {
    if |s| == 1 then 0
    else
      var j := FirstArgMax(s[..|s| - 1], key);
      if key(s[|s| - 1]) > key(s[j]) then |s| - 1 else j
  }

  /** Index of the element `min(s, key=key)` returns: the first minimal one. */
  function FirstArgMin<T>(s: seq<T>, key: T -> real): (i: nat)
    requires |s| > 0
    ensures i < |s|
    ensures forall j :: 0 <= j < |s| ==> key(s[i]) <= key(s[j])
    ensures forall j :: 0 <= j < i ==> key(s[i]) < key(s[j])
  {
    if |s| == 1 then 0
    else
      var j := FirstArgMin(s[..|s| - 1], key);
      if key(s[|s| - 1]) < key(s[j]) then |s| - 1 else j
  }

  // ---------------------------------------------------------------------
  // `sorted()` on strings: code-point lexicographic order
  // ---------------------------------------------------------------------

  predicate LexLe(a: string, b: string) {
    a == [] || (b != [] && (a[0] < b[0] || (a[0] == b[0] && LexLe(a[1..], b[1..]))))
  }

  lemma {:induction false} LexLeTotal(a: string, b: string)
    ensures LexLe(a, b) || LexLe(b, a)
  {
    if a != [] && b != [] && a[0] == b[0] {
      LexLeTotal(a[1..], b[1..]);
    }
  }

  lemma {:induction false} LexLeTrans(a: string, b: string, c: string)
    requires LexLe(a, b) && LexLe(b, c)
    ensures LexLe(a, c)
  {
    if a != [] && b != [] && c != [] && a[0] == b[0] && b[0] == c[0] {
      LexLeTrans(a[1..], b[1..], c[1..]);
    }
  }

  predicate SortedAsc(s: seq<string>) {
    forall i, j :: 0 <= i < j < |s| ==> LexLe(s[i], s[j])
  }

  function InsertAsc(t: seq<string>, x: string): (r: seq<string>)
    ensures |r| == |t| + 1
  {
    if t == [] then [x]
    else if LexLe(t[0], x) then [t[0]] + InsertAsc(t[1..], x)
    else [x] + t
  }

  /** `sorted(s)` for a list of strings. */
  function SortStrings(s: seq<string>): (r: seq<string>)
    ensures |r| == |s|
  {
    if s == [] then [] else InsertAsc(SortStrings(s[..|s| - 1]), s[|s| - 1])
  }

  lemma SortedCons(h: string, s: seq<string>)
    requires SortedAsc(s) && forall i :: 0 <= i < |s| ==> LexLe(h, s[i])
    ensures SortedAsc([h] + s)
  {
    var r := [h] + s;
    forall i, j | 0 <= i < j < |r| ensures LexLe(r[i], r[j]) {
      assert r[j] == s[j - 1];
      if i > 0 {
        assert r[i] == s[i - 1];
      }
    }
  }

  lemma {:induction false} InsertAscPerm(t: seq<string>, x: string)
    ensures multiset(InsertAsc(t, x)) == multiset(t) + multiset{x}
  {
    if t != [] {
      if LexLe(t[0], x) {
        InsertAscPerm(t[1..], x);
        assert InsertAsc(t, x) == [t[0]] + InsertAsc(t[1..], x);
        assert t == [t[0]] + t[1..];
      } else {
        assert InsertAsc(t, x) == [x] + t;
      }
    }
  }

  /** Every element of an insertion is the inserted one or one of `t`. */
  lemma InsertAscFrom(t: seq<string>, x: string, i: nat)
    requires i < |InsertAsc(t, x)|
    ensures InsertAsc(t, x)[i] == x || exists m :: 0 <= m < |t| && t[m] == InsertAsc(t, x)[i]
  {
    var r := InsertAsc(t, x);
    InsertAscPerm(t, x);
    assert r[i] in multiset(r);
    if r[i] != x {
      assert r[i] in multiset(t);
      assert r[i] in t;
    }
  }

  lemma {:induction false} InsertAscSorted(t: seq<string>, x: string)
    requires SortedAsc(t)
    ensures SortedAsc(InsertAsc(t, x))
  {
    var r := InsertAsc(t, x);
    if t == [] {
    } else if LexLe(t[0], x) {
      var rest := InsertAsc(t[1..], x);
      InsertAscSorted(t[1..], x);
      assert r == [t[0]] + rest;
      forall i | 0 <= i < |rest| ensures LexLe(t[0], rest[i]) {
        InsertAscFrom(t[1..], x, i);
        if rest[i] != x {
          var m :| 0 <= m < |t[1..]| && t[1..][m] == rest[i];
          assert t[m + 1] == rest[i];
        }
      }
      SortedCons(t[0], rest);
    } else {
      assert r == [x] + t;
      LexLeTotal(t[0], x);
      forall i | 0 <= i < |t| ensures LexLe(x, t[i]) {
        if i > 0 {
          LexLeTrans(x, t[0], t[i]);
        }
      }
      SortedCons(x, t);
    }
  }

  /** `sorted()` on strings gives an ordered permutation of its input. */
  lemma {:induction false} SortStringsCorrect(s: seq<string>)
    ensures SortedAsc(SortStrings(s))
    ensures multiset(SortStrings(s)) == multiset(s)
  {
    if s != [] {
      SortStringsCorrect(s[..|s| - 1]);
      InsertAscSorted(SortStrings(s[..|s| - 1]), s[|s| - 1]);
      InsertAscPerm(SortStrings(s[..|s| - 1]), s[|s| - 1]);
      assert s == s[..|s| - 1] + [s[|s| - 1]];
    }
  }
}
