/** The few pieces of Go's `strings` and `sort` packages the engine relies on:
    splitting on a one-character separator, suffix tests, and the byte-wise
    ordering of `sort.Strings`. */
module Strs {

  /** Number of occurrences of `c` in `s`. */
  function Count(s: string, c: char): nat
  {
    if |s| == 0 then 0 else (if s[0] == c then 1 else 0) + Count(s[1..], c)
  }

  lemma {:induction false} CountZero(s: string, c: char)
    ensures Count(s, c) == 0 <==> c !in s
  {
    if |s| > 0 {
      CountZero(s[1..], c);
      assert s == [s[0]] + s[1..];
    }
  }

  /** The text before the first `c` (all of `s` when there is none). */
  function Before(s: string, c: char): (r: string)
    ensures |r| <= |s| && r == s[..|r|]
    ensures c !in r
    ensures |r| < |s| <==> c in s
    ensures |r| < |s| ==> s[|r|] == c
  {
    if |s| == 0 then ""
    else if s[0] == c then ""
    else [s[0]] + Before(s[1..], c)
  }

  /** The text after the first `c` ("" when there is none). */
  function AfterFirst(s: string, c: char): (r: string)
    ensures c in s ==> s == Before(s, c) + [c] + r
  {
    if |s| == 0 then ""
    else if s[0] == c then s[1..]
    else AfterFirst(s[1..], c)
  }

  lemma {:induction false} CountConcat(a: string, b: string, c: char)
    ensures Count(a + b, c) == Count(a, c) + Count(b, c)
  {
    if |a| > 0 {
      CountConcat(a[1..], b, c);
      assert (a + b)[1..] == a[1..] + b;
    } else {
      assert a + b == b;
    }
  }

  /** Cutting `a + [c] + b` at its first `c`, when `a` has none, gives back `a` and `b`. */
  lemma {:induction false} CutAtFirst(a: string, c: char, b: string)
    requires c !in a
    ensures Before(a + [c] + b, c) == a
    ensures AfterFirst(a + [c] + b, c) == b
  {
    var s := a + [c] + b;
    if |a| > 0 {
      assert s[0] == a[0] != c;
      assert s[1..] == a[1..] + [c] + b;
      assert c !in a[1..];
      CutAtFirst(a[1..], c, b);
      assert a == [a[0]] + a[1..];
    } else {
      assert s == [c] + b && s[0] == c && s[1..] == b;
    }
  }

  /** Go's `strings.Split(s, string(sep))`: the pieces between separators,
      always at least one. */
  function Split(s: string, sep: char): (parts: seq<string>)
    ensures |parts| >= 1
  {
    if |s| == 0 then [""]
    else
      var rest := Split(s[1..], sep);
      if s[0] == sep then [""] + rest
      else [[s[0]] + rest[0]] + rest[1..]
  }

  /** The first piece of a split is the text before the first separator; the
      remaining pieces are the split of the text after it. */
  lemma {:induction false} SplitShape(s: string, sep: char)
    ensures Split(s, sep) == [Before(s, sep)] + (if sep in s then Split(AfterFirst(s, sep), sep) else [])
  {
    if |s| > 0 && s[0] != sep {
      SplitShape(s[1..], sep);
      assert sep in s <==> sep in s[1..] by {
        assert s == [s[0]] + s[1..];
      }
    }
  }

  /** A split has one more piece than the separator has occurrences. */
  lemma {:induction false} SplitLength(s: string, sep: char)
    ensures |Split(s, sep)| == Count(s, sep) + 1
  {
    if |s| > 0 {
      SplitLength(s[1..], sep);
    }
  }

  /** A split never leaves a separator inside a piece. */
  lemma {:induction false} SplitPiecesClean(s: string, sep: char)
    ensures forall i :: 0 <= i < |Split(s, sep)| ==> sep !in Split(s, sep)[i]
  {
    if |s| > 0 {
      SplitPiecesClean(s[1..], sep);
      var rest := Split(s[1..], sep);
      if s[0] != sep {
        assert sep !in [s[0]] + rest[0];
      }
    }
  }

  /** `s` ends with `suffix` (Go's `strings.HasSuffix`). */
  predicate HasSuffix(s: string, suffix: string)
  {
    |suffix| <= |s| && s[|s| - |suffix|..] == suffix
  }

  /** The ordering of `sort.Strings`: lexicographic on characters. Go compares
      the UTF-8 bytes, and UTF-8 preserves code-point order, so the two agree. */
  predicate LexLe(a: string, b: string)
    decreases |a|
  {
    |a| == 0 || (|b| > 0 && (a[0] < b[0] || (a[0] == b[0] && LexLe(a[1..], b[1..]))))
  }

  lemma {:induction false} LexLeRefl(a: string)
    ensures LexLe(a, a)
  {
    if |a| > 0 {
      LexLeRefl(a[1..]);
    }
  }

  lemma {:induction false} LexLeTotal(a: string, b: string)
    ensures LexLe(a, b) || LexLe(b, a)
  {
    if |a| > 0 && |b| > 0 && a[0] == b[0] {
      LexLeTotal(a[1..], b[1..]);
    }
  }

  lemma {:induction false} LexLeAntisymmetric(a: string, b: string)
    requires LexLe(a, b) && LexLe(b, a)
    ensures a == b
  {
    if |a| > 0 && |b| > 0 {
      assert a[0] == b[0];
      LexLeAntisymmetric(a[1..], b[1..]);
      assert a == [a[0]] + a[1..] && b == [b[0]] + b[1..];
    }
  }

  lemma {:induction false} LexLeTransitive(a: string, b: string, c: string)
    requires LexLe(a, b) && LexLe(b, c)
    ensures LexLe(a, c)
  {
    if |a| > 0 && |b| > 0 && |c| > 0 && a[0] == b[0] && b[0] == c[0] {
      LexLeTransitive(a[1..], b[1..], c[1..]);
    }
  }

  /** Ascending by `LexLe`. */
  ghost predicate Sorted(s: seq<string>)
  {
    forall i, j :: 0 <= i < j < |s| ==> LexLe(s[i], s[j])
  }

  /** Ascending with no repeats. */
  ghost predicate StrictlySorted(s: seq<string>)
  {
    forall i, j :: 0 <= i < j < |s| ==> LexLe(s[i], s[j]) && s[i] != s[j]
  }

  /** Inserts `x` into a sorted sequence, keeping it sorted. */
  function Insert(x: string, s: seq<string>): (r: seq<string>)
    requires Sorted(s)
    ensures Sorted(r)
    ensures multiset(r) == multiset(s) + multiset{x}
    ensures forall k :: 0 <= k < |r| ==> r[k] == x || r[k] in s
  {
    if |s| == 0 then [x]
    else if LexLe(x, s[0]) then
      forall j | 0 <= j < |s|
        ensures LexLe(x, s[j])
      {
        if j > 0 { LexLeTransitive(x, s[0], s[j]); }
      }
      [x] + s
    else
      LexLeTotal(x, s[0]);
      var tail := Insert(x, s[1..]);
      assert s == [s[0]] + s[1..];
      assert forall k :: 0 <= k < |tail| ==> LexLe(s[0], tail[k]);
      [s[0]] + tail
  }

  /** Go's `sort.Strings`, as a function: an ascending permutation of `s`. */
  function SortStrings(s: seq<string>): (r: seq<string>)
    ensures Sorted(r)
    ensures multiset(r) == multiset(s)
  {
    if |s| == 0 then []
    else
      assert s == [s[0]] + s[1..];
      Insert(s[0], SortStrings(s[1..]))
  }

  /** The last element of a non-empty sorted sequence is its greatest. */
  lemma SortedLastIsMax(r: seq<string>)
    requires Sorted(r) && |r| > 0
    ensures forall i :: 0 <= i < |r| ==> LexLe(r[i], r[|r| - 1])
  {
    LexLeRefl(r[|r| - 1]);
  }

  /** Inserts `x` into a strictly sorted sequence unless it is already there. */
  function InsertUnique(x: string, s: seq<string>): (r: seq<string>)
    requires StrictlySorted(s)
    ensures StrictlySorted(r)
    ensures forall y :: y in r <==> y == x || y in s
  {
    if |s| == 0 then [x]
    else if x == s[0] then s
    else if LexLe(x, s[0]) then
      forall j | 0 <= j < |s|
        ensures LexLe(x, s[j]) && x != s[j]
      {
        if j > 0 {
          LexLeTransitive(x, s[0], s[j]);
          if x == s[j] { LexLeAntisymmetric(x, s[0]); }
        }
      }
      [x] + s
    else
      LexLeTotal(x, s[0]);
      var tail := InsertUnique(x, s[1..]);
      assert s == [s[0]] + s[1..];
      forall k | 0 <= k < |tail|
        ensures LexLe(s[0], tail[k]) && s[0] != tail[k]
      {
        if tail[k] != x {
          assert tail[k] in s[1..];
          var j :| 0 <= j < |s[1..]| && s[1..][j] == tail[k];
          assert s[j + 1] == tail[k];
        }
      }
      [s[0]] + tail
  }

  /** The elements of a finite set, each once, in ascending order. */
  method SortedElements(s: set<string>) returns (r: seq<string>)
    ensures StrictlySorted(r)
    ensures forall x :: x in r <==> x in s
  {
    var rest := s;
    r := [];
    while rest != {}
      invariant rest <= s
      invariant StrictlySorted(r)
      invariant forall x :: x in r <==> x in s && x !in rest
      decreases |rest|
    {
      var x :| x in rest;
      r := InsertUnique(x, r);
      rest := rest - {x};
    }
  }
}
