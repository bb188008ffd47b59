/**
 * Python's `list.sort(key=..., reverse=True)` and `sorted(..., reverse=True)`
 * for keys that are tuples of numbers: a stable sort into descending key
 * order. Elements whose keys are equal keep their original relative order
 * (Python's sort stays stable under `reverse=True`). Keys are sequences of
 * reals compared lexicographically, as Python compares tuples.
 */
module StableSort {

  /** Python's `a < b` on tuples of numbers. */
  predicate LexLess(a: seq<real>, b: seq<real>)
  {
    if a == [] then b != []
    else if b == [] then false
    else if a[0] != b[0] then a[0] < b[0]
    else LexLess(a[1..], b[1..])
  }

  lemma {:induction false} LexLessIrreflexive(a: seq<real>)
    ensures !LexLess(a, a)
  {
    if a != [] { LexLessIrreflexive(a[1..]); }
  }

  lemma {:induction false} LexLessTransitive(a: seq<real>, b: seq<real>, c: seq<real>)
    requires LexLess(a, b) && LexLess(b, c)
    ensures LexLess(a, c)
  {
    if a != [] && b != [] && c != [] && a[0] == b[0] && b[0] == c[0] {
      LexLessTransitive(a[1..], b[1..], c[1..]);
    }
  }

  lemma {:induction false} LexLessTotal(a: seq<real>, b: seq<real>)
    requires a != b
    ensures LexLess(a, b) || LexLess(b, a)
  {
    if a != [] && b != [] && a[0] == b[0] {
      assert a == [a[0]] + a[1..] && b == [b[0]] + b[1..];
      LexLessTotal(a[1..], b[1..]);
    }
  }

  /** `a >= b` on key tuples. */
  predicate LexAtLeast(a: seq<real>, b: seq<real>) { !LexLess(a, b) }

  lemma {:induction false} LexLessAsymmetric(a: seq<real>, b: seq<real>)
    requires LexLess(a, b)
    ensures LexAtLeast(b, a)
  {
    if a != [] && b != [] && a[0] == b[0] {
      LexLessAsymmetric(a[1..], b[1..]);
    }
  }

  lemma LexAtLeastTransitive(a: seq<real>, b: seq<real>, c: seq<real>)
    requires LexAtLeast(a, b) && LexAtLeast(b, c)
    ensures LexAtLeast(a, c)
  {
    if LexLess(a, c) {
      if a == b {
      } else if b == c {
      } else {
        LexLessTotal(a, b);
        LexLessTotal(b, c);
        LexLessTransitive(b, a, c);
      }
    }
  }

  /** `a <= b < c` gives `a < c`. */
  lemma LexLessAfterAtMost(a: seq<real>, b: seq<real>, c: seq<real>)
    requires LexAtLeast(b, a) && LexLess(b, c)
    ensures LexLess(a, c)
  {
    if a != b {
      LexLessTotal(a, b);
      LexLessTransitive(a, b, c);
    }
  }

  /** Non-increasing by key. */
  ghost predicate SortedDesc<T>(s: seq<T>, key: T -> seq<real>)
  {
    forall i, j :: 0 <= i < j < |s| ==> LexAtLeast(key(s[i]), key(s[j]))
  }

  /** Puts `x` after every element whose key is at least its own: the step a
      stable sort takes for an element that comes later in the input. */
  function InsertDesc<T>(s: seq<T>, x: T, key: T -> seq<real>): (r: seq<T>)
    ensures |r| == |s| + 1
  {
    if s == [] then [x]
    else if LexLess(key(s[0]), key(x)) then [x] + s
    else [s[0]] + InsertDesc(s[1..], x, key)
  }

  lemma {:induction false} InsertDescPermutes<T>(s: seq<T>, x: T, key: T -> seq<real>)
    ensures multiset(InsertDesc(s, x, key)) == multiset(s) + multiset{x}
  {
    if s != [] && !LexLess(key(s[0]), key(x)) {
      InsertDescPermutes(s[1..], x, key);
      assert s == [s[0]] + s[1..];
    }
  }

  /** The result of the stable descending sort. */
  function SortDesc<T>(xs: seq<T>, key: T -> seq<real>): (r: seq<T>)
    ensures |r| == |xs|
  {
    if xs == [] then [] else InsertDesc(SortDesc(xs[..|xs| - 1], key), xs[|xs| - 1], key)
  }

  /** The elements of `s` whose key equals `k`, in order. */
  function WithKey<T>(s: seq<T>, key: T -> seq<real>, k: seq<real>): seq<T>
  {
    if s == [] then [] else (if key(s[0]) == k then [s[0]] else []) + WithKey(s[1..], key, k)
  }

  lemma {:induction false} WithKeyAppend<T>(a: seq<T>, b: seq<T>, key: T -> seq<real>, k: seq<real>)
    ensures WithKey(a + b, key, k) == WithKey(a, key, k) + WithKey(b, key, k)
  {
    if a == [] {
      assert a + b == b;
    } else {
      var c := a + b;
      var head := if key(a[0]) == k then [a[0]] else [];
      assert c[0] == a[0] && c[1..] == a[1..] + b;
      assert WithKey(c, key, k) == head + WithKey(a[1..] + b, key, k);
      WithKeyAppend(a[1..], b, key, k);
      assert WithKey(a, key, k) == head + WithKey(a[1..], key, k);
    }
  }

  lemma {:induction false} InsertDescSorted<T>(s: seq<T>, x: T, key: T -> seq<real>)
    requires SortedDesc(s, key)
    ensures SortedDesc(InsertDesc(s, x, key), key)
    ensures forall i :: 0 <= i < |InsertDesc(s, x, key)| ==> InsertDesc(s, x, key)[i] == x || InsertDesc(s, x, key)[i] in s
  {
    if s != [] && !LexLess(key(s[0]), key(x)) {
      InsertDescSorted(s[1..], x, key);
      var t := InsertDesc(s[1..], x, key);
      forall j | 0 <= j < |t| ensures LexAtLeast(key(s[0]), key(t[j])) {
        if t[j] != x {
          var k :| 0 <= k < |s[1..]| && s[1..][k] == t[j];
          assert s[k + 1] == t[j];
        }
      }
    } else if s != [] {
      LexLessAsymmetric(key(s[0]), key(x));
      forall j | 0 <= j < |s| ensures LexAtLeast(key(x), key(s[j])) {
        if j > 0 {
          LexAtLeastTransitive(key(x), key(s[0]), key(s[j]));
        }
      }
    }
  }

  /** In a sorted sequence whose head ranks below `x`, everything does. */
  lemma AllBelow<T>(s: seq<T>, x: T, key: T -> seq<real>)
    requires SortedDesc(s, key) && s != [] && LexLess(key(s[0]), key(x))
    ensures forall j :: 0 <= j < |s| ==> LexLess(key(s[j]), key(x))
  {
    forall j | 0 < j < |s| ensures LexLess(key(s[j]), key(x)) {
      LexLessAfterAtMost(key(s[j]), key(s[0]), key(x));
    }
  }

  lemma {:induction false} InsertDescStable<T>(s: seq<T>, x: T, key: T -> seq<real>, k: seq<real>)
    requires SortedDesc(s, key)
    ensures WithKey(InsertDesc(s, x, key), key, k) == WithKey(s, key, k) + WithKey([x], key, k)
  {
    if s == [] {
    } else if LexLess(key(s[0]), key(x)) {
      InsertDescStableFront(s, x, key, k);
    } else {
      var rest := InsertDesc(s[1..], x, key);
      var head := if key(s[0]) == k then [s[0]] else [];
      SortedDescTail(s, key);
      InsertDescStable(s[1..], x, key, k);
      var r := [s[0]] + rest;
      assert r[0] == s[0] && r[1..] == rest;
      assert WithKey(r, key, k) == head + WithKey(rest, key, k);
      assert WithKey(s, key, k) == head + WithKey(s[1..], key, k);
    }
  }

  /** When `x` goes in front, no element of `s` shares its key. */
  lemma InsertDescStableFront<T>(s: seq<T>, x: T, key: T -> seq<real>, k: seq<real>)
    requires SortedDesc(s, key) && s != [] && LexLess(key(s[0]), key(x))
    ensures WithKey([x] + s, key, k) == WithKey(s, key, k) + WithKey([x], key, k)
  {
    if key(x) == k {
      AllBelow(s, x, key);
      LexLessIrreflexive(k);
      WithKeyNone(s, key, k);
    }
    WithKeyAppend([x], s, key, k);
  }

  lemma SortedDescTail<T>(s: seq<T>, key: T -> seq<real>)
    requires SortedDesc(s, key) && s != []
    ensures SortedDesc(s[1..], key)
  {
    forall i, j | 0 <= i < j < |s| - 1 ensures LexAtLeast(key(s[1..][i]), key(s[1..][j])) {
      assert s[1..][i] == s[i + 1] && s[1..][j] == s[j + 1];
    }
  }

  lemma {:induction false} WithKeyNone<T>(s: seq<T>, key: T -> seq<real>, k: seq<real>)
    requires forall j :: 0 <= j < |s| ==> key(s[j]) != k
    ensures WithKey(s, key, k) == []
  {
    if s != [] {
      WithKeyNone(s[1..], key, k);
    }
  }

  /** The sort orders by key, loses and gains nothing, and keeps equal keys in input order. */
  lemma {:induction false} SortDescCorrect<T>(xs: seq<T>, key: T -> seq<real>)
    ensures SortedDesc(SortDesc(xs, key), key)
    ensures multiset(SortDesc(xs, key)) == multiset(xs)
    ensures forall k :: WithKey(SortDesc(xs, key), key, k) == WithKey(xs, key, k)
  {
    if xs != [] {
      var init, last := xs[..|xs| - 1], xs[|xs| - 1];
      SortDescCorrect(init, key);
      InsertDescSorted(SortDesc(init, key), last, key);
      InsertDescPermutes(SortDesc(init, key), last, key);
      assert xs == init + [last];
      forall k ensures WithKey(SortDesc(xs, key), key, k) == WithKey(xs, key, k) {
        InsertDescStable(SortDesc(init, key), last, key, k);
        WithKeyAppend(init, [last], key, k);
      }
    }
  }

  /** The scan passes an element whose key is at least that of `x`. */
  lemma InsertDescSkip<T>(s: seq<T>, i: nat, x: T, key: T -> seq<real>)
    requires i < |s| && !LexLess(key(s[i]), key(x))
    ensures InsertDesc(s[i..], x, key) == [s[i]] + InsertDesc(s[i + 1..], x, key)
  {
    var t := s[i..];
    assert t[0] == s[i] && t[1..] == s[i + 1..];
  }

  /** Inserting by a scan for the first element whose key is smaller. */
  method Insert<T>(s: seq<T>, x: T, key: T -> seq<real>) returns (r: seq<T>)
    ensures r == InsertDesc(s, x, key)
  {
    var i := 0;
    while i < |s| && !LexLess(key(s[i]), key(x))
      invariant 0 <= i <= |s|
      invariant InsertDesc(s, x, key) == s[..i] + InsertDesc(s[i..], x, key)
    {
      InsertDescSkip(s, i, x, key);
      assert s[..i + 1] == s[..i] + [s[i]];
      i := i + 1;
    }
    if i < |s| {
      assert s[i..][0] == s[i];
      assert InsertDesc(s[i..], x, key) == [x] + s[i..];
    } else {
      assert s[i..] == [];
    }
    r := s[..i] + [x] + s[i..];
  }

  /** `xs.sort(key=key, reverse=True)` / `sorted(xs, key=key, reverse=True)`. */
  method SortDescending<T>(xs: seq<T>, key: T -> seq<real>) returns (r: seq<T>)
    ensures r == SortDesc(xs, key)
    ensures SortedDesc(r, key)
    ensures multiset(r) == multiset(xs)
  {
    r := [];
    for i := 0 to |xs|
      invariant r == SortDesc(xs[..i], key)
    {
      assert xs[..i + 1][..i] == xs[..i];
      r := Insert(r, xs[i], key);
    }
    assert xs[..|xs|] == xs;
    SortDescCorrect(xs, key);
  }

  /** The first `k` elements of a sorted sequence rank at least as high as every element left out. */
  lemma SortedPrefixDominates<T>(s: seq<T>, k: nat, key: T -> seq<real>)
    requires SortedDesc(s, key) && k <= |s|
    ensures multiset(s[..k]) <= multiset(s)
    ensures forall i, x :: 0 <= i < k && x in multiset(s) - multiset(s[..k]) ==> LexAtLeast(key(s[i]), key(x))
  {
    assert s == s[..k] + s[k..];
    assert multiset(s) == multiset(s[..k]) + multiset(s[k..]);
    forall i, x | 0 <= i < k && x in multiset(s) - multiset(s[..k])
      ensures LexAtLeast(key(s[i]), key(x))
    {
      assert x in multiset(s[k..]);
      var j :| 0 <= j < |s[k..]| && s[k..][j] == x;
      assert s[k + j] == x;
    }
  }

  /** A permutation of a sequence without repeated elements has none either. */
  lemma {:induction false} PermutationKeepsDistinct<T>(a: seq<T>, b: seq<T>)
    requires multiset(a) == multiset(b)
    requires forall i, j :: 0 <= i < j < |a| ==> a[i] != a[j]
    ensures forall i, j :: 0 <= i < j < |b| ==> b[i] != b[j]
  {
    DistinctOnce(a);
    forall i, j | 0 <= i < j < |b| ensures b[i] != b[j] {
      OccursTwice(b, i, j);
    }
  }

  lemma {:induction false} DistinctOnce<T>(a: seq<T>)
    requires forall i, j :: 0 <= i < j < |a| ==> a[i] != a[j]
    ensures forall x :: multiset(a)[x] <= 1
  {
    if a != [] {
      var init := a[..|a| - 1];
      DistinctOnce(init);
      assert a == init + [a[|a| - 1]];
      assert a[|a| - 1] !in init by {
        forall k | 0 <= k < |init| ensures init[k] != a[|a| - 1] { assert init[k] == a[k]; }
      }
    }
  }

  lemma OccursTwice<T>(b: seq<T>, i: nat, j: nat)
    requires i < j < |b|
    ensures multiset(b)[b[i]] >= 1 + (if b[j] == b[i] then 1 else 0)
  {
    assert b == b[..j] + [b[j]] + b[j + 1..];
    assert b[..j][i] == b[i];
  }
}
