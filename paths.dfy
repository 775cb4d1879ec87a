/**
 * Filesystem paths and the order Python's `sorted` puts `pathlib.Path`
 * values in. A path is the list of its components below the root (the root
 * itself is the empty list), and `Path` objects compare component by
 * component, each component as a `str`, so `/a/b` sorts before `/a-c` even
 * though the raw string "/a/b" does not sort before "/a-c".
 */
module Paths {

  /** An absolute path: its components below the root, outermost first. */
  type Path = seq<string>

  /** `Path.parent`; the root is its own parent. */
  function Parent(p: Path): (q: Path)
    ensures p == [] ==> q == []
    ensures p != [] ==> |q| == |p| - 1 && p == q + [p[|p| - 1]]
  {
    if |p| == 0 then [] else p[..|p| - 1]
  }

  /** `a / name`. */
  function Child(p: Path, name: string): (q: Path)
    ensures Parent(q) == p
  {
    p + [name]
  }

  // ---- the order on strings ----

  /** `a < b` on Python strings: lexicographic by code point, a proper prefix first. */
  predicate StrLess(a: string, b: string)
  {
    if |a| == 0 then |b| > 0
    else if |b| == 0 then false
    else if a[0] == b[0] then StrLess(a[1..], b[1..])
    else a[0] < b[0]
  }

  lemma {:induction false} StrLessIrreflexive(a: string)
    ensures !StrLess(a, a)
  {
    if |a| > 0 { StrLessIrreflexive(a[1..]); }
  }

  lemma {:induction false} StrLessTransitive(a: string, b: string, c: string)
    requires StrLess(a, b) && StrLess(b, c)
    ensures StrLess(a, c)
  {
    if |a| > 0 && |b| > 0 && |c| > 0 && a[0] == b[0] && b[0] == c[0] {
      StrLessTransitive(a[1..], b[1..], c[1..]);
    }
  }

  lemma {:induction false} StrLessTotal(a: string, b: string)
    ensures a == b || StrLess(a, b) || StrLess(b, a)
  {
    if |a| > 0 && |b| > 0 && a[0] == b[0] {
      StrLessTotal(a[1..], b[1..]);
      if a[1..] == b[1..] {
        assert a == [a[0]] + a[1..] && b == [b[0]] + b[1..];
      }
    }
  }

  lemma {:induction false} StrLessAsymmetric(a: string, b: string)
    requires StrLess(a, b)
    ensures !StrLess(b, a)
  {
    if StrLess(b, a) {
      StrLessTransitive(a, b, a);
      StrLessIrreflexive(a);
    }
  }

  // ---- the order on paths ----

  /** `p < q` on `pathlib.Path`: lexicographic over the components. */
  predicate PathLess(p: Path, q: Path)
  {
    if |p| == 0 then |q| > 0
    else if |q| == 0 then false
    else if p[0] == q[0] then PathLess(p[1..], q[1..])
    else StrLess(p[0], q[0])
  }

  lemma {:induction false} PathLessIrreflexive(p: Path)
    ensures !PathLess(p, p)
  {
    if |p| > 0 { PathLessIrreflexive(p[1..]); }
  }

  lemma {:induction false} PathLessTransitive(p: Path, q: Path, r: Path)
    requires PathLess(p, q) && PathLess(q, r)
    ensures PathLess(p, r)
  {
    if |p| > 0 && |q| > 0 && |r| > 0 {
      if p[0] == q[0] && q[0] == r[0] {
        PathLessTransitive(p[1..], q[1..], r[1..]);
      } else if p[0] != q[0] && q[0] != r[0] {
        StrLessTransitive(p[0], q[0], r[0]);
        if p[0] == r[0] { StrLessAsymmetric(p[0], q[0]); }
      }
    }
  }

  lemma {:induction false} PathLessTotal(p: Path, q: Path)
    ensures p == q || PathLess(p, q) || PathLess(q, p)
  {
    if |p| > 0 && |q| > 0 {
      if p[0] == q[0] {
        PathLessTotal(p[1..], q[1..]);
        if p[1..] == q[1..] {
          assert p == [p[0]] + p[1..] && q == [q[0]] + q[1..];
        }
      } else {
        StrLessTotal(p[0], q[0]);
      }
    }
  }

  lemma PathLessAsymmetric(p: Path, q: Path)
    requires PathLess(p, q)
    ensures !PathLess(q, p) && p != q
  {
    if PathLess(q, p) {
      PathLessTransitive(p, q, p);
    }
    PathLessIrreflexive(p);
  }

  /** Paths below a common directory compare as their remainders do. */
  lemma {:induction false} PathLessCommonPrefix(base: Path, p: Path, q: Path)
    ensures PathLess(base + p, base + q) == PathLess(p, q)
  {
    if |base| > 0 {
      assert (base + p)[1..] == base[1..] + p;
      assert (base + q)[1..] == base[1..] + q;
      PathLessCommonPrefix(base[1..], p, q);
    } else {
      assert base + p == p && base + q == q;
    }
  }

  // ---- sorted, duplicate-free lists of paths ----

  /** Every path is before every later one, so no path occurs twice. */
  ghost predicate StrictlyIncreasing(r: seq<Path>)
  {
    forall i, j :: 0 <= i < j < |r| ==> PathLess(r[i], r[j])
  }

  function Elems(r: seq<Path>): set<Path>
  {
    set p | p in r
  }

  lemma IncreasingHasNoDuplicates(r: seq<Path>)
    requires StrictlyIncreasing(r)
    ensures forall i, j :: 0 <= i < j < |r| ==> r[i] != r[j]
    ensures |Elems(r)| == |r|
  {
    forall i, j | 0 <= i < j < |r| ensures r[i] != r[j] {
      PathLessAsymmetric(r[i], r[j]);
    }
    DistinctCard(r);
  }

  lemma {:induction false} DistinctCard(r: seq<Path>)
    requires forall i, j :: 0 <= i < j < |r| ==> r[i] != r[j]
    ensures |Elems(r)| == |r|
  {
    if |r| > 0 {
      var init := r[..|r| - 1];
      DistinctCard(init);
      assert Elems(r) == Elems(init) + {r[|r| - 1]};
      assert r[|r| - 1] !in Elems(init);
    }
  }

  /** `p` is the least element of `s`. */
  ghost predicate IsLeast(p: Path, s: set<Path>)
  {
    p in s && forall q :: q in s && q != p ==> PathLess(p, q)
  }

  lemma {:induction false} LeastExists(s: set<Path>)
    requires s != {}
    ensures exists p :: IsLeast(p, s)
    decreases |s|
  {
    var x :| x in s;
    if s == {x} {
      assert IsLeast(x, s);
    } else {
      var rest := s - {x};
      LeastExists(rest);
      var m :| IsLeast(m, rest);
      PathLessTotal(x, m);
      if PathLess(x, m) {
        forall q | q in s && q != x ensures PathLess(x, q) {
          if q != m { PathLessTransitive(x, m, q); }
        }
        assert IsLeast(x, s);
      } else {
        assert IsLeast(m, s);
      }
    }
  }

  /** The ascending list of the paths of `s`: what `sorted(s)` returns. */
  ghost function SortedPaths(s: set<Path>): (r: seq<Path>)
    ensures StrictlyIncreasing(r) && Elems(r) == s
    decreases |s|
  {
    if s == {} then []
    else
      LeastExists(s);
      var m :| IsLeast(m, s);
      var rest := SortedPaths(s - {m});
      PrependLeast(m, s, rest);
      [m] + rest
  }

  lemma PrependLeast(m: Path, s: set<Path>, rest: seq<Path>)
    requires IsLeast(m, s)
    requires StrictlyIncreasing(rest) && Elems(rest) == s - {m}
    ensures StrictlyIncreasing([m] + rest) && Elems([m] + rest) == s
  {
    var t := [m] + rest;
    forall i, j | 0 <= i < j < |t| ensures PathLess(t[i], t[j]) {
      if i == 0 {
        assert t[j] == rest[j - 1] && t[j] in Elems(rest);
      } else {
        assert t[i] == rest[i - 1] && t[j] == rest[j - 1];
      }
    }
    assert Elems(t) == {m} + Elems(rest) by {
      forall p ensures p in t <==> p == m || p in rest {
        if p in rest {
          var k :| 0 <= k < |rest| && rest[k] == p;
          assert t[k + 1] == p;
        }
      }
    }
  }

  /** A strictly increasing list is determined by its elements. */
  lemma {:induction false} IncreasingUnique(r1: seq<Path>, r2: seq<Path>)
    requires StrictlyIncreasing(r1) && StrictlyIncreasing(r2)
    requires Elems(r1) == Elems(r2)
    ensures r1 == r2
    decreases |r1|
  {
    IncreasingHasNoDuplicates(r1);
    IncreasingHasNoDuplicates(r2);
    if |r1| > 0 {
      assert r1[0] in Elems(r2);
      assert r2[0] in Elems(r1);
      if r1[0] != r2[0] {
        var i :| 0 <= i < |r2| && r2[i] == r1[0];
        var j :| 0 <= j < |r1| && r1[j] == r2[0];
        assert PathLess(r2[0], r1[0]) && PathLess(r1[0], r2[0]);
        PathLessAsymmetric(r2[0], r1[0]);
      }
      assert Elems(r1[1..]) == Elems(r1) - {r1[0]} by {
        assert r1 == [r1[0]] + r1[1..];
      }
      assert Elems(r2[1..]) == Elems(r2) - {r2[0]} by {
        assert r2 == [r2[0]] + r2[1..];
      }
      IncreasingUnique(r1[1..], r2[1..]);
      assert r1 == [r1[0]] + r1[1..] && r2 == [r2[0]] + r2[1..];
    }
  }

  /** Inserting `x` at a position `k` that separates smaller from larger keeps the list increasing. */
  lemma InsertKeepsIncreasing(r: seq<Path>, k: nat, x: Path)
    requires StrictlyIncreasing(r) && k <= |r|
    requires forall j :: 0 <= j < k ==> PathLess(r[j], x)
    requires forall j :: k <= j < |r| ==> PathLess(x, r[j])
    ensures StrictlyIncreasing(r[..k] + [x] + r[k..])
  {
    var t := r[..k] + [x] + r[k..];
    forall i, j | 0 <= i < j < |t| ensures PathLess(t[i], t[j]) {
      if j < k {
        assert t[i] == r[i] && t[j] == r[j];
      } else if j == k {
        assert t[i] == r[i] && t[j] == x;
      } else if i < k {
        assert t[i] == r[i] && t[j] == r[j - 1];
      } else if i == k {
        assert t[i] == x && t[j] == r[j - 1];
      } else {
        assert t[i] == r[i - 1] && t[j] == r[j - 1];
      }
    }
  }

  /** The position of a new path `x` in an increasing list: after every smaller path, before every larger one. */
  method InsertionPoint(r: seq<Path>, x: Path) returns (k: nat)
    requires StrictlyIncreasing(r) && x !in Elems(r)
    ensures k <= |r|
    ensures forall j :: 0 <= j < k ==> PathLess(r[j], x)
    ensures forall j :: k <= j < |r| ==> PathLess(x, r[j])
  {
    k := 0;
    while k < |r| && PathLess(r[k], x)
      invariant 0 <= k <= |r|
      invariant forall j :: 0 <= j < k ==> PathLess(r[j], x)
    {
      k := k + 1;
    }
    if k < |r| {
      assert r[k] in Elems(r);
      PathLessTotal(r[k], x);
      forall j | k < j < |r| ensures PathLess(x, r[j]) {
        PathLessTransitive(x, r[k], r[j]);
      }
    }
  }

  /** `sorted(list(s))`: an insertion sort over the elements of `s`. */
  method SortPaths(s: set<Path>) returns (r: seq<Path>)
    ensures r == SortedPaths(s)
    ensures StrictlyIncreasing(r) && Elems(r) == s && |r| == |s|
  {
    r := [];
    var rest := s;
    while rest != {}
      invariant StrictlyIncreasing(r)
      invariant Elems(r) + rest == s && Elems(r) !! rest
      decreases |rest|
    {
      var x :| x in rest;
      assert x !in Elems(r);
      var k := InsertionPoint(r, x);
      InsertKeepsIncreasing(r, k, x);
      assert Elems(r[..k] + [x] + r[k..]) == Elems(r) + {x} by {
        assert r == r[..k] + r[k..];
      }
      r := r[..k] + [x] + r[k..];
      rest := rest - {x};
    }
    IncreasingUnique(r, SortedPaths(s));
    IncreasingHasNoDuplicates(r);
  }
}
