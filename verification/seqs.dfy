/** List operations shared by the dashboard's list transforms (`Array.prototype.filter`, `map`, `includes`). */
module Seqs {

  /** `s.filter(p)`: the elements of `s` that satisfy `p`, in their original order. */
  function Filter<T>(s: seq<T>, p: T -> bool): (r: seq<T>)
    ensures |r| <= |s|
    ensures forall i :: 0 <= i < |r| ==> r[i] in s && p(r[i])
    ensures forall i :: 0 <= i < |s| && p(s[i]) ==> s[i] in r
  {
    if s == [] then [] else (if p(s[0]) then [s[0]] else []) + Filter(s[1..], p)
  }

  /** Filtering distributes over concatenation, so filtering never reorders what it keeps. */
  lemma {:induction false} FilterAppend<T>(a: seq<T>, b: seq<T>, p: T -> bool)
    ensures Filter(a + b, p) == Filter(a, p) + Filter(b, p)
  {
    if a == [] {
      assert a + b == b;
    } else {
      assert (a + b)[1..] == a[1..] + b;
      FilterAppend(a[1..], b, p);
    }
  }

  /** A filter that keeps everything is the identity. */
  lemma {:induction false} FilterKeepsAll<T>(s: seq<T>, p: T -> bool)
    requires forall x :: x in s ==> p(x)
    ensures Filter(s, p) == s
  {
    if s != [] {
      FilterKeepsAll(s[1..], p);
    }
  }

  /** `s.filter(x => x !== v)`: every occurrence of `v` removed. */
  function RemoveAll<T(==)>(s: seq<T>, v: T): (r: seq<T>)
    ensures v !in r
    ensures forall i :: 0 <= i < |s| && s[i] != v ==> s[i] in r
    ensures forall i :: 0 <= i < |r| ==> r[i] in s
  {
    Filter(s, x => x != v)
  }

  /** Removing a value keeps a duplicate-free sequence duplicate-free. */
  lemma RemoveAllDistinct<T>(s: seq<T>, v: T)
    requires Distinct(s)
    ensures Distinct(RemoveAll(s, v))
  {
    FilterDistinct(s, x => x != v);
  }

  /** Removing a value that does not occur changes nothing. */
  lemma RemoveAbsent<T>(s: seq<T>, v: T)
    requires v !in s
    ensures RemoveAll(s, v) == s
  {
    FilterKeepsAll(s, x => x != v);
  }

  /** Removing a value from a concatenation removes it from each part. */
  lemma RemoveAllAppend<T>(a: seq<T>, b: seq<T>, v: T)
    ensures RemoveAll(a + b, v) == RemoveAll(a, v) + RemoveAll(b, v)
  {
    FilterAppend(a, b, x => x != v);
  }

  /** No element occurs twice. */
  predicate Distinct<T(==)>(s: seq<T>) {
    forall i, j :: 0 <= i < j < |s| ==> s[i] != s[j]
  }

  /** Filtering keeps a duplicate-free list duplicate-free. */
  lemma {:induction false} FilterDistinct<T>(s: seq<T>, p: T -> bool)
    requires Distinct(s)
    ensures Distinct(Filter(s, p))
  {
    if s != [] {
      assert Distinct(s[1..]) by {
        forall i, j | 0 <= i < j < |s[1..]| ensures s[1..][i] != s[1..][j] {
          assert s[1..][i] == s[i + 1] && s[1..][j] == s[j + 1];
        }
      }
      FilterDistinct(s[1..], p);
      var rest := Filter(s[1..], p);
      assert s[0] !in s[1..];
      assert s[0] !in rest;
      var r := (if p(s[0]) then [s[0]] else []) + rest;
      forall i, j | 0 <= i < j < |r| ensures r[i] != r[j] {
        if p(s[0]) {
          if i == 0 {
            assert r[j] == rest[j - 1];
            assert r[j] in rest;
          } else {
            assert r[i] == rest[i - 1] && r[j] == rest[j - 1];
          }
        } else {
          assert r == rest;
        }
      }
    }
  }

  /** Number of occurrences of `v` in `s`. */
  function Count<T(==)>(s: seq<T>, v: T): nat {
    if s == [] then 0 else (if s[0] == v then 1 else 0) + Count(s[1..], v)
  }

  lemma {:induction false} CountAbsent<T>(s: seq<T>, v: T)
    requires v !in s
    ensures Count(s, v) == 0
  {
    if s != [] {
      CountAbsent(s[1..], v);
    }
  }

  /** Appending one `v` adds exactly one occurrence of it. */
  lemma {:induction false} CountAppend<T>(s: seq<T>, v: T)
    ensures Count(s + [v], v) == Count(s, v) + 1
  {
    if s == [] {
      assert [v][1..] == [];
    } else {
      assert (s + [v])[1..] == s[1..] + [v];
      CountAppend(s[1..], v);
    }
  }

  /** `xs.map(f)`. */
  function Map<T, U>(s: seq<T>, f: T -> U): (r: seq<U>)
    ensures |r| == |s|
    ensures forall i :: 0 <= i < |s| ==> r[i] == f(s[i])
  {
    if s == [] then [] else [f(s[0])] + Map(s[1..], f)
  }
}
