/**
Orders, sorting and permutations, as the schema canonicaliser needs them:
strings compare by code point (Rust's `str` order compares UTF-8 bytes, which
is the same order), and `sort_by` is a stable sort.
*/
module Ordering {

  /** Strict lexicographic order by code point. */
  predicate LexLess(a: string, b: string)
  {
    b != [] && (a == [] || a[0] < b[0] || (a[0] == b[0] && LexLess(a[1..], b[1..])))
  }

  lemma {:induction false} LexTotal(a: string, b: string)
    ensures a == b || LexLess(a, b) || LexLess(b, a)
  {
    if a != [] && b != [] && a[0] == b[0] {
      LexTotal(a[1..], b[1..]);
      if a[1..] == b[1..] {
        assert a == [a[0]] + a[1..];
        assert b == [b[0]] + b[1..];
      }
    }
  }

  lemma {:induction false} LexAsymmetric(a: string, b: string)
    requires LexLess(a, b)
    ensures a != b && !LexLess(b, a)
  {
    if a != [] && a[0] == b[0] {
      LexAsymmetric(a[1..], b[1..]);
    }
  }

  lemma {:induction false} LexTransitive(a: string, b: string, c: string)
    requires LexLess(a, b) && LexLess(b, c)
    ensures LexLess(a, c)
  {
    if a != [] && a[0] == b[0] == c[0] {
      LexTransitive(a[1..], b[1..], c[1..]);
    }
  }

  // ----- Sorting -----

  ghost predicate TotalPreorder<T(!new)>(le: (T, T) -> bool)
  {
    && (forall x, y :: le(x, y) || le(y, x))
    && (forall x, y, z :: le(x, y) && le(y, z) ==> le(x, z))
  }

  ghost predicate SortedBy<T>(s: seq<T>, le: (T, T) -> bool)
  {
    forall i, j :: 0 <= i < j < |s| ==> le(s[i], s[j])
  }

  function Insert<T>(x: T, s: seq<T>, le: (T, T) -> bool): seq<T>
  {
    if s == [] || le(x, s[0]) then [x] + s else [s[0]] + Insert(x, s[1..], le)
  }

  /** A stable sort: equal elements keep their order. */
  function Sort<T>(s: seq<T>, le: (T, T) -> bool): seq<T>
  {
    if s == [] then [] else Insert(s[0], Sort(s[1..], le), le)
  }

  lemma {:induction false} InsertPermutes<T>(x: T, s: seq<T>, le: (T, T) -> bool)
    ensures multiset(Insert(x, s, le)) == multiset([x] + s)
  {
    if s != [] && !le(x, s[0]) {
      InsertPermutes(x, s[1..], le);
      assert s == [s[0]] + s[1..];
    }
  }

  lemma {:induction false} InsertSorts<T(!new)>(x: T, s: seq<T>, le: (T, T) -> bool)
    requires TotalPreorder(le) && SortedBy(s, le)
    ensures SortedBy(Insert(x, s, le), le)
  {
    if s != [] && !le(x, s[0]) {
      InsertSorts(x, s[1..], le);
      InsertPermutes(x, s[1..], le);
      var t := Insert(x, s[1..], le);
      forall j | 0 <= j < |t| ensures le(s[0], t[j]) {
        assert t[j] in multiset(t);
        assert t[j] in multiset([x] + s[1..]);
      }
    }
  }

  lemma {:induction false} SortPermutes<T>(s: seq<T>, le: (T, T) -> bool)
    ensures multiset(Sort(s, le)) == multiset(s)
    ensures |Sort(s, le)| == |s|
    ensures forall x :: x in Sort(s, le) <==> x in s
  {
    if s != [] {
      SortPermutes(s[1..], le);
      InsertPermutes(s[0], Sort(s[1..], le), le);
      assert s == [s[0]] + s[1..];
    }
    assert |multiset(Sort(s, le))| == |multiset(s)|;
    forall x ensures x in Sort(s, le) <==> x in s {
      assert x in multiset(Sort(s, le)) <==> x in multiset(s);
    }
  }

  lemma {:induction false} SortSorts<T(!new)>(s: seq<T>, le: (T, T) -> bool)
    requires TotalPreorder(le)
    ensures SortedBy(Sort(s, le), le)
  {
    if s != [] {
      SortSorts(s[1..], le);
      InsertSorts(s[0], Sort(s[1..], le), le);
    }
  }

  ghost predicate TiesAreEqual<T>(s: seq<T>, le: (T, T) -> bool)
  {
    forall x, y :: x in s && y in s && le(x, y) && le(y, x) ==> x == y
  }

  lemma SameHead<T>(a: seq<T>, b: seq<T>, le: (T, T) -> bool)
    requires SortedBy(a, le) && SortedBy(b, le) && TiesAreEqual(a, le)
    requires multiset(a) == multiset(b) && a != [] && b != []
    ensures a[0] == b[0]
  {
    assert a[0] in multiset(b) && b[0] in multiset(a);
    var i :| 0 <= i < |a| && a[i] == b[0];
    var j :| 0 <= j < |b| && b[j] == a[0];
    if i != 0 && j != 0 {
      assert le(a[0], a[i]) && le(b[0], b[j]);
    }
  }

  lemma TailMultiset<T>(a: seq<T>, b: seq<T>)
    requires a != [] && b != [] && a[0] == b[0] && multiset(a) == multiset(b)
    ensures multiset(a[1..]) == multiset(b[1..])
  {
    assert a == [a[0]] + a[1..] && b == [b[0]] + b[1..];
    assert multiset(a[1..]) == multiset(a) - multiset{a[0]};
    assert multiset(b[1..]) == multiset(b) - multiset{b[0]};
  }

  /** Two sorted arrangements of the same elements agree when ties are equal. */
  lemma {:induction false} SortedUnique<T>(a: seq<T>, b: seq<T>, le: (T, T) -> bool)
    requires SortedBy(a, le) && SortedBy(b, le) && TiesAreEqual(a, le)
    requires multiset(a) == multiset(b)
    ensures a == b
  {
    assert |multiset(a)| == |multiset(b)|;
    if a != [] {
      SameHead(a, b, le);
      TailMultiset(a, b);
      assert TiesAreEqual(a[1..], le);
      SortedUnique(a[1..], b[1..], le);
      assert a == [a[0]] + a[1..] && b == [b[0]] + b[1..];
    }
  }

  // ----- Permutations -----

  /** `p` lists every index below `n` exactly once. */
  ghost predicate IsPermutation(p: seq<nat>, n: nat)
  {
    && |p| == n
    && (forall i :: 0 <= i < n ==> p[i] < n)
    && (forall i, j :: 0 <= i < j < n ==> p[i] != p[j])
  }

  function RemoveAt<T>(s: seq<T>, k: nat): seq<T>
    requires k < |s|
  {
    s[..k] + s[k + 1..]
  }

  lemma RemoveAtMultiset<T>(s: seq<T>, k: nat)
    requires k < |s|
    ensures multiset(s) == multiset{s[k]} + multiset(RemoveAt(s, k))
  {
    assert s == s[..k] + [s[k]] + s[k + 1..];
  }

  /** Re-indexes a permutation of the sequence without slot `j` into one with it, first. */
  function Widen(q: seq<nat>, j: nat): (p: seq<nat>)
    ensures |p| == |q| + 1 && p[0] == j
    ensures forall i :: 0 <= i < |q| ==> p[i + 1] == if q[i] < j then q[i] else q[i] + 1
  {
    [j] + seq(|q|, i requires 0 <= i < |q| => if q[i] < j then q[i] else q[i] + 1)
  }

  lemma WidenPermutes(q: seq<nat>, j: nat, n: nat)
    requires IsPermutation(q, n) && j <= n
    ensures IsPermutation(Widen(q, j), n + 1)
  {
    var p := Widen(q, j);
    forall i, k | 0 <= i < k < n + 1 ensures p[i] != p[k] {
      assert p[k] == p[(k - 1) + 1];
      if i > 0 {
        assert p[i] == p[(i - 1) + 1];
        assert q[i - 1] != q[k - 1];
      }
    }
    forall i | 0 <= i < n + 1 ensures p[i] < n + 1 {
      if i > 0 { assert p[i] == p[(i - 1) + 1]; }
    }
  }

  /** `p` carries each element of `a` to an equal element of `b`. */
  ghost predicate Matches<T>(a: seq<T>, b: seq<T>, p: seq<nat>)
  {
    |a| == |b| && IsPermutation(p, |a|) && forall i :: 0 <= i < |a| ==> a[i] == b[p[i]]
  }

  lemma FindMatch<T>(a: seq<T>, b: seq<T>) returns (j: nat)
    requires a != [] && multiset(a) == multiset(b)
    ensures j < |b| && b[j] == a[0] && multiset(a[1..]) == multiset(RemoveAt(b, j))
  {
    assert a[0] in multiset(b);
    j :| j < |b| && b[j] == a[0];
    RemoveAtMultiset(b, j);
    var c := [b[j]] + RemoveAt(b, j);
    TailMultiset(a, c);
    assert c[1..] == RemoveAt(b, j);
  }

  lemma WidenMatches<T>(a: seq<T>, b: seq<T>, j: nat, q: seq<nat>)
    requires a != [] && j < |b| && b[j] == a[0] && Matches(a[1..], RemoveAt(b, j), q)
    ensures Matches(a, b, Widen(q, j))
  {
    var p := Widen(q, j);
    WidenPermutes(q, j, |q|);
    forall i | 0 <= i < |a| ensures a[i] == b[p[i]] {
      if i > 0 {
        assert a[1..][i - 1] == RemoveAt(b, j)[q[i - 1]];
        assert p[i] == p[(i - 1) + 1];
      }
    }
  }

  lemma {:induction false} PermutationOfMultiset<T>(a: seq<T>, b: seq<T>) returns (p: seq<nat>)
    requires multiset(a) == multiset(b)
    ensures Matches(a, b, p)
  {
    if a == [] {
      p := [];
      assert |multiset(b)| == 0;
    } else {
      var j := FindMatch(a, b);
      var q := PermutationOfMultiset(a[1..], RemoveAt(b, j));
      WidenMatches(a, b, j, q);
      p := Widen(q, j);
    }
  }

  /** The inverse of `Widen`: drops the first slot and closes the gap it leaves. */
  function Narrow(p: seq<nat>): (q: seq<nat>)
    requires p != [] && forall i :: 0 < i < |p| ==> p[i] != p[0]
    ensures |q| == |p| - 1
    ensures forall i :: 0 <= i < |q| ==> q[i] == if p[i + 1] < p[0] then p[i + 1] else p[i + 1] - 1
  {
    seq(|p| - 1, i requires 0 <= i < |p| - 1 => if p[i + 1] < p[0] then p[i + 1] else p[i + 1] - 1)
  }

  lemma NarrowMatches<T>(a: seq<T>, b: seq<T>, p: seq<nat>)
    requires a != [] && Matches(a, b, p)
    ensures Matches(a[1..], RemoveAt(b, p[0]), Narrow(p))
  {
  }

  lemma {:induction false} MultisetOfPermutation<T>(a: seq<T>, b: seq<T>, p: seq<nat>)
    requires Matches(a, b, p)
    ensures multiset(a) == multiset(b)
  {
    if a != [] {
      NarrowMatches(a, b, p);
      MultisetOfPermutation(a[1..], RemoveAt(b, p[0]), Narrow(p));
      RemoveAtMultiset(b, p[0]);
      assert a == [a[0]] + a[1..];
    }
  }
}
