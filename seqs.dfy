/** The array built-ins the front end leans on: `filter`, `slice(0, n)`
    and `Array.from(new Set(...))`, with the facts the pages rely on. */
module Seqs {

  /** `s.filter(f)`: the elements that pass, in their original order. */
  function Filter<T>(f: T -> bool, s: seq<T>): (r: seq<T>)
    ensures |r| <= |s|
    ensures forall i :: 0 <= i < |r| ==> r[i] in s && f(r[i])
    ensures forall i :: 0 <= i < |s| && f(s[i]) ==> s[i] in r
  {
    if s == [] then []
    else (if f(s[0]) then [s[0]] else []) + Filter(f, s[1..])
  }

  /** What a filter keeps comes from the list and passes the test. */
  lemma FilterMember<T>(f: T -> bool, s: seq<T>, x: T)
    requires x in Filter(f, s)
    ensures x in s && f(x)
  {
    var i :| 0 <= i < |Filter(f, s)| && Filter(f, s)[i] == x;
  }

  /** Two prefixes of which one is empty can be swapped. */
  lemma SwapEmpty<T>(a: seq<T>, b: seq<T>, x: seq<T>)
    requires a == [] || b == []
    ensures a + (b + x) == b + (a + x)
  {
    if a == [] {
      assert a + (b + x) == b + x;
      assert a + x == x;
    } else {
      assert b + x == x;
      assert b + (a + x) == a + x;
    }
  }

  /** Filtering a list with one element in front. */
  lemma FilterCons<T>(f: T -> bool, x: T, s: seq<T>)
    ensures Filter(f, [x] + s) == (if f(x) then [x] else []) + Filter(f, s)
  {
    assert ([x] + s)[1..] == s;
  }

  /** Filtering distributes over concatenation: relative order is kept. */
  lemma {:induction false} FilterConcat<T>(f: T -> bool, a: seq<T>, b: seq<T>)
    ensures Filter(f, a + b) == Filter(f, a) + Filter(f, b)
  {
    if a == [] {
      assert a + b == b;
    } else {
      assert (a + b)[1..] == a[1..] + b;
      FilterConcat(f, a[1..], b);
    }
  }

  /** A filter that every element passes returns the sequence itself. */
  lemma {:induction false} FilterAllPass<T>(f: T -> bool, s: seq<T>)
    requires forall i :: 0 <= i < |s| ==> f(s[i])
    ensures Filter(f, s) == s
  {
    if s != [] {
      FilterAllPass(f, s[1..]);
    }
  }

  /** Two complementary filters split a sequence: every element lands in
      exactly one of them, so the multisets and the lengths add up. */
  lemma {:induction false} FilterPartition<T>(f: T -> bool, g: T -> bool, s: seq<T>)
    requires forall x :: g(x) == !f(x)
    ensures multiset(Filter(f, s)) + multiset(Filter(g, s)) == multiset(s)
    ensures |Filter(f, s)| + |Filter(g, s)| == |s|
  {
    if s != [] {
      FilterPartition(f, g, s[1..]);
      assert s == [s[0]] + s[1..];
    }
  }

  /** `s.findIndex(f)`: the first index whose element passes, or -1. */
  function FindIndex<T>(f: T -> bool, s: seq<T>): (k: int)
    ensures -1 <= k < |s|
    ensures k >= 0 ==> f(s[k]) && forall j :: 0 <= j < k ==> !f(s[j])
    ensures k == -1 ==> forall j :: 0 <= j < |s| ==> !f(s[j])
  {
    if s == [] then -1
    else if f(s[0]) then 0
    else
      var k := FindIndex(f, s[1..]);
      if k == -1 then -1 else k + 1
  }

  /** `s.slice(0, n)`. */
  function Take<T>(s: seq<T>, n: nat): seq<T>
  {
    if |s| <= n then s else s[..n]
  }

  predicate NoDuplicates<T(==)>(s: seq<T>)
  {
    forall i, j :: 0 <= i < j < |s| ==> s[i] != s[j]
  }

  /** Dropping the head of a list without duplicates leaves one without
      duplicates that does not hold the head. */
  lemma DistinctTail<T>(s: seq<T>)
    requires s != [] && NoDuplicates(s)
    ensures NoDuplicates(s[1..]) && s[0] !in s[1..]
  {
    var tail := s[1..];
    forall i, j | 0 <= i < j < |tail| ensures tail[i] != tail[j] {
      assert tail[i] == s[i + 1] && tail[j] == s[j + 1];
    }
    forall j | 0 <= j < |tail| ensures tail[j] != s[0] {
      assert tail[j] == s[j + 1];
    }
  }

  /** A value not in a list without duplicates can go in front of it. */
  lemma ConsDistinct<T>(x: T, s: seq<T>)
    requires NoDuplicates(s) && x !in s
    ensures NoDuplicates([x] + s)
  {
    var u := [x] + s;
    forall i, j | 0 <= i < j < |u| ensures u[i] != u[j] {
      assert u[j] == s[j - 1];
      if 0 < i {
        assert u[i] == s[i - 1];
      }
    }
  }

  /** `Array.from(new Set(s))`: a set remembers insertion order, so each
      value appears once, where it first occurred. */
  function Dedupe<T(==)>(s: seq<T>): (r: seq<T>)
    ensures forall i :: 0 <= i < |r| ==> r[i] in s
    ensures forall i :: 0 <= i < |s| ==> s[i] in r
    ensures NoDuplicates(r)
  {
    if s == [] then []
    else
      var d := Dedupe(s[..|s| - 1]);
      if s[|s| - 1] in d then d else d + [s[|s| - 1]]
  }

  /** Appending a value already seen leaves the de-duplicated list as it
      was; a new value goes at the end (first-occurrence order). */
  lemma DedupeSnoc<T>(s: seq<T>, x: T)
    ensures Dedupe(s + [x]) == if x in s then Dedupe(s) else Dedupe(s) + [x]
  {
    assert (s + [x])[..|s + [x]| - 1] == s;
  }

  /** `s.indexOf(x)` for a value that occurs: its first position. */
  function IndexOf<T(==)>(s: seq<T>, x: T): (k: nat)
    requires x in s
    ensures k < |s| && s[k] == x
    ensures forall j :: 0 <= j < k ==> s[j] != x
  {
    if s[0] == x then 0 else 1 + IndexOf(s[1..], x)
  }

  /** A value of a prefix is first found where the prefix first has it. */
  lemma IndexOfPrefix<T>(s: seq<T>, n: nat, x: T)
    requires n <= |s| && x in s[..n]
    ensures IndexOf(s, x) == IndexOf(s[..n], x)
  {
    var k := IndexOf(s[..n], x);
    assert s[k] == s[..n][k];
    forall j | 0 <= j < k ensures s[j] != x {
      assert s[j] == s[..n][j];
    }
    IndexOfUnique(s, x, k);
  }

  /** The first index is the only index holding the value with none before. */
  lemma IndexOfUnique<T>(s: seq<T>, x: T, k: nat)
    requires k < |s| && s[k] == x
    requires forall j :: 0 <= j < k ==> s[j] != x
    ensures IndexOf(s, x) == k
  {
  }

  /** The de-duplicated list keeps values in the order of their first
      occurrence. */
  lemma {:induction false} DedupeFirstOccurrence<T>(s: seq<T>)
    ensures forall i, j :: 0 <= i < j < |Dedupe(s)| ==> IndexOf(s, Dedupe(s)[i]) < IndexOf(s, Dedupe(s)[j])
  {
    if s != [] {
      var n := |s| - 1;
      var p := s[..n];
      var last := s[n];
      var d := Dedupe(p);
      DedupeFirstOccurrence(p);
      forall i | 0 <= i < |d| ensures IndexOf(s, d[i]) == IndexOf(p, d[i]) {
        IndexOfPrefix(s, n, d[i]);
      }
      if last !in d {
        var r := d + [last];
        assert Dedupe(s) == r;
        assert last !in p;
        forall j | 0 <= j < n ensures s[j] != last {
          assert s[j] == p[j];
        }
        IndexOfUnique(s, last, n);
        forall i, j | 0 <= i < j < |r| ensures IndexOf(s, r[i]) < IndexOf(s, r[j]) {
          assert r[i] == d[i];
          if j < |d| {
            assert r[j] == d[j];
          }
        }
      }
    }
  }
}
