/** numpy.argsort on a vector of keys: the indices of the keys, listed so that their keys do not
    decrease. It is defined here by inserting the indices one after the other; the properties
    proved about it are the ones argsort promises (a permutation of the indices, ordered by
    key), which hold for every sorting order of equal keys. */
module Sorting {

  /** p lists each of 0..n-1 exactly once. */
  ghost predicate IsPermutation(p: seq<nat>, n: nat) {
    && |p| == n
    && (forall i :: 0 <= i < n ==> p[i] < n)
    && (forall i, j :: 0 <= i < j < n ==> p[i] != p[j])
  }

  /** Every index of p is a position of keys. */
  ghost predicate Indexes(p: seq<nat>, keys: seq<real>) {
    forall i :: 0 <= i < |p| ==> p[i] < |keys|
  }

  /** The keys of the listed indices do not decrease. */
  ghost predicate SortedBy(p: seq<nat>, keys: seq<real>)
    requires Indexes(p, keys)
  {
    forall i, j :: 0 <= i < j < |p| ==> keys[p[i]] <= keys[p[j]]
  }

  /** s with index x inserted after every index whose key is at most x's key. */
  function Insert(keys: seq<real>, x: nat, s: seq<nat>): (r: seq<nat>)
    requires x < |keys| && Indexes(s, keys)
    ensures |r| == |s| + 1 && Indexes(r, keys)
    ensures forall y :: y in r <==> y == x || y in s
  {
    if |s| == 0 then [x]
    else if keys[x] < keys[s[0]] then [x] + s
    else [s[0]] + Insert(keys, x, s[1..])
  }

  /** Inserting into a sorted list keeps it sorted. */
  lemma {:induction false} InsertSorted(keys: seq<real>, x: nat, s: seq<nat>)
    requires x < |keys| && Indexes(s, keys) && SortedBy(s, keys)
    ensures SortedBy(Insert(keys, x, s), keys)
  {
    if |s| > 0 && keys[x] >= keys[s[0]] {
      InsertSorted(keys, x, s[1..]);
      var r := Insert(keys, x, s);
      forall j | 0 < j < |r|
        ensures keys[r[0]] <= keys[r[j]]
      {
        assert r[j] in Insert(keys, x, s[1..]);
        if r[j] != x {
          var k :| 0 <= k < |s[1..]| && s[1..][k] == r[j];
          assert s[k + 1] == r[j];
        }
      }
    }
  }

  /** Inserting an index not yet listed into a list without repetitions keeps it without
      repetitions. */
  lemma {:induction false} InsertDistinct(keys: seq<real>, x: nat, s: seq<nat>)
    requires x < |keys| && Indexes(s, keys) && x !in s
    requires forall i, j :: 0 <= i < j < |s| ==> s[i] != s[j]
    ensures forall i, j :: 0 <= i < j < |Insert(keys, x, s)| ==> Insert(keys, x, s)[i] != Insert(keys, x, s)[j]
  {
    var r := Insert(keys, x, s);
    if |s| > 0 && keys[x] >= keys[s[0]] {
      InsertDistinct(keys, x, s[1..]);
      var t := Insert(keys, x, s[1..]);
      assert r == [s[0]] + t;
      forall i, j | 0 <= i < j < |r|
        ensures r[i] != r[j]
      {
        if i == 0 {
          assert r[j] == t[j - 1] && t[j - 1] in t;
          assert s[0] in s;
          if r[j] != x {
            var k :| 0 <= k < |s[1..]| && s[1..][k] == r[j];
            assert s[k + 1] == r[j];
            assert s[0] != s[k + 1];
          } else {
            assert x != s[0];
          }
          assert r[0] == s[0];
        } else {
          assert r[i] == t[i - 1] && r[j] == t[j - 1];
        }
      }
    } else {
      assert r == [x] + s;
      forall i, j | 0 <= i < j < |r|
        ensures r[i] != r[j]
      {
        assert r[j] == s[j - 1];
        if i > 0 {
          assert r[i] == s[i - 1];
        }
      }
    }
  }

  /** The indices 0..n-1 ordered by key. */
  function Argsort(keys: seq<real>, n: nat): (p: seq<nat>)
    requires n <= |keys|
    ensures |p| == n && Indexes(p, keys)
    ensures forall y :: y in p <==> 0 <= y < n
  {
    if n == 0 then [] else Insert(keys, n - 1, Argsort(keys, n - 1))
  }

  /** argsort(keys) lists every index of keys once, in an order of non-decreasing key. */
  lemma {:induction false} ArgsortProperties(keys: seq<real>, n: nat)
    requires n <= |keys|
    ensures IsPermutation(Argsort(keys, n), n)
    ensures SortedBy(Argsort(keys, n), keys)
  {
    var p := Argsort(keys, n);
    if n > 0 {
      var q := Argsort(keys, n - 1);
      ArgsortProperties(keys, n - 1);
      InsertSorted(keys, n - 1, q);
      InsertDistinct(keys, n - 1, q);
      assert p == Insert(keys, n - 1, q);
    }
    forall i | 0 <= i < n
      ensures p[i] < n
    {
      assert p[i] in p;
    }
  }
}
