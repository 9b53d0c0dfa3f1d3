/** Sequences used as insertion-ordered sets (JavaScript's Set and Array.from of it). */
module Seqs {

  /** No element occurs twice. */
  predicate Distinct<T(==,!new)>(s: seq<T>) {
    forall i, j :: 0 <= i < j < |s| ==> s[i] != s[j]
  }

  /** Set.add: appends x unless it is already present. */
  function Insert<T(==,!new)>(s: seq<T>, x: T): seq<T> {
    if x in s then s else s + [x]
  }

  /** Adds the elements of xs, left to right, to acc (a loop of Set.add). */
  function InsertAll<T(==,!new)>(acc: seq<T>, xs: seq<T>): (r: seq<T>)
    ensures Distinct(acc) ==> Distinct(r)
    ensures forall y :: y in r <==> y in acc || y in xs
    ensures acc <= r
    decreases |xs|
  {
    if xs == [] then acc
    else
      var r0 := InsertAll(acc, xs[..|xs| - 1]);
      assert forall y :: y in xs <==> y in xs[..|xs| - 1] || y == xs[|xs| - 1] by {
        assert xs == xs[..|xs| - 1] + [xs[|xs| - 1]];
      }
      Insert(r0, xs[|xs| - 1])
  }

  /** The position of the first occurrence of y in s. */
  function FirstIndex<T(==)>(s: seq<T>, y: T): (k: nat)
    requires y in s
    ensures k < |s| && s[k] == y && y !in s[..k]
  {
    if s[0] == y then 0
    else
      var k := 1 + FirstIndex(s[1..], y);
      assert s[..k] == [s[0]] + s[1..][..k - 1];
      k
  }

  /** Any position holding y with no y before it is the first occurrence. */
  lemma FirstIndexUnique<T>(s: seq<T>, y: T, k: nat)
    requires k < |s| && s[k] == y && y !in s[..k]
    ensures FirstIndex(s, y) == k
  {
  }

  /** Appending an element does not move the first occurrence of anything already present. */
  lemma FirstIndexAppend<T>(s: seq<T>, x: T, y: T)
    requires y in s
    ensures FirstIndex(s + [x], y) == FirstIndex(s, y)
  {
    var k := FirstIndex(s, y);
    assert (s + [x])[..k] == s[..k];
    FirstIndexUnique(s + [x], y, k);
  }

  /** Set.add from empty keeps elements in the order of their first occurrences in xs. */
  lemma {:induction false} InsertAllFirstOrder<T(!new)>(xs: seq<T>)
    ensures forall i, j :: 0 <= i < j < |InsertAll([], xs)| ==>
              FirstIndex(xs, InsertAll([], xs)[i]) < FirstIndex(xs, InsertAll([], xs)[j])
    decreases |xs|
  {
    if xs != [] {
      var n := |xs| - 1;
      var p, x := xs[..n], xs[n];
      assert xs == p + [x];
      InsertAllFirstOrder(p);
      var r0 := InsertAll([], p);
      var r := InsertAll([], xs);
      assert r == Insert(r0, x);
      forall i, j | 0 <= i < j < |r|
        ensures FirstIndex(xs, r[i]) < FirstIndex(xs, r[j])
      {
        assert r[i] in p by { assert r[i] == r0[i]; }
        FirstIndexAppend(p, x, r[i]);
        if j < |r0| {
          assert r[j] == r0[j];
          FirstIndexAppend(p, x, r[j]);
        } else {
          assert x !in p && r[j] == x;
          assert xs[..n] == p;
          FirstIndexUnique(xs, x, n);
        }
      }
    }
  }

  /** new Set(xs) read back in iteration order: first occurrences, in order. */
  function Dedup<T(==,!new)>(xs: seq<T>): (r: seq<T>)
    ensures Distinct(r)
    ensures forall y :: y in r <==> y in xs
    ensures forall i, j :: 0 <= i < j < |r| ==> FirstIndex(xs, r[i]) < FirstIndex(xs, r[j])
  {
    InsertAllFirstOrder(xs);
    InsertAll([], xs)
  }

  /** Set.delete: every occurrence of x removed, the rest in order. */
  function Without<T(==,!new)>(s: seq<T>, x: T): (r: seq<T>)
    ensures forall y :: y in r <==> y in s && y != x
    ensures Distinct(s) ==> Distinct(r)
    ensures x !in s ==> r == s
    ensures |r| <= |s|
  {
    if s == [] then []
    else if s[0] == x then Without(s[1..], x)
    else
      var rest := Without(s[1..], x);
      assert Distinct(s) ==> s[0] !in s[1..] && Distinct(s[1..]) by {
        if Distinct(s) {
          forall i | 0 <= i < |s[1..]| ensures s[1..][i] != s[0] { assert s[1..][i] == s[i + 1]; }
          forall i, j | 0 <= i < j < |s[1..]| ensures s[1..][i] != s[1..][j] { assert s[1..][i] == s[i + 1]; }
        }
      }
      [s[0]] + rest
  }

  /** A sequence without repetitions is its own deduplication. */
  lemma {:induction false} DedupOfDistinct<T(!new)>(s: seq<T>)
    requires Distinct(s)
    ensures Dedup(s) == s
  {
    InsertAllOfDistinct([], s);
  }

  lemma {:induction false} InsertAllOfDistinct<T(!new)>(acc: seq<T>, xs: seq<T>)
    requires Distinct(acc + xs)
    ensures InsertAll(acc, xs) == acc + xs
    decreases |xs|
  {
    if xs != [] {
      var n := |xs| - 1;
      assert acc + xs == (acc + xs[..n]) + [xs[n]];
      assert Distinct(acc + xs[..n]) by {
        forall i, j | 0 <= i < j < |acc + xs[..n]|
          ensures (acc + xs[..n])[i] != (acc + xs[..n])[j]
        {
          assert (acc + xs[..n])[i] == (acc + xs)[i];
          assert (acc + xs[..n])[j] == (acc + xs)[j];
        }
      }
      InsertAllOfDistinct(acc, xs[..n]);
      assert xs[n] !in acc + xs[..n] by {
        forall i | 0 <= i < |acc + xs[..n]| ensures (acc + xs[..n])[i] != xs[n] {
          assert (acc + xs[..n])[i] == (acc + xs)[i];
          assert xs[n] == (acc + xs)[|acc| + n];
        }
      }
    }
  }
}
