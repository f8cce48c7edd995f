/** Slice idioms shared by the broker and the client library. */
module Seqs {

  ghost predicate NoDup<T>(s: seq<T>) {
    forall i, j :: 0 <= i < j < |s| ==> s[i] != s[j]
  }

  /** Index of the first occurrence of `x`, or |s| when there is none. */
  function IndexOf<T(==)>(s: seq<T>, x: T): (i: nat)
    ensures i <= |s|
    ensures i < |s| ==> s[i] == x
    ensures x !in s[..i]
    ensures i < |s| <==> x in s
  {
    if s == [] then 0
    else if s[0] == x then 0
    else
      var i := 1 + IndexOf(s[1..], x);
      assert s[..i] == [s[0]] + s[1..][..i - 1];
      i
  }

  /** `s[i] = s[len(s)-1]; s = s[:len(s)-1]` */
  function SwapRemove<T>(s: seq<T>, i: nat): (r: seq<T>)
    requires i < |s|
    ensures |r| == |s| - 1
  {
    s[i := s[|s| - 1]][..|s| - 1]
  }

  lemma SwapRemoveMultiset<T>(s: seq<T>, i: nat)
    requires i < |s|
    ensures multiset(SwapRemove(s, i)) == multiset(s) - multiset{s[i]}
  {
    var n := |s| - 1;
    if i == n {
      assert SwapRemove(s, i) == s[..n] && s == s[..n] + [s[n]];
    } else {
      var a, b := s[..i], s[i + 1..n];
      assert SwapRemove(s, i) == a + [s[n]] + b;
      assert s == a + [s[i]] + b + [s[n]];
      assert multiset(a + [s[n]] + b) == multiset(a) + multiset{s[n]} + multiset(b);
      assert multiset(a + [s[i]] + b + [s[n]]) == multiset(a) + multiset{s[i]} + multiset(b) + multiset{s[n]};
    }
  }

  /** Without duplicates, swap-removal removes exactly the element at `i`. */
  lemma SwapRemoveUnique<T>(s: seq<T>, i: nat)
    requires NoDup(s) && i < |s|
    ensures NoDup(SwapRemove(s, i))
    ensures forall x :: x in SwapRemove(s, i) <==> x in s && x != s[i]
  {
    var r := SwapRemove(s, i);
    forall x | x in s && x != s[i]
      ensures x in r
    {
      var j :| 0 <= j < |s| && s[j] == x;
      if j == |s| - 1 {
        assert r[i] == x;
      } else {
        assert r[j] == x;
      }
    }
  }

  lemma InsertNoDup<T>(s: seq<T>, i: nat, x: T)
    requires NoDup(s) && i <= |s| && x !in s
    ensures NoDup(s[..i] + [x] + s[i..])
    ensures forall y :: y in s[..i] + [x] + s[i..] <==> y in s || y == x
  {
    var r := s[..i] + [x] + s[i..];
    assert s == s[..i] + s[i..];
    forall j, k | 0 <= j < k < |r|
      ensures r[j] != r[k]
    {
      assert r[j] == if j < i then s[j] else if j == i then x else s[j - 1];
      assert r[k] == if k < i then s[k] else if k == i then x else s[k - 1];
    }
  }

  lemma NoDupCount<T>(s: seq<T>, x: T)
    requires NoDup(s)
    ensures multiset(s)[x] == if x in s then 1 else 0
  {
    if x in s {
      var i :| 0 <= i < |s| && s[i] == x;
      assert s == s[..i] + [x] + s[i + 1..];
      assert x !in s[..i] && x !in s[i + 1..];
    }
  }

  /**
   * What the subscriber-removal loop leaves in the map for a list that holds
   * `x`: every match is overwritten by the element that was last when the loop
   * began, and the list is cut by one however many matches there were.
   */
  function OverwriteMatches<T(==)>(s: seq<T>, x: T): (r: seq<T>)
    requires x in s
    ensures |r| == |s| - 1
  {
    seq(|s| - 1, i requires 0 <= i < |s| - 1 => if s[i] == x then s[|s| - 1] else s[i])
  }

  lemma CountTwice<T>(s: seq<T>, x: T, i: nat, j: nat)
    requires i <= j < |s|
    ensures i < j && s[i] == x && s[j] == x ==> multiset(s)[x] >= 2
  {
    if i < j {
      assert s == s[..i] + [s[i]] + s[i + 1..j] + [s[j]] + s[j + 1..];
    }
  }

  lemma OverwriteOne<T>(s: seq<T>, x: T, k: nat)
    requires k < |s| && s[k] == x && multiset(s)[x] == 1
    ensures OverwriteMatches(s, x) == SwapRemove(s, k)
  {
    forall i | 0 <= i < |s|
      ensures s[i] == x ==> i == k
    {
      CountTwice(s, x, if i < k then i else k, if i < k then k else i);
    }
  }

  /**
   * The non-stopping loop removes `x` and keeps every other element exactly
   * when `x` occurs once; with two occurrences the length alone is wrong.
   */
  lemma OverwriteMatchesExact<T>(s: seq<T>, x: T)
    requires x in s
    ensures multiset(OverwriteMatches(s, x)) == multiset(s)[x := 0] <==> multiset(s)[x] == 1
  {
    var r := OverwriteMatches(s, x);
    if multiset(s)[x] == 1 {
      var k := IndexOf(s, x);
      OverwriteOne(s, x, k);
      SwapRemoveMultiset(s, k);
    } else {
      assert |multiset(r)| == |s| - 1;
      assert |multiset(s)[x := 0]| == |s| - multiset(s)[x];
    }
  }

  ghost predicate Ascending(at: seq<nat>) {
    forall j, k :: 0 <= j < k < |at| ==> at[j] < at[k]
  }

  lemma MultisetHead<T>(s: seq<T>)
    requires s != []
    ensures multiset(s) == multiset{s[0]} + multiset(s[1..])
  {
    assert s == [s[0]] + s[1..];
  }

  lemma ConcatNil<T>(a: seq<T>)
    ensures a + [] == a && [] + a == a
  {
  }

  lemma ConcatAssoc<T>(a: seq<T>, b: seq<T>, c: seq<T>)
    ensures a + b + c == a + (b + c)
  {
  }

  lemma ConcatTail<T>(a: seq<T>, b: seq<T>)
    requires a != []
    ensures (a + b)[0] == a[0] && (a + b)[1..] == a[1..] + b
  {
  }
}
