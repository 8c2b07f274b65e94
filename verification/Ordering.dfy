/** The stable sort by a numeric key that list positions, histories and logs go through. */
module Ordering {

  function Insert<T>(x: T, s: seq<T>, key: T -> real): seq<T> {
    if s == [] || key(x) <= key(s[0]) then [x] + s else [s[0]] + Insert(x, s[1..], key)
  }

  function SortBy<T>(s: seq<T>, key: T -> real): seq<T> {
    if s == [] then [] else Insert(s[0], SortBy(s[1..], key), key)
  }

  ghost predicate Ascending<T>(s: seq<T>, key: T -> real) {
    forall i, j | 0 <= i < j < |s| :: key(s[i]) <= key(s[j])
  }

  ghost predicate StrictlyAscending<T>(s: seq<T>, key: T -> real) {
    forall i, j | 0 <= i < j < |s| :: key(s[i]) < key(s[j])
  }

  lemma {:induction false} InsertPermutes<T>(x: T, s: seq<T>, key: T -> real)
    ensures multiset(Insert(x, s, key)) == multiset{x} + multiset(s)
  {
    if s != [] && !(key(x) <= key(s[0])) {
      InsertPermutes(x, s[1..], key);
      assert s == [s[0]] + s[1..];
    }
  }

  lemma {:induction false} InsertMembers<T>(x: T, s: seq<T>, key: T -> real)
    ensures forall j :: 0 <= j < |Insert(x, s, key)| ==> Insert(x, s, key)[j] == x || Insert(x, s, key)[j] in s
  {
    if s != [] && !(key(x) <= key(s[0])) {
      InsertMembers(x, s[1..], key);
      assert s == [s[0]] + s[1..];
    }
  }

  lemma {:induction false} InsertAscends<T>(x: T, s: seq<T>, key: T -> real)
    requires Ascending(s, key)
    ensures Ascending(Insert(x, s, key), key)
  {
    if s != [] && !(key(x) <= key(s[0])) {
      var r := Insert(x, s[1..], key);
      InsertAscends(x, s[1..], key);
      InsertMembers(x, s[1..], key);
      forall j | 0 <= j < |r| ensures key(s[0]) <= key(r[j]) {
        if r[j] != x { var k :| 0 <= k < |s[1..]| && s[1..][k] == r[j]; }
      }
    }
  }

  lemma {:induction false} SortPermutes<T>(s: seq<T>, key: T -> real)
    ensures multiset(SortBy(s, key)) == multiset(s)
    ensures Ascending(SortBy(s, key), key)
  {
    if s != [] {
      SortPermutes(s[1..], key);
      InsertPermutes(s[0], SortBy(s[1..], key), key);
      InsertAscends(s[0], SortBy(s[1..], key), key);
      assert s == [s[0]] + s[1..];
    }
  }

  /** With distinct keys there is only one way to sort. */
  lemma {:induction false} SortUnique<T>(s: seq<T>, key: T -> real, r: seq<T>)
    requires StrictlyAscending(r, key) && multiset(r) == multiset(s)
    ensures SortBy(s, key) == r
  {
    SortPermutes(s, key);
    AscendingUnique(SortBy(s, key), r, key);
  }

  lemma {:induction false} AscendingUnique<T>(a: seq<T>, b: seq<T>, key: T -> real)
    requires Ascending(a, key) && StrictlyAscending(b, key) && multiset(a) == multiset(b)
    ensures a == b
  {
    if b == [] {
      assert |multiset(a)| == 0;
    } else {
      assert b[0] in multiset(a) && |multiset(a)| == |a|;
      assert a[0] in multiset(b);
      var i :| 0 <= i < |a| && a[i] == b[0];
      var j :| 0 <= j < |b| && b[j] == a[0];
      assert a[0] == b[0];
      assert a == [a[0]] + a[1..] && b == [b[0]] + b[1..];
      assert multiset(a[1..]) == multiset(a) - multiset{a[0]};
      assert multiset(b[1..]) == multiset(b) - multiset{b[0]};
      AscendingUnique(a[1..], b[1..], key);
    }
  }
}

/** Facts about sequences without repetition. */
module Distinct {

  ghost predicate NoDup<T>(s: seq<T>) {
    forall i, j | 0 <= i < j < |s| :: s[i] != s[j]
  }

  function IndexOf(s: seq<string>, x: string): (i: int)
    ensures -1 <= i < |s|
    ensures i >= 0 ==> s[i] == x && x !in s[..i]
    ensures i < 0 <==> x !in s
  {
    if s == [] then -1
    else if s[0] == x then 0
    else
      var i := IndexOf(s[1..], x);
      assert i >= 0 ==> s[..i + 1] == [s[0]] + s[1..][..i];
      if i < 0 then -1 else i + 1
  }

  lemma {:induction false} FirstAt(s: seq<string>, k: nat, x: string)
    requires k < |s| && s[k] == x && x !in s[..k]
    ensures IndexOf(s, x) == k
  {
    if k > 0 {
      assert s[..k] == [s[0]] + s[1..][..k - 1];
      FirstAt(s[1..], k - 1, x);
    }
  }

  lemma {:induction false} IndexOfAt(s: seq<string>, i: nat)
    requires i < |s| && NoDup(s)
    ensures IndexOf(s, s[i]) == i
  {
  }

  lemma {:induction false} TwiceCounts<T>(s: seq<T>, i: nat, j: nat)
    requires i < j < |s|
    ensures s[i] == s[j] ==> multiset(s)[s[i]] >= 2
  {
    assert s == s[..j] + s[j..];
    assert s[..j][i] in multiset(s[..j]);
    assert s[j..][0] in multiset(s[j..]);
  }

  lemma {:induction false} CountsOnce<T>(s: seq<T>, x: T)
    requires NoDup(s)
    ensures multiset(s)[x] <= 1
  {
    if s != [] {
      assert s == [s[0]] + s[1..];
      CountsOnce(s[1..], x);
      if x == s[0] {
        forall k | 0 <= k < |s[1..]| ensures s[1..][k] != x { assert s[0] != s[k + 1]; }
        assert x !in multiset(s[1..]);
      }
    }
  }

  /** A rearrangement of a list without repetition has none either, and the same members. */
  lemma {:induction false} Rearranged<T>(a: seq<T>, b: seq<T>)
    requires NoDup(a) && multiset(a) == multiset(b)
    ensures NoDup(b) && |a| == |b| && forall x :: x in a <==> x in b
  {
    assert |multiset(a)| == |a| && |multiset(b)| == |b|;
    assert forall x :: x in a <==> x in multiset(a);
    assert forall x :: x in b <==> x in multiset(b);
    forall i, j | 0 <= i < j < |b| ensures b[i] != b[j] {
      TwiceCounts(b, i, j);
      CountsOnce(a, b[i]);
    }
  }

  /** Pigeonhole: distinct values drawn from a list are no more than the list, and fewer when one is missed. */
  lemma {:induction false} Pigeonhole<T>(a: seq<T>, b: seq<T>)
    requires NoDup(a) && forall x | x in a :: x in b
    ensures |a| <= |b|
    ensures (exists x | x in b :: x !in a) ==> |a| < |b|
    decreases |a|
  {
    if a != [] {
      var x := a[0];
      assert x in b;
      var i :| 0 <= i < |b| && b[i] == x;
      var b' := b[..i] + b[i + 1..];
      forall y | y in a[1..] ensures y in b' {
        assert y in a && y in b;
        var j :| 0 <= j < |b| && b[j] == y;
        assert j != i;
        assert b'[if j < i then j else j - 1] == y;
      }
      Pigeonhole(a[1..], b');
      if y :| y in b && y !in a {
        var j :| 0 <= j < |b| && b[j] == y;
        assert b'[if j < i then j else j - 1] == y && y !in a[1..];
      }
    }
  }
}
