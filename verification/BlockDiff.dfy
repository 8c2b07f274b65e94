/** The differ that turns two editor documents into block commands, and why replaying them gives the second one. */
module BlockDiff {
  import opened Results
  import opened Distinct
  import opened BlockSequence
  import opened Json
  import PayloadLimits

  ghost predicate WellFormed(s: seq<Block>) {
    NoDup(Ids(s)) && "" !in Ids(s)
  }

  // ---- the two orders in the middle of the run ----
  // `p` holds the ids of the previous document, `n` those of the next one.

  predicate Retained(p: seq<string>, x: string) {
    x in p
  }

  /** The last index up to `k` at which `n` holds a retained block, or -1. */
  function AnchorAt(p: seq<string>, n: seq<string>, k: nat): (m: int)
    requires k < |n|
    ensures -1 <= m <= k
    ensures m >= 0 ==> Retained(p, n[m])
    ensures forall j | m < j <= k :: !Retained(p, n[j])
  {
    if Retained(p, n[k]) then k else if k == 0 then -1 else AnchorAt(p, n, k - 1)
  }

  /** Where that block stood in the previous document, or -1. */
  function Anchor(p: seq<string>, n: seq<string>, k: nat): int
    requires k < |n|
  {
    var m := AnchorAt(p, n, k);
    if m < 0 then -1 else IndexOf(p, n[m])
  }

  /** The order of the server before the moves: by anchor, and after one anchor as in the next document. */
  predicate Earlier(p: seq<string>, n: seq<string>, j: nat, k: nat)
    requires j < |n| && k < |n|
  {
    Anchor(p, n, j) < Anchor(p, n, k) || (Anchor(p, n, j) == Anchor(p, n, k) && j < k)
  }

  ghost predicate ServerOrder(p: seq<string>, n: seq<string>, s: seq<string>) {
    && (forall i | 0 <= i < |s| :: s[i] in n)
    && (forall i, j | 0 <= i < j < |s| :: Earlier(p, n, IndexOf(n, s[i]), IndexOf(n, s[j])))
  }

  /** The order of the splicer: inserted blocks at their final index, retained ones in the old order. */
  ghost predicate SplicerOrder(p: seq<string>, n: seq<string>, v: seq<string>) {
    && NoDup(v)
    && (forall i | 0 <= i < |v| :: v[i] in n)
    && (forall i | 0 <= i < |n| && !Retained(p, n[i]) && n[i] in v :: i < |v| && v[i] == n[i])
    && (forall i, j | 0 <= i < j < |v| && Retained(p, v[i]) && Retained(p, v[j]) :: IndexOf(p, v[i]) < IndexOf(p, v[j]))
  }

  /** `r` lists some values of `v`, in the order of `v`. */
  ghost predicate InOrderOf(v: seq<string>, r: seq<string>) {
    && (forall i | 0 <= i < |r| :: r[i] in v)
    && (forall i, j | 0 <= i < j < |r| :: IndexOf(v, r[i]) < IndexOf(v, r[j]))
  }

  /**
   * The heart of the matter. While the blocks from index `i` on are still to be placed, if the splicer
   * already has the right block in front then so has the server, although the two orders differ.
   */
  lemma {:induction false} HeadsAgree(p: seq<string>, n: seq<string>, v: seq<string>, i: nat, restV: seq<string>, restS: seq<string>)
    requires NoDup(n) && NoDup(p) && i < |n|
    requires SplicerOrder(p, n, v) && (forall x | x in n :: x in v)
    requires InOrderOf(v, restV) && ServerOrder(p, n, restS)
    requires forall x :: x in restV <==> x in n[i..]
    requires forall x :: x in restS <==> x in n[i..]
    requires restV != [] && restV[0] == n[i]
    ensures restS != [] && restS[0] == n[i]
  {
    assert n[i] in n[i..] && n[i] in restS;
    if restS[0] != n[i] {
      var q :| 0 <= q < |restS| && restS[q] == n[i];
      var k := IndexOf(n, restS[0]);
      assert restS[0] in n[i..];
      LateIndex(n, i, restS[0]);
      IndexOfAt(n, i);
      assert Earlier(p, n, k, i) && k > i;
      AnchorsCross(p, n, v, i, k, restV);
    }
  }

  lemma {:induction false} LateIndex(n: seq<string>, i: nat, x: string)
    requires NoDup(n) && i <= |n| && x in n[i..]
    ensures x in n && IndexOf(n, x) >= i
  {
    var j :| i <= j < |n| && n[j] == x;
    IndexOfAt(n, j);
  }

  lemma {:induction false} InDrop(n: seq<string>, i: nat, b: nat)
    requires b < |n| && i <= |n|
    ensures b >= i ==> n[b] in n[i..]
  {
    if b >= i { assert n[i..][b - i] == n[b]; }
  }

  /** No later block is anchored before the block that the splicer has in front. */
  lemma {:induction false} AnchorsCross(p: seq<string>, n: seq<string>, v: seq<string>, i: nat, k: nat, restV: seq<string>)
    requires NoDup(n) && NoDup(p) && i < k < |n|
    requires SplicerOrder(p, n, v) && (forall x | x in n :: x in v)
    requires InOrderOf(v, restV) && (forall x :: x in restV <==> x in n[i..])
    requires restV != [] && restV[0] == n[i]
    ensures Anchor(p, n, k) >= Anchor(p, n, i)
  {
    var m, m2 := AnchorAt(p, n, k), AnchorAt(p, n, i);
    if m <= i {
      SameAnchor(p, n, i, k);
    } else if m2 >= 0 {
      var r, r2 := n[m], n[m2];
      assert n[i..][m - i] == r && r in restV;
      BehindFront(v, restV, r);
      if m2 < i {
        assert !Retained(p, n[i]) && n[i] in v;
        IndexOfAt(v, i);
        assert n[..i][m2] == r2;
        FrontIsPlaced(n, v, i, restV, r2);
      }
      RetainedOrder(p, n, v, r2, r);
    }
  }

  lemma {:induction false} BehindFront(v: seq<string>, restV: seq<string>, r: string)
    requires InOrderOf(v, restV) && r in restV && restV[0] != r
    ensures IndexOf(v, restV[0]) < IndexOf(v, r)
  {
    var a :| 0 <= a < |restV| && restV[a] == r;
  }

  lemma {:induction false} SameAnchor(p: seq<string>, n: seq<string>, i: nat, k: nat)
    requires i < k < |n| && AnchorAt(p, n, k) <= i
    ensures AnchorAt(p, n, k) == AnchorAt(p, n, i)
  {
    var m, m2 := AnchorAt(p, n, k), AnchorAt(p, n, i);
    assert m < 0 || Retained(p, n[m]);
    assert m2 < 0 || Retained(p, n[m2]);
  }

  /** Retained blocks stand in the splicer's list as in the previous document. */
  lemma {:induction false} RetainedOrder(p: seq<string>, n: seq<string>, v: seq<string>, r: string, r2: string)
    requires SplicerOrder(p, n, v) && r in v && r2 in v && Retained(p, r) && Retained(p, r2)
    requires IndexOf(v, r) < IndexOf(v, r2)
    ensures IndexOf(p, r) < IndexOf(p, r2)
  {
    var a, b := IndexOf(v, r), IndexOf(v, r2);
    assert Retained(p, v[a]) && Retained(p, v[b]);
  }

  /** When index `i` of `v` is the first one still to be placed, every placed block stands before it. */
  lemma {:induction false} FrontIsPlaced(n: seq<string>, v: seq<string>, i: nat, restV: seq<string>, x: string)
    requires NoDup(n) && NoDup(v) && i < |n| && i < |v| && v[i] == n[i]
    requires (forall y | y in v :: y in n)
    requires InOrderOf(v, restV) && (forall y :: y in restV <==> y in n[i..])
    requires restV != [] && restV[0] == n[i]
    requires x in n[..i] && x in v
    ensures IndexOf(v, x) < i
  {
    IndexOfAt(v, i);
    forall y | y in restV ensures IndexOf(v, y) >= i {
      var c :| 0 <= c < |restV| && restV[c] == y;
      assert c == 0 || IndexOf(v, restV[0]) < IndexOf(v, restV[c]);
    }
    forall y | y in v[..i] ensures y in n[..i] {
      var a :| 0 <= a < i && v[a] == y;
      IndexOfAt(v, a);
      assert y in v && y !in restV;
      var b :| 0 <= b < |n| && n[b] == y;
      InDrop(n, i, b);
      assert n[..i][b] == y;
    }
    Pigeonhole(v[..i], n[..i]);
    var a :| 0 <= a < i && v[a] == x;
    IndexOfAt(v, a);
  }

  // ---- inserting: the same block goes to an index in one list and after its neighbour in the other ----

  /** The blocks that exist once the first `i` blocks of the next document are dealt with. */
  ghost predicate Members(p: seq<string>, n: seq<string>, i: nat, s: seq<string>) {
    forall x :: x in s <==> x in n && (Retained(p, x) || IndexOf(n, x) < i)
  }

  lemma {:induction false} MembersNext(p: seq<string>, n: seq<string>, i: nat, s: seq<string>, t: seq<string>)
    requires NoDup(n) && i < |n| && Members(p, n, i, s)
    requires forall x :: x in t <==> x == n[i] || x in s
    ensures Members(p, n, i + 1, t)
  {
    IndexOfAt(n, i);
    forall x | x in n && IndexOf(n, x) < i + 1 ensures x == n[i] || IndexOf(n, x) < i {
      assert n[IndexOf(n, x)] == x;
    }
  }

  lemma {:induction false} MembersSkip(p: seq<string>, n: seq<string>, i: nat, s: seq<string>)
    requires NoDup(n) && i < |n| && Members(p, n, i, s) && Retained(p, n[i])
    ensures Members(p, n, i + 1, s)
  {
    forall x | x in n && IndexOf(n, x) < i + 1 ensures x == n[i] || IndexOf(n, x) < i {
      assert n[IndexOf(n, x)] == x;
    }
    IndexOfAt(n, i);
  }

  /** JavaScript's `splice(at, 1)`: a negative index counts from the end. */
  function RemoveAt(v: seq<string>, at: int): seq<string> {
    if 0 <= at < |v| then v[..at] + v[at + 1..] else if at < 0 < |v| then v[..|v| - 1] else v
  }

  /** JavaScript's `splice(at, 0, x)`: an index past the end appends. */
  function InsertAt(v: seq<string>, at: nat, x: string): seq<string> {
    var c := if at <= |v| then at else |v|;
    v[..c] + [x] + v[c..]
  }

  /** `t` is `v` with `x` put in front of index `c`. */
  ghost predicate Inserted(v: seq<string>, c: nat, x: string, t: seq<string>) {
    c <= |v| && t == v[..c] + [x] + v[c..]
  }

  lemma {:induction false} InsertedAt(v: seq<string>, c: nat, x: string, t: seq<string>)
    requires Inserted(v, c, x, t)
    ensures |t| == |v| + 1 && t[c] == x
    ensures forall a | 0 <= a < c :: t[a] == v[a]
    ensures forall a | c < a < |t| :: t[a] == v[a - 1]
  {
  }

  lemma {:induction false} InsertedHas(v: seq<string>, c: nat, x: string, t: seq<string>)
    requires Inserted(v, c, x, t)
    ensures forall y :: y in t <==> y == x || y in v
  {
    assert v == v[..c] + v[c..];
  }

  lemma {:induction false} InsertedMembers(p: seq<string>, n: seq<string>, i: nat, v: seq<string>, c: nat, t: seq<string>)
    requires NoDup(n) && i < |n| && Members(p, n, i, v) && !Retained(p, n[i])
    requires Inserted(v, c, n[i], t)
    ensures Members(p, n, i + 1, t) && n[i] !in v
  {
    InsertedHas(v, c, n[i], t);
    IndexOfAt(n, i);
    MembersNext(p, n, i, v, t);
  }

  lemma {:induction false} SpliceRoom(p: seq<string>, n: seq<string>, v: seq<string>, i: nat)
    requires NoDup(n) && i < |n| && Members(p, n, i, v)
    ensures |v| >= i
  {
    forall x | x in n[..i] ensures x in v {
      var a :| 0 <= a < i && n[a] == x;
      IndexOfAt(n, a);
    }
    Pigeonhole(n[..i], v);
  }

  lemma {:induction false} SpliceStep(p: seq<string>, n: seq<string>, v: seq<string>, i: nat, t: seq<string>)
    requires NoDup(n) && i < |n| && SplicerOrder(p, n, v) && Members(p, n, i, v) && !Retained(p, n[i])
    requires Inserted(v, i, n[i], t)
    ensures SplicerOrder(p, n, t) && Members(p, n, i + 1, t)
  {
    InsertedMembers(p, n, i, v, i, t);
    SplicedNoDup(n, v, i, t);
    SplicedRetained(p, n, v, i, t);
    SplicedInserted(p, n, v, i, t);
  }

  lemma {:induction false} SplicedNoDup(n: seq<string>, v: seq<string>, i: nat, t: seq<string>)
    requires i < |n| && NoDup(v) && n[i] !in v && Inserted(v, i, n[i], t) && forall k | 0 <= k < |v| :: v[k] in n
    ensures NoDup(t) && forall k | 0 <= k < |t| :: t[k] in n
  {
    InsertedAt(v, i, n[i], t);
  }

  /** The splice keeps the retained blocks in the old order. */
  lemma {:induction false} SplicedRetained(p: seq<string>, n: seq<string>, v: seq<string>, i: nat, t: seq<string>)
    requires i < |n| && !Retained(p, n[i]) && Inserted(v, i, n[i], t)
    requires forall a, b | 0 <= a < b < |v| && Retained(p, v[a]) && Retained(p, v[b]) :: IndexOf(p, v[a]) < IndexOf(p, v[b])
    ensures forall a, b | 0 <= a < b < |t| && Retained(p, t[a]) && Retained(p, t[b]) :: IndexOf(p, t[a]) < IndexOf(p, t[b])
  {
    InsertedAt(v, i, n[i], t);
  }

  /** Inserted blocks stand at their final index. */
  lemma {:induction false} SplicedInserted(p: seq<string>, n: seq<string>, v: seq<string>, i: nat, t: seq<string>)
    requires NoDup(n) && i < |n| && SplicerOrder(p, n, v) && Members(p, n, i, v) && Inserted(v, i, n[i], t)
    ensures forall a | 0 <= a < |n| && !Retained(p, n[a]) && n[a] in t :: a < |t| && t[a] == n[a]
  {
    InsertedAt(v, i, n[i], t);
    InsertedHas(v, i, n[i], t);
    forall a | 0 <= a < |n| && !Retained(p, n[a]) && n[a] in t ensures a < |t| && t[a] == n[a] {
      IndexOfAt(n, a);
      if a != i { assert n[a] in v && a < i; }
    }
  }

  lemma {:induction false} InsertAfterStep(p: seq<string>, n: seq<string>, s: seq<string>, i: nat, t: seq<string>)
    requires NoDup(n) && i < |n| && ServerOrder(p, n, s) && Members(p, n, i, s) && !Retained(p, n[i])
    requires Inserted(s, if i == 0 then 0 else IndexOf(s, n[i - 1]) + 1, n[i], t)
    ensures ServerOrder(p, n, t) && Members(p, n, i + 1, t)
  {
    var at := if i == 0 then 0 else IndexOf(s, n[i - 1]) + 1;
    InsertedMembers(p, n, i, s, at, t);
    InsertedAt(s, at, n[i], t);
    IndexOfAt(n, i);
    forall q | 0 <= q < |s|
      ensures q < at ==> Earlier(p, n, IndexOf(n, s[q]), i)
      ensures q >= at ==> Earlier(p, n, i, IndexOf(n, s[q]))
    {
      NeighbourOrder(p, n, s, i, q);
    }
    forall a, b | 0 <= a < b < |t| ensures Earlier(p, n, IndexOf(n, t[a]), IndexOf(n, t[b])) {
      if a < at { assert t[a] == s[a]; } else if a > at { assert t[a] == s[a - 1]; }
      if b < at { assert t[b] == s[b]; } else if b > at { assert t[b] == s[b - 1]; }
    }
  }

  lemma {:induction false} PredecessorPresent(p: seq<string>, n: seq<string>, s: seq<string>, i: nat)
    requires NoDup(n) && 0 < i < |n| && Members(p, n, i, s)
    ensures n[i - 1] in s
  {
    IndexOfAt(n, i - 1);
  }

  lemma {:induction false} NeighbourOrder(p: seq<string>, n: seq<string>, s: seq<string>, i: nat, q: nat)
    requires NoDup(n) && i < |n| && ServerOrder(p, n, s) && Members(p, n, i, s) && !Retained(p, n[i]) && q < |s|
    ensures var at := if i == 0 then 0 else IndexOf(s, n[i - 1]) + 1;
      && (q < at ==> Earlier(p, n, IndexOf(n, s[q]), i))
      && (q >= at ==> Earlier(p, n, i, IndexOf(n, s[q])))
  {
    IndexOfAt(n, i);
    assert s[q] in s && s[q] in n && IndexOf(n, s[q]) != i;
    if i > 0 {
      IndexOfAt(n, i - 1);
      PredecessorPresent(p, n, s, i);
      assert Anchor(p, n, i) == Anchor(p, n, i - 1);
      BesidePredecessor(p, n, s, i, q);
    }
  }

  lemma {:induction false} BesidePredecessor(p: seq<string>, n: seq<string>, s: seq<string>, i: nat, q: nat)
    requires NoDup(n) && 0 < i < |n| && ServerOrder(p, n, s) && q < |s| && n[i - 1] in s
    ensures var at := IndexOf(s, n[i - 1]);
      && (q == at ==> IndexOf(n, s[q]) == i - 1)
      && (q < at ==> Earlier(p, n, IndexOf(n, s[q]), i - 1))
      && (q > at ==> Earlier(p, n, i - 1, IndexOf(n, s[q])))
  {
    IndexOfAt(n, i - 1);
  }

  // ---- moving: taking one block out of the rest keeps both orders ----

  lemma {:induction false} TakeOut(p: seq<string>, n: seq<string>, v: seq<string>, i: nat, rest: seq<string>, c: nat)
    requires NoDup(n) && i < |n| && c < |rest| && rest[c] == n[i] && NoDup(rest)
    requires forall x :: x in rest <==> x in n[i..]
    ensures var t := rest[..c] + rest[c + 1..];
      && NoDup(t)
      && (forall x :: x in t <==> x in n[i + 1..])
      && (InOrderOf(v, rest) ==> InOrderOf(v, t))
      && (ServerOrder(p, n, rest) ==> ServerOrder(p, n, t))
  {
    var t := rest[..c] + rest[c + 1..];
    forall a | 0 <= a < |t| ensures t[a] == rest[if a < c then a else a + 1] { }
    assert n[i..] == [n[i]] + n[i + 1..];
    forall x ensures x in t <==> x in n[i + 1..] {
      assert x in rest <==> x == n[i] || x in n[i + 1..];
      if x in rest && x != n[i] {
        var a :| 0 <= a < |rest| && rest[a] == x;
        assert t[if a < c then a else a - 1] == x;
      }
    }
  }

  lemma {:induction false} OrderNoDup(p: seq<string>, n: seq<string>, s: seq<string>)
    ensures ServerOrder(p, n, s) ==> NoDup(s)
    ensures InOrderOf(n, s) ==> NoDup(s)
  {
  }

  // ---- the four loops ----

  /** `new Map(blocks by id).get(id)`: the last block with this id. */
  function Get(s: seq<Block>, id: string): (b: Block)
    requires id in Ids(s)
    ensures b in s && b.id == id
  {
    if s[|s| - 1].id == id then s[|s| - 1]
    else
      assert Ids(s) == Ids(s[..|s| - 1]) + [s[|s| - 1].id];
      Get(s[..|s| - 1], id)
  }

  lemma {:induction false} GetAt(s: seq<Block>, i: nat)
    requires NoDup(Ids(s)) && i < |s|
    ensures Get(s, s[i].id) == s[i]
  {
    assert Ids(s)[i] == s[i].id;
    var b := Get(s, s[i].id);
    var j :| 0 <= j < |s| && s[j] == b;
    assert Ids(s)[j] == Ids(s)[i];
  }

  function PreviousId(next: seq<Block>, i: nat): string
    requires i < |next|
  {
    if i == 0 then "" else next[i - 1].id
  }

  /** The blocks of `s` whose id stays. */
  function Kept(s: seq<Block>, ids: seq<string>): seq<Block> {
    if s == [] then []
    else Kept(s[..|s| - 1], ids) + (if s[|s| - 1].id in ids then [s[|s| - 1]] else [])
  }

  lemma {:induction false} KeptMembers(s: seq<Block>, ids: seq<string>)
    ensures forall b :: b in Kept(s, ids) <==> b in s && b.id in ids
  {
    if s != [] {
      KeptMembers(s[..|s| - 1], ids);
      assert s == s[..|s| - 1] + [s[|s| - 1]];
    }
  }

  lemma {:induction false} KeptIds(previous: seq<Block>, n: seq<string>, j: nat)
    requires NoDup(Ids(previous)) && j <= |previous|
    ensures forall x | x in Ids(Kept(previous[..j], n)) :: x in n && x in Ids(previous) && IndexOf(Ids(previous), x) < j
  {
    KeptMembers(previous[..j], n);
    forall x | x in Ids(Kept(previous[..j], n)) ensures x in n && x in Ids(previous) && IndexOf(Ids(previous), x) < j {
      var a := IndexOf(Ids(Kept(previous[..j], n)), x);
      var b := Kept(previous[..j], n)[a];
      assert b in previous[..j];
      var c :| 0 <= c < j && previous[c] == b;
      assert Ids(previous)[c] == x;
      IndexOfAt(Ids(previous), c);
    }
  }

  lemma {:induction false} KeptNext(s: seq<Block>, n: seq<string>, j: nat)
    requires 0 < j <= |s|
    ensures Ids(Kept(s[..j], n)) == Ids(Kept(s[..j - 1], n)) + (if s[j - 1].id in n then [s[j - 1].id] else [])
  {
    assert s[..j][..j - 1] == s[..j - 1];
  }

  lemma {:induction false} KeptOrder(previous: seq<Block>, n: seq<string>, j: nat)
    requires NoDup(Ids(previous)) && j <= |previous|
    ensures InOrderOf(Ids(previous), Ids(Kept(previous[..j], n)))
  {
    if j > 0 {
      KeptOrder(previous, n, j - 1);
      KeptNext(previous, n, j);
      var before := Ids(Kept(previous[..j - 1], n));
      if previous[j - 1].id in n {
        KeptIds(previous, n, j - 1);
        IndexOfAt(Ids(previous), j - 1);
        assert Ids(previous)[j - 1] == previous[j - 1].id;
        AppendInOrder(Ids(previous), before, previous[j - 1].id);
      } else {
        assert before + [] == before;
      }
    }
  }

  lemma {:induction false} AppendInOrder(v: seq<string>, r: seq<string>, x: string)
    requires InOrderOf(v, r) && x in v && forall y | y in r :: IndexOf(v, y) < IndexOf(v, x)
    ensures InOrderOf(v, r + [x])
  {
    forall a | 0 <= a < |r| ensures r[a] in r { }
  }

  lemma {:induction false} KeptAbsent(previous: seq<Block>, n: seq<string>, j: nat)
    requires NoDup(Ids(previous)) && j < |previous|
    ensures previous[j].id !in Ids(Kept(previous[..j], n))
  {
    KeptIds(previous, n, j);
    assert Ids(previous)[j] == previous[j].id;
    IndexOfAt(Ids(previous), j);
  }

  lemma {:induction false} FirstIndex(s: seq<Block>, k: nat, id: string)
    requires k < |s| && s[k].id == id && id !in Ids(s[..k])
    ensures IndexOf(Ids(s), id) == k
  {
    assert Ids(s)[..k] == Ids(s[..k]) && Ids(s)[k] == id;
    FirstAt(Ids(s), k, id);
  }

  /** The document after the deletions among the first `j` blocks. */
  function Pruned(previous: seq<Block>, n: seq<string>, j: nat): seq<Block>
    requires j <= |previous|
  {
    Kept(previous[..j], n) + previous[j..]
  }

  lemma {:induction false} PruneNext(previous: seq<Block>, n: seq<string>, j: nat)
    requires j < |previous|
    ensures var kept := Kept(previous[..j], n);
      && Pruned(previous, n, j) == kept + [previous[j]] + previous[j + 1..]
      && Pruned(previous, n, j + 1) == if previous[j].id in n then kept + [previous[j]] + previous[j + 1..] else kept + previous[j + 1..]
  {
    assert previous[..j + 1][..j] == previous[..j];
    assert previous[j..] == [previous[j]] + previous[j + 1..];
    assert Kept(previous[..j], n) + [] == Kept(previous[..j], n);
  }

  lemma {:induction false} DropMiddle(a: seq<Block>, b: Block, c: seq<Block>)
    requires b.id != "" && b.id !in Ids(a)
    ensures ListApply(a + [b] + c, Delete(b.id)) == Ok(a + c)
    ensures Ids(a + c) == RemoveAt(Ids(a + [b] + c), IndexOf(Ids(a + [b] + c), b.id))
  {
    var s := a + [b] + c;
    assert s[..|a|] == a && s[|a|] == b;
    FirstIndex(s, |a|, b.id);
    assert Without(s, |a|) == a + c;
    assert Ids(a + c) == Ids(s)[..|a|] + Ids(s)[|a| + 1..];
  }

  lemma {:induction false} PruneStep(previous: seq<Block>, n: seq<string>, j: nat)
    requires WellFormed(previous) && j < |previous|
    ensures var id, s, t := previous[j].id, Pruned(previous, n, j), Pruned(previous, n, j + 1);
      && (id in n ==> t == s)
      && (id !in n ==> ListApply(s, Delete(id)) == Ok(t) && Ids(t) == RemoveAt(Ids(s), IndexOf(Ids(s), id)))
  {
    PruneNext(previous, n, j);
    if previous[j].id !in n { PruneDrops(previous, n, j); }
  }

  lemma {:induction false} PruneDrops(previous: seq<Block>, n: seq<string>, j: nat)
    requires WellFormed(previous) && j < |previous| && previous[j].id !in n
    ensures var id, s, t := previous[j].id, Pruned(previous, n, j), Pruned(previous, n, j + 1);
      ListApply(s, Delete(id)) == Ok(t) && Ids(t) == RemoveAt(Ids(s), IndexOf(Ids(s), id))
  {
    PruneNext(previous, n, j);
    KeptAbsent(previous, n, j);
    assert Ids(previous)[j] == previous[j].id;
    DropMiddle(Kept(previous[..j], n), previous[j], previous[j + 1..]);
  }

  /** What a single command is about, whatever came before it. */
  predicate IsStep(previous: seq<Block>, next: seq<Block>, c: Command) {
    match c
    case Delete(id) => id in Ids(previous)
    case Insert(b, after) => b.id !in Ids(previous) && exists i | 0 <= i < |next| :: next[i] == b && after == PreviousId(next, i)
    case Move(id, _) => id in Ids(next)
    case Update(b) => b in next && b.id in Ids(previous) && Get(previous, b.id) != b
  }

  predicate Compiled(previous: seq<Block>, next: seq<Block>, commands: seq<Command>) {
    commands != [] ==> IsStep(previous, next, commands[0]) && Compiled(previous, next, commands[1..])
  }

  lemma {:induction false} CompiledAll(previous: seq<Block>, next: seq<Block>, commands: seq<Command>)
    requires Compiled(previous, next, commands)
    ensures forall c | c in commands :: IsStep(previous, next, c)
  {
    if commands != [] {
      CompiledAll(previous, next, commands[1..]);
      assert commands == [commands[0]] + commands[1..];
    }
  }

  lemma {:induction false} CompiledOne(previous: seq<Block>, next: seq<Block>, commands: seq<Command>, c: Command)
    requires Compiled(previous, next, commands) && IsStep(previous, next, c)
    ensures Compiled(previous, next, commands + [c])
  {
    if commands == [] {
      assert commands + [c] == [c] && [c][1..] == [];
    } else {
      assert (commands + [c])[1..] == commands[1..] + [c];
      CompiledOne(previous, next, commands[1..], c);
    }
  }

  method DeletePhase(previous: seq<Block>, next: seq<Block>)
    returns (commands: seq<Command>, virtualOrder: seq<string>)
    ensures WellFormed(previous) ==>
      && Replay(previous, commands) == Ok(Kept(previous, Ids(next)))
      && virtualOrder == Ids(Kept(previous, Ids(next)))
    ensures Compiled(previous, next, commands)
  {
    commands, virtualOrder := [], Ids(previous);
    var ids := virtualOrder;
    ghost var n := Ids(next);
    assert Pruned(previous, n, 0) == previous;
    for j := 0 to |ids|
      invariant WellFormed(previous) ==>
        Replay(previous, commands) == Ok(Pruned(previous, n, j)) && virtualOrder == Ids(Pruned(previous, n, j))
      invariant Compiled(previous, next, commands)
    {
      var id := ids[j];
      if WellFormed(previous) { PruneStep(previous, n, j); }
      if id in Ids(next) { continue; }
      ReplayAppend(previous, commands, Delete(id));
      CompiledOne(previous, next, commands, Delete(id));
      commands := commands + [Delete(id)];
      virtualOrder := RemoveAt(virtualOrder, IndexOf(virtualOrder, id));
    }
    assert previous[..|previous|] == previous && Pruned(previous, n, |previous|) == Kept(previous, n);
  }

  /** Before the insertions both lists hold the retained blocks in their old order. */
  lemma {:induction false} RetainedStart(p: seq<string>, n: seq<string>, v: seq<string>)
    requires NoDup(p) && NoDup(n) && InOrderOf(p, v)
    requires forall x :: x in v <==> x in n && x in p
    ensures SplicerOrder(p, n, v) && ServerOrder(p, n, v) && Members(p, n, 0, v)
  {
    forall a | 0 <= a < |v| ensures v[a] in n && Retained(p, v[a]) { assert v[a] in v; }
    forall a, b | 0 <= a < b < |v|
      ensures v[a] != v[b] && IndexOf(p, v[a]) < IndexOf(p, v[b]) && Earlier(p, n, IndexOf(n, v[a]), IndexOf(n, v[b]))
    {
    }
  }

  lemma {:induction false} KeptStart(previous: seq<Block>, next: seq<Block>)
    requires WellFormed(previous) && WellFormed(next)
    ensures var p, n, v := Ids(previous), Ids(next), Ids(Kept(previous, Ids(next)));
      SplicerOrder(p, n, v) && ServerOrder(p, n, v) && Members(p, n, 0, v)
  {
    var p, n, kept := Ids(previous), Ids(next), Kept(previous, Ids(next));
    assert previous[..|previous|] == previous;
    KeptOrder(previous, n, |previous|);
    KeptIds(previous, n, |previous|);
    KeptMembers(previous, n);
    forall x | x in n && x in p ensures x in Ids(kept) {
      var b := previous[IndexOf(p, x)];
      var a :| 0 <= a < |kept| && kept[a] == b;
      assert Ids(kept)[a] == x;
    }
    RetainedStart(p, n, Ids(kept));
  }

  /** Retained blocks still have their old content, inserted ones the new. */
  ghost predicate Origin(previous: seq<Block>, next: seq<Block>, s: seq<Block>) {
    forall b | b in s :: if b.id in Ids(previous) then b in previous else b in next
  }

  function Put(s: seq<Block>, c: nat, b: Block): seq<Block>
    requires c <= |s|
  {
    s[..c] + [b] + s[c..]
  }

  lemma {:induction false} PutMembers(s: seq<Block>, c: nat, b: Block)
    requires c <= |s|
    ensures forall x | x in Put(s, c, b) :: x == b || x in s
  {
  }

  lemma {:induction false} PutIds(s: seq<Block>, c: nat, b: Block)
    requires c <= |s|
    ensures Inserted(Ids(s), c, b.id, Ids(Put(s, c, b)))
  {
    assert Ids(Put(s, c, b)) == Ids(s)[..c] + [b.id] + Ids(s)[c..];
  }

  lemma {:induction false} InsertApplies(s: seq<Block>, b: Block, after: string)
    requires b.id != "" && b.id !in Ids(s)
    requires after == "" || after in Ids(s)
    ensures ListApply(s, Insert(b, after)) == Ok(Put(s, if after == "" then 0 else IndexOf(Ids(s), after) + 1, b))
  {
    assert s[..0] + [b] + s[0..] == [b] + s;
  }

  /** What holds of the two orders while the inserted blocks up to index `i` are in. */
  ghost predicate Inserting(previous: seq<Block>, next: seq<Block>, i: nat, commands: seq<Command>, v: seq<string>, s: seq<Block>) {
    var p, n := Ids(previous), Ids(next);
    && Replay(previous, commands) == Ok(s)
    && SplicerOrder(p, n, v) && Members(p, n, i, v)
    && ServerOrder(p, n, Ids(s)) && Members(p, n, i, Ids(s))
    && Origin(previous, next, s)
  }

  lemma {:induction false} ServerInserts(previous: seq<Block>, next: seq<Block>, i: nat, commands: seq<Command>, s: seq<Block>)
    returns (t: seq<Block>)
    requires WellFormed(next) && i < |next| && next[i].id !in Ids(previous)
    requires Replay(previous, commands) == Ok(s) && Origin(previous, next, s)
    requires ServerOrder(Ids(previous), Ids(next), Ids(s)) && Members(Ids(previous), Ids(next), i, Ids(s))
    ensures Replay(previous, commands + [Insert(next[i], PreviousId(next, i))]) == Ok(t) && Origin(previous, next, t)
    ensures ServerOrder(Ids(previous), Ids(next), Ids(t)) && Members(Ids(previous), Ids(next), i + 1, Ids(t))
  {
    var p, n, b, after := Ids(previous), Ids(next), next[i], PreviousId(next, i);
    assert n[i] == b.id && !Retained(p, n[i]) && b.id != "";
    IndexOfAt(n, i);
    if i > 0 {
      PredecessorPresent(p, n, Ids(s), i);
      assert n[i - 1] == after && after != "";
    }
    InsertApplies(s, b, after);
    ReplayAppend(previous, commands, Insert(b, after));
    var c := if i == 0 then 0 else IndexOf(Ids(s), after) + 1;
    t := Put(s, c, b);
    PutMembers(s, c, b);
    PutIds(s, c, b);
    InsertAfterStep(p, n, Ids(s), i, Ids(t));
    assert b in next;
  }

  lemma {:induction false} InsertingNext(previous: seq<Block>, next: seq<Block>, i: nat, commands: seq<Command>, v: seq<string>, s: seq<Block>)
    returns (t: seq<Block>)
    requires WellFormed(previous) && WellFormed(next) && i < |next| && next[i].id !in Ids(previous)
    requires Inserting(previous, next, i, commands, v, s)
    ensures var b := next[i];
      Inserting(previous, next, i + 1, commands + [Insert(b, PreviousId(next, i))], InsertAt(v, i, b.id), t)
  {
    t := ServerInserts(previous, next, i, commands, s);
    SplicerInserts(Ids(previous), Ids(next), v, i);
  }

  lemma {:induction false} SplicerInserts(p: seq<string>, n: seq<string>, v: seq<string>, i: nat)
    requires NoDup(n) && i < |n| && SplicerOrder(p, n, v) && Members(p, n, i, v) && !Retained(p, n[i])
    ensures SplicerOrder(p, n, InsertAt(v, i, n[i])) && Members(p, n, i + 1, InsertAt(v, i, n[i]))
  {
    SpliceRoom(p, n, v, i);
    SpliceStep(p, n, v, i, InsertAt(v, i, n[i]));
  }

  method InsertPhase(previous: seq<Block>, next: seq<Block>, deletions: seq<Command>, v0: seq<string>)
    returns (commands: seq<Command>, virtualOrder: seq<string>, ghost s: seq<Block>)
    requires WellFormed(previous) ==>
      Replay(previous, deletions) == Ok(Kept(previous, Ids(next))) && v0 == Ids(Kept(previous, Ids(next)))
    ensures WellFormed(previous) && WellFormed(next) ==>
      Inserting(previous, next, |next|, commands, virtualOrder, s)
    ensures WellFormed(previous) && WellFormed(next) && Compiled(previous, next, deletions) ==> Compiled(previous, next, commands)
  {
    commands, virtualOrder, s := deletions, v0, Kept(previous, Ids(next));
    ghost var wf, compiled := WellFormed(previous) && WellFormed(next), Compiled(previous, next, deletions);
    if wf {
      KeptStart(previous, next);
      KeptMembers(previous, Ids(next));
    }
    for i := 0 to |next|
      invariant wf ==> Inserting(previous, next, i, commands, virtualOrder, s)
      invariant wf && compiled ==> Compiled(previous, next, commands)
    {
      var block := next[i];
      if block.id in Ids(previous) {
        if wf {
          MembersSkip(Ids(previous), Ids(next), i, virtualOrder);
          MembersSkip(Ids(previous), Ids(next), i, Ids(s));
        }
        continue;
      }
      if wf { s := InsertingNext(previous, next, i, commands, virtualOrder, s); }
      if wf { GetAt(next, i); }
      if wf && compiled { CompiledOne(previous, next, commands, Insert(block, PreviousId(next, i))); }
      commands := commands + [Insert(Get(next, block.id), PreviousId(next, i))];
      virtualOrder := InsertAt(virtualOrder, i, block.id);
    }
  }

  // ---- moving: both lists grow the same finished front ----

  /** `ids` is the finished front of `n` followed by the blocks that are still to be placed. */
  ghost predicate Fronted(n: seq<string>, i: nat, ids: seq<string>, rest: seq<string>) {
    && i <= |n| && NoDup(ids) && ids == n[..i] + rest
    && forall x :: x in rest <==> x in n[i..]
  }

  lemma {:induction false} FrontStart(p: seq<string>, n: seq<string>, ids: seq<string>)
    requires NoDup(ids) && Members(p, n, |n|, ids)
    ensures Fronted(n, 0, ids, ids) && InOrderOf(ids, ids)
  {
    forall a | 0 <= a < |ids| ensures IndexOf(ids, ids[a]) == a { IndexOfAt(ids, a); }
  }

  /** Taking the next block out of the rest and putting it behind the front. */
  lemma {:induction false} FrontNext(p: seq<string>, n: seq<string>, v: seq<string>, i: nat, ids: seq<string>, rest: seq<string>, c: nat)
    requires NoDup(n) && i < |n| && Fronted(n, i, ids, rest) && c < |rest| && rest[c] == n[i]
    ensures var t := rest[..c] + rest[c + 1..];
      && Fronted(n, i + 1, n[..i + 1] + t, t)
      && (InOrderOf(v, rest) ==> InOrderOf(v, t))
      && (ServerOrder(p, n, rest) ==> ServerOrder(p, n, t))
  {
    forall a, b | 0 <= a < b < |rest| ensures rest[a] != rest[b] { assert ids[i + a] == rest[a] && ids[i + b] == rest[b]; }
    TakeOut(p, n, v, i, rest, c);
    FrontNoDup(n, i + 1, rest[..c] + rest[c + 1..]);
  }

  lemma {:induction false} FrontNoDup(n: seq<string>, i: nat, t: seq<string>)
    requires NoDup(n) && i <= |n| && NoDup(t) && forall x | x in t :: x in n[i..]
    ensures NoDup(n[..i] + t)
  {
    var all := n[..i] + t;
    forall a, b | 0 <= a < b < |all| ensures all[a] != all[b] {
      if a < i <= b {
        assert t[b - i] in t;
        LateIndex(n, i, t[b - i]);
        IndexOfAt(n, a);
      }
    }
  }

  lemma {:induction false} SplicedMove(n: seq<string>, i: nat, ids: seq<string>, rest: seq<string>, c: nat)
    requires i < |n| && Fronted(n, i, ids, rest) && c < |rest| && rest[c] == n[i]
    ensures IndexOf(ids, n[i]) == i + c
    ensures InsertAt(RemoveAt(ids, IndexOf(ids, n[i])), i, n[i]) == n[..i + 1] + (rest[..c] + rest[c + 1..])
  {
    assert ids[i + c] == n[i];
    IndexOfAt(ids, i + c);
    var u := RemoveAt(ids, i + c);
    assert u == n[..i] + (rest[..c] + rest[c + 1..]);
    assert u[..i] == n[..i] && u[i..] == rest[..c] + rest[c + 1..];
    assert n[..i] + [n[i]] == n[..i + 1];
  }

  lemma {:induction false} InsertAfterPut(u: seq<Block>, b: Block, after: string)
    requires after == "" || after in Ids(u)
    ensures InsertAfter(u, b, after) == Ok(Put(u, if after == "" then 0 else IndexOf(Ids(u), after) + 1, b))
  {
    assert u[..0] + [b] + u[0..] == [b] + u;
  }

  lemma {:induction false} MoveApplies(s: seq<Block>, j: nat, after: string)
    requires j < |s| && NoDup(Ids(s)) && s[j].id != ""
    ensures ListApply(s, Move(s[j].id, after)) == InsertAfter(Without(s, j), s[j], after)
  {
    assert Ids(s)[j] == s[j].id;
    IndexOfAt(Ids(s), j);
  }

  lemma {:induction false} WithoutIds(s: seq<Block>, n: seq<string>, i: nat, rest: seq<string>, c: nat)
    requires i <= |n| && c < |rest| && Ids(s) == n[..i] + rest && NoDup(Ids(s))
    ensures Ids(Without(s, i + c)) == n[..i] + (rest[..c] + rest[c + 1..])
    ensures NoDup(Ids(Without(s, i + c)))
  {
    var u, j := Ids(Without(s, i + c)), i + c;
    forall a | 0 <= a < |u| ensures u[a] == Ids(s)[if a < j then a else a + 1] { }
  }

  lemma {:induction false} PutBehindFront(u: seq<Block>, n: seq<string>, i: nat, rest: seq<string>, b: Block)
    requires i < |n| && Ids(u) == n[..i] + rest && b.id == n[i]
    ensures Ids(Put(u, i, b)) == n[..i + 1] + rest
  {
    PutIds(u, i, b);
    assert Ids(u)[..i] == n[..i] && Ids(u)[i..] == rest;
    assert n[..i] + [n[i]] == n[..i + 1];
  }

  lemma {:induction false} ServerMove(next: seq<Block>, i: nat, s: seq<Block>, rest: seq<string>, c: nat) returns (t: seq<Block>)
    requires WellFormed(next) && i < |next| && Fronted(Ids(next), i, Ids(s), rest) && c < |rest| && rest[c] == next[i].id
    ensures ListApply(s, Move(next[i].id, PreviousId(next, i))) == Ok(t)
    ensures Ids(t) == Ids(next)[..i + 1] + (rest[..c] + rest[c + 1..])
    ensures forall x | x in t :: x in s
  {
    var n, j, after := Ids(next), i + c, PreviousId(next, i);
    MovedBlock(next, i, s, rest, c);
    var u := Without(s, j);
    WithoutIds(s, n, i, rest, c);
    PlaceBehind(next, i, u, rest[..c] + rest[c + 1..], s[j]);
    MoveApplies(s, j, after);
    t := Put(u, i, s[j]);
    PutMembers(u, i, s[j]);
  }

  lemma {:induction false} MovedBlock(next: seq<Block>, i: nat, s: seq<Block>, rest: seq<string>, c: nat)
    requires WellFormed(next) && i < |next| && Ids(s) == Ids(next)[..i] + rest && c < |rest| && rest[c] == next[i].id
    ensures i + c < |s| && s[i + c].id == next[i].id && next[i].id != ""
  {
    assert Ids(s)[i + c] == rest[c];
    assert Ids(next)[i] == next[i].id;
  }

  /** Once the first `i` blocks are in front, "behind the previous block" is index `i`. */
  lemma {:induction false} PlaceBehind(next: seq<Block>, i: nat, u: seq<Block>, rest: seq<string>, b: Block)
    requires WellFormed(next) && i < |next| && Ids(u) == Ids(next)[..i] + rest && NoDup(Ids(u)) && b.id == next[i].id
    ensures InsertAfter(u, b, PreviousId(next, i)) == Ok(Put(u, i, b))
    ensures Ids(Put(u, i, b)) == Ids(next)[..i + 1] + rest
  {
    var n, after := Ids(next), PreviousId(next, i);
    if i > 0 {
      assert n[i - 1] == after && n[i - 1] in n && Ids(u)[i - 1] == after;
      IndexOfAt(Ids(u), i - 1);
    }
    InsertAfterPut(u, b, after);
    PutBehindFront(u, n, i, rest, b);
  }

  /** What holds of the splicer's list while the first `i` blocks are in place. */
  ghost predicate SplicerAt(n: seq<string>, v0: seq<string>, i: nat, v: seq<string>, rest: seq<string>) {
    Fronted(n, i, v, rest) && InOrderOf(v0, rest)
  }

  /** What holds of the server's document then. */
  ghost predicate ServerAt(previous: seq<Block>, next: seq<Block>, i: nat, commands: seq<Command>, s: seq<Block>, rest: seq<string>) {
    && Replay(previous, commands) == Ok(s) && Origin(previous, next, s)
    && Fronted(Ids(next), i, Ids(s), rest) && ServerOrder(Ids(previous), Ids(next), rest)
  }

  lemma {:induction false} MovingStart(previous: seq<Block>, next: seq<Block>, commands: seq<Command>, v: seq<string>, s: seq<Block>)
    requires WellFormed(previous) && WellFormed(next) && Inserting(previous, next, |next|, commands, v, s)
    ensures SplicerAt(Ids(next), v, 0, v, v)
    ensures ServerAt(previous, next, 0, commands, s, Ids(s))
    ensures SplicerOrder(Ids(previous), Ids(next), v) && forall x | x in Ids(next) :: x in v
  {
    OrderNoDup(Ids(previous), Ids(next), Ids(s));
    FrontStart(Ids(previous), Ids(next), v);
    FrontStart(Ids(previous), Ids(next), Ids(s));
  }

  lemma {:induction false} SplicerMoves(p: seq<string>, n: seq<string>, v0: seq<string>, i: nat, v: seq<string>, rest: seq<string>)
    returns (rest': seq<string>)
    requires NoDup(n) && i < |n| && SplicerAt(n, v0, i, v, rest)
    ensures IndexOf(v, n[i]) >= 0
    ensures SplicerAt(n, v0, i + 1, InsertAt(RemoveAt(v, IndexOf(v, n[i])), i, n[i]), rest')
  {
    var c := PlaceOf(n, i, v, rest);
    rest' := rest[..c] + rest[c + 1..];
    SplicerMove(p, n, v0, i, v, rest, c);
  }

  lemma {:induction false} SplicerMove(p: seq<string>, n: seq<string>, v0: seq<string>, i: nat, v: seq<string>, rest: seq<string>, c: nat)
    requires NoDup(n) && i < |n| && SplicerAt(n, v0, i, v, rest) && c < |rest| && rest[c] == n[i]
    ensures IndexOf(v, n[i]) >= 0
    ensures SplicerAt(n, v0, i + 1, InsertAt(RemoveAt(v, IndexOf(v, n[i])), i, n[i]), rest[..c] + rest[c + 1..])
  {
    var w := InsertAt(RemoveAt(v, IndexOf(v, n[i])), i, n[i]);
    SplicedMove(n, i, v, rest, c);
    var t := rest[..c] + rest[c + 1..];
    assert w == n[..i + 1] + t;
    assert SplicerAt(n, v0, i + 1, n[..i + 1] + t, t) by { SplicerNext(p, n, v0, i, v, rest, c); }
  }

  /** The next block is somewhere in the rest. */
  lemma {:induction false} PlaceOf(n: seq<string>, i: nat, ids: seq<string>, rest: seq<string>) returns (c: nat)
    requires i < |n| && Fronted(n, i, ids, rest)
    ensures c < |rest| && rest[c] == n[i]
  {
    assert n[i..][0] == n[i] && n[i] in rest;
    c :| c < |rest| && rest[c] == n[i];
  }

  lemma {:induction false} SplicerNext(p: seq<string>, n: seq<string>, v0: seq<string>, i: nat, v: seq<string>, rest: seq<string>, c: nat)
    requires NoDup(n) && i < |n| && SplicerAt(n, v0, i, v, rest) && c < |rest| && rest[c] == n[i]
    ensures SplicerAt(n, v0, i + 1, n[..i + 1] + (rest[..c] + rest[c + 1..]), rest[..c] + rest[c + 1..])
  {
    FrontNext(p, n, v0, i, v, rest, c);
  }

  /** Removing a block and putting it back at the same index changes nothing. */
  lemma {:induction false} MoveInPlace(v: seq<string>, i: nat)
    requires NoDup(v) && i < |v|
    ensures IndexOf(v, v[i]) == i && InsertAt(RemoveAt(v, i), i, v[i]) == v
  {
    IndexOfAt(v, i);
    var u := RemoveAt(v, i);
    assert u[..i] == v[..i] && u[i..] == v[i + 1..];
  }

  lemma {:induction false} ServerMoves(previous: seq<Block>, next: seq<Block>, i: nat, commands: seq<Command>, s: seq<Block>, rest: seq<string>)
    returns (s': seq<Block>, rest': seq<string>)
    requires WellFormed(next) && i < |next| && ServerAt(previous, next, i, commands, s, rest)
    ensures ServerAt(previous, next, i + 1, commands + [Move(next[i].id, PreviousId(next, i))], s', rest')
  {
    var p, n, id := Ids(previous), Ids(next), next[i].id;
    var d := PlaceOf(n, i, Ids(s), rest);
    FrontNext(p, n, [], i, Ids(s), rest, d);
    s' := ServerMove(next, i, s, rest, d);
    ReplayAppend(previous, commands, Move(id, PreviousId(next, i)));
    rest' := rest[..d] + rest[d + 1..];
  }

  /** The block is already in front for the splicer: no command, and the server has it in front too. */
  lemma {:induction false} ServerStays(previous: seq<Block>, next: seq<Block>, i: nat, commands: seq<Command>, s: seq<Block>, rest: seq<string>)
    requires WellFormed(next) && i < |next| && ServerAt(previous, next, i, commands, s, rest)
    requires rest != [] && rest[0] == next[i].id
    ensures ServerAt(previous, next, i + 1, commands, s, rest[1..])
  {
    FrontStay(Ids(previous), Ids(next), i, Ids(s), rest);
  }

  lemma {:induction false} FrontStay(p: seq<string>, n: seq<string>, i: nat, ids: seq<string>, rest: seq<string>)
    requires NoDup(n) && i < |n| && Fronted(n, i, ids, rest) && rest != [] && rest[0] == n[i]
    requires ServerOrder(p, n, rest)
    ensures Fronted(n, i + 1, ids, rest[1..]) && ServerOrder(p, n, rest[1..])
  {
    FrontNext(p, n, [], i, ids, rest, 0);
    Regroup(n, i, rest);
  }

  lemma {:induction false} Regroup(n: seq<string>, i: nat, rest: seq<string>)
    requires i < |n| && rest != [] && rest[0] == n[i]
    ensures rest[..0] + rest[1..] == rest[1..]
    ensures n[..i + 1] + rest[1..] == n[..i] + rest
  {
    assert n[..i + 1] == n[..i] + [n[i]];
    assert rest == [rest[0]] + rest[1..];
  }

  lemma {:induction false} SplicerFront(p: seq<string>, n: seq<string>, v0: seq<string>, i: nat, v: seq<string>, restV: seq<string>, restS: seq<string>)
    requires NoDup(n) && NoDup(p) && i < |n| && SplicerOrder(p, n, v0) && (forall x | x in n :: x in v0)
    requires SplicerAt(n, v0, i, v, restV) && ServerOrder(p, n, restS) && (forall x :: x in restS <==> x in n[i..])
    requires i < |v| && v[i] == n[i]
    ensures restS != [] && restS[0] == n[i]
  {
    assert v[i] == restV[0];
    HeadsAgree(p, n, v0, i, restV, restS);
  }

  lemma {:induction false} FrontLength(n: seq<string>, i: nat, ids: seq<string>, rest: seq<string>)
    requires i < |n| && Fronted(n, i, ids, rest)
    ensures i < |ids|
  {
    assert n[i..][0] in rest;
  }

  /** One round of the loop over the next document, for both orders at once. */
  lemma {:induction false} MoveRound(previous: seq<Block>, next: seq<Block>, v0: seq<string>, i: nat, commands: seq<Command>,
                  v: seq<string>, restV: seq<string>, s: seq<Block>, restS: seq<string>)
    returns (restV': seq<string>, s': seq<Block>, restS': seq<string>)
    requires WellFormed(previous) && WellFormed(next) && i < |next|
    requires SplicerOrder(Ids(previous), Ids(next), v0) && (forall x | x in Ids(next) :: x in v0)
    requires SplicerAt(Ids(next), v0, i, v, restV) && ServerAt(previous, next, i, commands, s, restS)
    ensures var id, at := next[i].id, IndexOf(v, next[i].id);
      && at >= 0 && i < |v|
      && SplicerAt(Ids(next), v0, i + 1, if v[i] == id then v else InsertAt(RemoveAt(v, at), i, id), restV')
      && ServerAt(previous, next, i + 1, if v[i] == id then commands else commands + [Move(id, PreviousId(next, i))], s', restS')
  {
    restV' := SplicerMoves(Ids(previous), Ids(next), v0, i, v, restV);
    FrontLength(Ids(next), i, v, restV);
    if v[i] == next[i].id {
      MoveInPlace(v, i);
      SplicerFront(Ids(previous), Ids(next), v0, i, v, restV, restS);
      ServerStays(previous, next, i, commands, s, restS);
      s', restS' := s, restS[1..];
    } else {
      s', restS' := ServerMoves(previous, next, i, commands, s, restS);
    }
  }

  method MovePhase(previous: seq<Block>, next: seq<Block>, insertions: seq<Command>, v0: seq<string>, ghost s0: seq<Block>)
    returns (commands: seq<Command>, ghost s: seq<Block>)
    requires WellFormed(previous) && WellFormed(next) ==> Inserting(previous, next, |next|, insertions, v0, s0)
    ensures WellFormed(previous) && WellFormed(next) ==>
      Replay(previous, commands) == Ok(s) && Ids(s) == Ids(next) && Origin(previous, next, s)
    ensures Compiled(previous, next, insertions) ==> Compiled(previous, next, commands)
  {
    var virtualOrder;
    commands, virtualOrder, s := insertions, v0, s0;
    ghost var restV, restS := v0, Ids(s0);
    ghost var wf, compiled := WellFormed(previous) && WellFormed(next), Compiled(previous, next, insertions);
    if wf { MovingStart(previous, next, insertions, v0, s0); }
    for i := 0 to |next|
      invariant wf ==> SplicerAt(Ids(next), v0, i, virtualOrder, restV) && ServerAt(previous, next, i, commands, s, restS)
      invariant compiled ==> Compiled(previous, next, commands)
    {
      var id := next[i].id;
      var currentIndex := IndexOf(virtualOrder, id);
      if wf { restV, s, restS := MoveRound(previous, next, v0, i, commands, virtualOrder, restV, s, restS); }
      if i < |virtualOrder| && virtualOrder[i] == id { continue; }
      if currentIndex == -1 { continue; }
      virtualOrder := InsertAt(RemoveAt(virtualOrder, currentIndex), i, id);
      assert Ids(next)[i] == id;
      if compiled { CompiledOne(previous, next, commands, Move(id, PreviousId(next, i))); }
      commands := commands + [Move(id, PreviousId(next, i))];
    }
    if wf { FrontDone(Ids(next), Ids(s), restS); }
  }

  lemma {:induction false} FrontDone(n: seq<string>, ids: seq<string>, rest: seq<string>)
    requires Fronted(n, |n|, ids, rest)
    ensures ids == n
  {
    NonEmpty(rest);
  }

  lemma {:induction false} NonEmpty(s: seq<string>)
    ensures s == [] || exists x :: x in s
  {
    if s != [] { assert s[0] in s; }
  }

  // ---- updating content ----

  lemma {:induction false} OriginAt(previous: seq<Block>, next: seq<Block>, s: seq<Block>, i: nat)
    requires WellFormed(previous) && WellFormed(next) && i < |next|
    requires Origin(previous, next, s) && Ids(s) == Ids(next)
    ensures s[i].id == next[i].id
    ensures s[i].id in Ids(previous) ==> s[i] == Get(previous, next[i].id)
    ensures s[i].id !in Ids(previous) ==> s[i] == next[i]
  {
    assert Ids(s)[i] == Ids(next)[i] && s[i] in s;
    if s[i].id in Ids(previous) {
      var j :| 0 <= j < |previous| && previous[j] == s[i];
      GetAt(previous, j);
    } else {
      var j :| 0 <= j < |next| && next[j] == s[i];
      assert Ids(next)[j] == Ids(next)[i];
    }
  }

  method UpdatePhase(previous: seq<Block>, next: seq<Block>, moves: seq<Command>, ghost s0: seq<Block>)
    returns (commands: seq<Command>)
    requires WellFormed(previous) && WellFormed(next) ==>
      Replay(previous, moves) == Ok(s0) && Ids(s0) == Ids(next) && Origin(previous, next, s0)
    ensures WellFormed(previous) && WellFormed(next) ==> Replay(previous, commands) == Ok(next)
    ensures Compiled(previous, next, moves) ==> Compiled(previous, next, commands)
  {
    commands := moves;
    ghost var wf := WellFormed(previous) && WellFormed(next);
    if wf { assert |s0| == |Ids(next)|; assert next[..0] + s0[0..] == s0; }
    for i := 0 to |next|
      invariant wf ==> |s0| == |next| && Replay(previous, commands) == Ok(next[..i] + s0[i..])
      invariant Compiled(previous, next, moves) ==> Compiled(previous, next, commands)
    {
      var id := next[i].id;
      if wf {
        OriginAt(previous, next, s0, i);
        UpdateAt(previous, next, s0, i);
      }
      if id in Ids(previous) && Get(previous, id) != Get(next, id) {
        ReplayAppend(previous, commands, Update(Get(next, id)));
        if Compiled(previous, next, moves) { CompiledOne(previous, next, commands, Update(Get(next, id))); }
        commands := commands + [Update(Get(next, id))];
      }
    }
    if wf { assert next[..|next|] + s0[|next|..] == next; }
  }

  lemma {:induction false} MixedIds(next: seq<Block>, s0: seq<Block>, i: nat)
    requires i <= |next| == |s0| && Ids(s0) == Ids(next)
    ensures Ids(next[..i] + s0[i..]) == Ids(next)
  {
    var s := next[..i] + s0[i..];
    forall a | 0 <= a < |s| ensures s[a].id == Ids(next)[a] { assert Ids(s0)[a] == Ids(next)[a]; }
  }

  lemma {:induction false} UpdateApplies(s: seq<Block>, i: nat, b: Block)
    requires i < |s| && s[i].id == b.id != "" && NoDup(Ids(s))
    ensures ListApply(s, Update(b)) == Ok(s[i := b])
  {
    assert Ids(s)[i] == b.id;
    IndexOfAt(Ids(s), i);
  }

  lemma {:induction false} UpdateAt(previous: seq<Block>, next: seq<Block>, s0: seq<Block>, i: nat)
    requires WellFormed(next) && i < |next| && |s0| == |next| && Ids(s0) == Ids(next)
    ensures Get(next, next[i].id) == next[i]
    ensures ListApply(next[..i] + s0[i..], Update(next[i])) == Ok(next[..i + 1] + s0[i + 1..])
    ensures s0[i] == next[i] ==> next[..i] + s0[i..] == next[..i + 1] + s0[i + 1..]
  {
    GetAt(next, i);
    var s := next[..i] + s0[i..];
    MixedIds(next, s0, i);
    assert Ids(next)[i] == next[i].id && next[i].id in Ids(next) && Ids(s)[i] == s[i].id;
    UpdateApplies(s, i, next[i]);
    MixedStep(next, s0, i);
  }

  lemma {:induction false} MixedStep(next: seq<Block>, s0: seq<Block>, i: nat)
    requires i < |next| == |s0|
    ensures var s := next[..i] + s0[i..];
      && s[i := next[i]] == next[..i + 1] + s0[i + 1..]
      && (s0[i] == next[i] ==> s == next[..i + 1] + s0[i + 1..])
  {
    var s := next[..i] + s0[i..];
    assert s[i] == s0[i] && s == s[i := s[i]];
  }

  /**
   * Each block that the editor added has an id of bounded length, and each block that it added or changed makes a
   * payload within the bounds of operations.
   */
  predicate Fits(previous: seq<Block>, next: seq<Block>) {
    forall i | 0 <= i < |next| ::
      if next[i].id !in Ids(previous) then Admitted(Insert(next[i], PreviousId(next, i)))
      else Get(previous, next[i].id) != next[i] ==> PayloadLimits.Bounded(PayloadLimits.Default, Payload(Update(next[i])))
  }

  lemma {:induction false} FittingAdmitted(previous: seq<Block>, next: seq<Block>, c: Command)
    requires WellFormed(next) && Fits(previous, next) && IsStep(previous, next, c)
    requires forall id | id in Ids(previous) :: GoodId(id)
    ensures Admitted(c)
  {
    match c
    case Insert(b, after) =>
      var i :| 0 <= i < |next| && next[i] == b && after == PreviousId(next, i);
      assert next[i].id !in Ids(previous);
    case Update(b) =>
      var i :| 0 <= i < |next| && next[i] == b;
      assert next[i].id in Ids(previous);
    case Delete(_) => BlocklessBounded(c);
    case Move(id, _) =>
      BlocklessBounded(c);
      var i := IndexOf(Ids(next), id);
      assert next[i].id == id;
  }

  /** A block that does not fit is carried by rejected commands only. */
  lemma {:induction false} MisfitRejected(previous: seq<Block>, next: seq<Block>, i: nat, c: Command)
    requires WellFormed(next) && i < |next| && IsStep(previous, next, c) && Carries(c, next[i])
    requires if next[i].id !in Ids(previous) then !Admitted(Insert(next[i], PreviousId(next, i)))
             else !PayloadLimits.Bounded(PayloadLimits.Default, Payload(Update(next[i])))
    ensures !Admitted(c)
  {
    if c.Insert? {
      var j :| 0 <= j < |next| && next[j] == c.block && c.after == PreviousId(next, j);
      SameIndex(next, i, j);
      assert c == Insert(next[i], PreviousId(next, i));
    } else {
      assert c == Update(next[i]);
    }
  }

  lemma {:induction false} SameIndex(s: seq<Block>, i: nat, j: nat)
    requires WellFormed(s) && i < |s| && j < |s| && s[i] == s[j]
    ensures i == j
  {
    assert Ids(s)[i] == Ids(s)[j];
  }

  /** What commands that rebuild the next document on the list do to a server that shows the previous one. */
  lemma {:induction false} ServerFollows(state: seq<Record>, previous: seq<Block>, next: seq<Block>, commands: seq<Command>)
    requires WellFormed(previous) && WellFormed(next) && Replay(previous, commands) == Ok(next) && Compiled(previous, next, commands)
    requires Valid(state) && Addressable(state) && View(state) == previous
    ensures ServerReplay(state, commands).Ok? <==> Fits(previous, next)
    ensures View(ServerRun(state, commands)) == next <==> Fits(previous, next)
    ensures Valid(ServerRun(state, commands)) && Addressable(ServerRun(state, commands))
  {
    ServerReplays(state, commands);
    RunsStayAddressable(state, commands);
    ViewIsAddressable(state);
    CompiledAll(previous, next, commands);
    if Fits(previous, next) {
      forall c | c in commands ensures Admitted(c) { FittingAdmitted(previous, next, c); }
    } else {
      MisfitStaysOut(state, previous, next, commands);
    }
  }

  lemma {:induction false} MisfitStaysOut(state: seq<Record>, previous: seq<Block>, next: seq<Block>, commands: seq<Command>)
    requires WellFormed(previous) && WellFormed(next) && !Fits(previous, next)
    requires forall c | c in commands :: IsStep(previous, next, c)
    requires Valid(state) && Addressable(state) && View(state) == previous
    ensures View(ServerRun(state, commands)) != next
  {
    RunsStayAddressable(state, commands);
    ViewIsAddressable(state);
    ViewHolds(state);
    ViewHolds(ServerRun(state, commands));
    var i :| 0 <= i < |next| && if next[i].id !in Ids(previous) then !Admitted(Insert(next[i], PreviousId(next, i)))
      else Get(previous, next[i].id) != next[i] && !PayloadLimits.Bounded(PayloadLimits.Default, Payload(Update(next[i])));
    forall c | c in commands && Carries(c, next[i]) ensures !Admitted(c) { MisfitRejected(previous, next, i, c); }
    NotThere(previous, next[i]);
    forall r | r in state ensures r.block != next[i] { }
    StaysOut(state, commands, next[i]);
    assert next[i] in next;
  }

  lemma {:induction false} NotThere(previous: seq<Block>, b: Block)
    requires WellFormed(previous) && (b.id in Ids(previous) ==> Get(previous, b.id) != b)
    ensures b !in previous
  {
    if j :| 0 <= j < |previous| && previous[j] == b {
      assert Ids(previous)[j] == b.id;
      GetAt(previous, j);
    }
  }

  /**
   * `diffBlockNoteDocuments`: replayed on the previous document, the commands give the next one. Any server state that
   * shows the previous document comes to show the next one, and rejects no command, if and only if the blocks fit.
   */
  method DiffBlockNoteDocuments(previous: seq<Block>, next: seq<Block>) returns (commands: seq<Command>)
    ensures WellFormed(previous) && WellFormed(next) ==> Replay(previous, commands) == Ok(next)
    ensures WellFormed(previous) && WellFormed(next) ==>
      forall state | Valid(state) && Addressable(state) && View(state) == previous ::
        && (ServerReplay(state, commands).Ok? <==> Fits(previous, next))
        && (View(ServerRun(state, commands)) == next <==> Fits(previous, next))
        && Valid(ServerRun(state, commands)) && Addressable(ServerRun(state, commands))
  {
    var virtualOrder;
    commands, virtualOrder := DeletePhase(previous, next);
    ghost var s;
    commands, virtualOrder, s := InsertPhase(previous, next, commands, virtualOrder);
    commands, s := MovePhase(previous, next, commands, virtualOrder, s);
    commands := UpdatePhase(previous, next, commands, s);
    forall state | Valid(state) && Addressable(state) && View(state) == previous && WellFormed(previous) && WellFormed(next)
      ensures ServerReplay(state, commands).Ok? <==> Fits(previous, next)
      ensures View(ServerRun(state, commands)) == next <==> Fits(previous, next)
      ensures Valid(ServerRun(state, commands)) && Addressable(ServerRun(state, commands))
    {
      ServerFollows(state, previous, next, commands);
    }
  }

  /**
   * An editor that adds a block under an id of 513 characters and a second one behind it: the list takes both
   * insertions, the server rejects both and stays empty.
   */
  lemma {:induction false} LongIdIsRejected(body: Json)
    ensures var long := Block(seq(513, _ => 'x'), body);
            var commands := [Insert(long, ""), Insert(Block("b", body), long.id)];
      && Replay([], commands) == Ok([long, Block("b", body)]) && !Fits([], [long, Block("b", body)])
      && Resolve([], commands[0]).Ok? && ServerApply([], commands[0]).Err? && ServerRun([], commands) == []
  {
    var long, short := Block(seq(513, _ => 'x'), body), Block("b", body);
    var commands := [Insert(long, ""), Insert(short, long.id)];
    assert commands[1..] == [commands[1]] && commands[1..][1..] == [];
    TwoInsertions(long, short);
    assert ServerApply([], commands[1]).Err?;
    assert ServerRun([], commands[1..]) == [];
    assert long == [long, short][0] && !Admitted(Insert(long, PreviousId([long, short], 0)));
  }

  lemma {:induction false} TwoInsertions(a: Block, b: Block)
    requires a.id != "" && b.id != "" && a.id != b.id
    ensures Replay([], [Insert(a, ""), Insert(b, a.id)]) == Ok([a, b])
  {
    var commands := [Insert(a, ""), Insert(b, a.id)];
    assert Ids([]) == [] && Ids([a]) == [a.id];
    IndexOfAt(Ids([a]), 0);
    InsertApplies([], a, "");
    InsertApplies([a], b, a.id);
    assert Put([], 0, a) == [a] && Put([a], 1, b) == [a, b];
    assert commands[1..] == [commands[1]] && commands[1..][1..] == [];
    assert Replay([a], commands[1..]) == Ok([a, b]);
  }
}
