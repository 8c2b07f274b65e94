/** `planRoomEvictions`: which rooms leave memory. */
module RoomEvictions {
  import opened Strings
  import opened Distinct

  datatype Entry = Entry(key: string, lastAccessAt: int, activeConnections: nat, queuedOperations: nat)
  datatype Reason = Idle | Capacity
  datatype Decision = Decision(key: string, reason: Reason)
  datatype Policy = Policy(idleTtl: nat, maxWarmRooms: nat)

  predicate Evictable(e: Entry) { e.activeConnections == 0 && e.queuedOperations == 0 }

  function Candidates(entries: seq<Entry>): seq<Entry> {
    if entries == [] then []
    else if Evictable(entries[0]) then [entries[0]] + Candidates(entries[1..])
    else Candidates(entries[1..])
  }

  /** Least recently used first; equal times are ordered by key. */
  predicate Earlier(a: Entry, b: Entry) {
    a.lastAccessAt < b.lastAccessAt || (a.lastAccessAt == b.lastAccessAt && !Below(b.key, a.key))
  }

  function Placed(e: Entry, sorted: seq<Entry>): seq<Entry> {
    if sorted == [] || Earlier(e, sorted[0]) then [e] + sorted else [sorted[0]] + Placed(e, sorted[1..])
  }

  function Arranged(entries: seq<Entry>): seq<Entry> {
    if entries == [] then [] else Placed(entries[0], Arranged(entries[1..]))
  }

  function Order(entries: seq<Entry>): seq<Entry> { Arranged(Candidates(entries)) }

  function Keys(entries: seq<Entry>): seq<string> {
    seq(|entries|, i requires 0 <= i < |entries| => entries[i].key)
  }

  ghost predicate InOrder(s: seq<Entry>) { forall i, j :: 0 <= i < j < |s| ==> Earlier(s[i], s[j]) }

  lemma {:induction false} PlacedPermutes(e: Entry, sorted: seq<Entry>)
    ensures multiset(Placed(e, sorted)) == multiset(sorted) + multiset{e}
  {
    if sorted != [] && !Earlier(e, sorted[0]) {
      PlacedPermutes(e, sorted[1..]);
      assert sorted == [sorted[0]] + sorted[1..];
    }
  }

  lemma {:induction false} PlacedMembers(e: Entry, sorted: seq<Entry>)
    ensures forall x :: x in Placed(e, sorted) ==> x == e || x in sorted
  {
    if sorted != [] && !Earlier(e, sorted[0]) { PlacedMembers(e, sorted[1..]); }
  }

  lemma {:induction false} PlacedInOrder(e: Entry, sorted: seq<Entry>)
    requires InOrder(sorted)
    ensures InOrder(Placed(e, sorted))
  {
    if sorted == [] { return; }
    if Earlier(e, sorted[0]) {
      forall j | 0 <= j < |sorted| ensures Earlier(e, sorted[j]) {
        if j > 0 { EarlierTrans(e, sorted[0], sorted[j]); }
      }
    } else {
      var rest := Placed(e, sorted[1..]);
      PlacedInOrder(e, sorted[1..]);
      PlacedMembers(e, sorted[1..]);
      BelowTrichotomy(e.key, sorted[0].key);
      forall j | 0 <= j < |rest| ensures Earlier(sorted[0], rest[j]) {
        assert rest[j] in rest;
        if rest[j] != e { var k :| 0 <= k < |sorted[1..]| && sorted[1..][k] == rest[j]; }
      }
    }
  }

  lemma {:induction false} EarlierTrans(a: Entry, b: Entry, c: Entry)
    requires Earlier(a, b) && Earlier(b, c)
    ensures Earlier(a, c)
  {
    if a.lastAccessAt == c.lastAccessAt && Below(c.key, a.key) {
      BelowTrichotomy(a.key, b.key);
      BelowTrichotomy(b.key, c.key);
      if a.key != b.key { BelowTransitive(c.key, a.key, b.key); }
    }
  }

  lemma {:induction false} ArrangedInOrder(entries: seq<Entry>)
    ensures InOrder(Arranged(entries)) && multiset(Arranged(entries)) == multiset(entries)
  {
    if entries != [] {
      ArrangedInOrder(entries[1..]);
      PlacedInOrder(entries[0], Arranged(entries[1..]));
      PlacedPermutes(entries[0], Arranged(entries[1..]));
      assert entries == [entries[0]] + entries[1..];
    }
  }

  function Max(a: int, b: int): int { if a >= b then a else b }
  function Min(a: int, b: int): int { if a <= b then a else b }

  predicate IsIdle(e: Entry, policy: Policy, now: int) { now - e.lastAccessAt >= policy.idleTtl }

  function IdleCount(order: seq<Entry>, policy: Policy, now: int): (n: nat)
    ensures n <= |order|
  {
    if order == [] || !IsIdle(order[0], policy, now) then 0 else 1 + IdleCount(order[1..], policy, now)
  }

  /** In this order the idle rooms come first. */
  lemma {:induction false} IdlePrefix(order: seq<Entry>, policy: Policy, now: int)
    requires InOrder(order)
    ensures forall i :: 0 <= i < |order| ==> (IsIdle(order[i], policy, now) <==> i < IdleCount(order, policy, now))
  {
    if order != [] && IsIdle(order[0], policy, now) {
      IdlePrefix(order[1..], policy, now);
      forall i | 0 <= i < |order| ensures IsIdle(order[i], policy, now) <==> i < IdleCount(order, policy, now) {
        if i > 0 { assert order[i] == order[1..][i - 1]; }
      }
    }
  }

  /** How many rooms leave: all idle ones, and more while the cache is over its bound. */
  function Evicted(entries: seq<Entry>, policy: Policy, now: int): int {
    var order := Order(entries);
    Max(IdleCount(order, policy, now), Min(|order|, Max(0, |entries| - policy.maxWarmRooms)))
  }

  /** The candidates are exactly the rooms without connections and queued operations, oldest first, each once. */
  lemma {:induction false} OrderIsRight(entries: seq<Entry>)
    requires NoDup(Keys(entries))
    ensures InOrder(Order(entries)) && NoDup(Keys(Order(entries))) && |Order(entries)| <= |entries|
    ensures forall e :: e in Order(entries) <==> e in entries && Evictable(e)
  {
    ArrangedInOrder(Candidates(entries));
    CandidatesAre(entries);
    var order, c := Order(entries), Candidates(entries);
    assert forall e :: e in order <==> e in multiset(order);
    assert forall e :: e in c <==> e in multiset(c);
    assert |multiset(order)| == |order| && |multiset(c)| == |c|;
    SameKeys(c, order);
  }

  lemma {:induction false} SameKeys(c: seq<Entry>, order: seq<Entry>)
    requires multiset(c) == multiset(order) && NoDup(Keys(c))
    ensures NoDup(Keys(order))
  {
    forall i, j | 0 <= i < j < |c| ensures c[i] != c[j] { assert Keys(c)[i] != Keys(c)[j]; }
    Rearranged(c, order);
    forall i, j | 0 <= i < j < |order| ensures Keys(order)[i] != Keys(order)[j] {
      assert order[i] in order && order[j] in order;
      var m :| 0 <= m < |c| && c[m] == order[i];
      var n :| 0 <= n < |c| && c[n] == order[j];
      assert Keys(c)[m] != Keys(c)[n];
    }
  }

  lemma {:induction false} CandidatesAre(entries: seq<Entry>)
    requires NoDup(Keys(entries))
    ensures NoDup(Keys(Candidates(entries))) && |Candidates(entries)| <= |entries|
    ensures forall e :: e in Candidates(entries) <==> e in entries && Evictable(e)
  {
    if entries != [] {
      var rest := entries[1..];
      assert entries == [entries[0]] + rest;
      forall i, j | 0 <= i < j < |rest| ensures Keys(rest)[i] != Keys(rest)[j] { assert Keys(entries)[i + 1] != Keys(entries)[j + 1]; }
      CandidatesAre(rest);
      var c, cr := Candidates(entries), Candidates(rest);
      forall i, j | 0 <= i < j < |c| ensures Keys(c)[i] != Keys(c)[j] {
        if c == cr { assert Keys(cr)[i] != Keys(cr)[j]; }
        else if i > 0 { assert c[i] == cr[i - 1] && c[j] == cr[j - 1] && Keys(cr)[i - 1] != Keys(cr)[j - 1]; }
        else {
          assert c[j] == cr[j - 1] && cr[j - 1] in rest;
          var n :| 0 <= n < |rest| && rest[n] == c[j];
          assert Keys(entries)[0] != Keys(entries)[n + 1];
        }
      }
    }
  }

  lemma {:induction false} SelectedAre(order: seq<Entry>, selected: set<string>, idle: nat, i: nat)
    requires NoDup(Keys(order)) && idle <= |order| && i < |order|
    requires forall k :: k in selected <==> exists j :: 0 <= j < idle && order[j].key == k
    ensures order[i].key in selected <==> i < idle
  {
    if order[i].key in selected {
      var j :| 0 <= j < idle && order[j].key == order[i].key;
      assert Keys(order)[j] == Keys(order)[i];
    }
  }

  /** The plan is a prefix of the candidates, of exactly the length that the policy asks for. */
  method PlanRoomEvictions(entries: seq<Entry>, policy: Policy, now: int) returns (decisions: seq<Decision>)
    requires NoDup(Keys(entries))
    ensures |decisions| == Evicted(entries, policy, now) <= |Order(entries)|
    ensures forall i :: 0 <= i < |decisions| ==>
      decisions[i] == Decision(Order(entries)[i].key, if i < IdleCount(Order(entries), policy, now) then Idle else Capacity)
  {
    var order := Order(entries);
    OrderIsRight(entries);
    IdlePrefix(order, policy, now);
    ghost var idle := IdleCount(order, policy, now);
    decisions := [];
    var selected: set<string> := {};
    for i := 0 to |order|
      invariant |decisions| == Min(i, idle)
      invariant forall j :: 0 <= j < |decisions| ==> decisions[j] == Decision(order[j].key, Idle)
      invariant forall k :: k in selected <==> exists j :: 0 <= j < |decisions| && order[j].key == k
    {
      if now - order[i].lastAccessAt < policy.idleTtl { continue; }
      decisions := decisions + [Decision(order[i].key, Idle)];
      selected := selected + {order[i].key};
    }
    var remaining := |entries| - |decisions|;
    for i := 0 to |order|
      invariant idle <= |decisions| == Max(idle, i) && (i > idle ==> |entries| - i >= policy.maxWarmRooms)
      invariant remaining == |entries| - |decisions|
      invariant forall j :: 0 <= j < |decisions| ==> decisions[j] == Decision(order[j].key, if j < idle then Idle else Capacity)
    {
      if remaining <= policy.maxWarmRooms { break; }
      SelectedAre(order, selected, idle, i);
      if order[i].key in selected { continue; }
      decisions := decisions + [Decision(order[i].key, Capacity)];
      remaining := remaining - 1;
    }
  }

  /** A plan never names a room in use, never names one twice, and leaves the cache within its bound where it can. */
  lemma {:induction false} PlanIsSafe(entries: seq<Entry>, policy: Policy, now: int)
    requires NoDup(Keys(entries))
    ensures var n := Evicted(entries, policy, now);
      && 0 <= n <= |Order(entries)|
      && (forall i :: 0 <= i < n ==> Order(entries)[i] in entries && Evictable(Order(entries)[i]))
      && (forall i, j :: 0 <= i < j < n ==> Order(entries)[i].key != Order(entries)[j].key)
      && (|entries| - n > policy.maxWarmRooms ==> n == |Order(entries)|)
      && (forall i :: n <= i < |Order(entries)| ==> !IsIdle(Order(entries)[i], policy, now))
  {
    OrderIsRight(entries);
    var order := Order(entries);
    IdlePrefix(order, policy, now);
    forall i, j | 0 <= i < j < |order| ensures order[i].key != order[j].key { assert Keys(order)[i] != Keys(order)[j]; }
  }
}
