/** `CollaborationClient`: canonical state, pending queue and projection, and the handlers that change them. */
module Client {
  import opened Results
  import opened CommitStore

  datatype Outcome<+P> =
    | Accepted(id: string, version: nat, patches: P)
    | Rejected(id: string, version: nat, code: string)
    | ResyncRequired(id: string, version: nat)
    | RetryLater(id: string, version: nat)

  datatype Message<+S, +P> =
    | Snapshot(version: nat, state: S)
    | Canonical(version: nat, patches: P)
    | ReadyAt(version: nat)
    | ResultOf(outcome: Outcome<P>)

  datatype Wire = Submit(op: Operation) | Recover(since: nat) | Hello(known: nat)

  datatype Connection = Offline | Connecting | Online | Resyncing

  /** `ticket` stands for the identity of the queue entry and of the promise that its caller holds. */
  datatype Pending<+P> = Pending(
    ticket: nat, op: Operation, patches: P, bytes: nat, sent: bool,
    accepted: Option<Outcome<P>>, resync: Option<Outcome<P>>)

  /** A resolved promise; `at` is the client's canonical version at that moment. */
  datatype Settlement<+P> = Settlement(ticket: nat, outcome: Outcome<P>, at: nat)

  datatype Client<+S, +P> = Client(
    canonical: Option<S>,
    version: nat,
    projected: Option<S>,
    pending: seq<Pending<P>>,
    connection: Connection,
    open: bool,
    wire: seq<Wire>,
    settled: seq<Settlement<P>>,
    next: nat)

  datatype Limits = Limits(operations: nat, bytes: nat)

  /** An entry read back from durable storage; `sameRoom` says that it is for this tenant and document. */
  datatype Stored<+P> = Stored(op: Operation, patches: P, bytes: nat, sameRoom: bool)

  // ---- what each handler does ----

  function Project<S, P>(apply: (S, P) -> S, state: S, pending: seq<Pending<P>>): S
    decreases |pending|
  {
    if pending == [] then state else Project(apply, apply(state, pending[0].patches), pending[1..])
  }

  function Reproject<S, P>(apply: (S, P) -> S, c: Client<S, P>): Client<S, P> {
    if c.canonical.None? then c else c.(projected := Some(Project(apply, c.canonical.value, c.pending)))
  }

  function Unsent<P>(pending: seq<Pending<P>>): seq<Wire> {
    if pending == [] then [] else (if pending[0].sent then [] else [Submit(pending[0].op)]) + Unsent(pending[1..])
  }

  function Marked<P>(pending: seq<Pending<P>>, sent: bool): seq<Pending<P>> {
    seq(|pending|, i requires 0 <= i < |pending| => pending[i].(sent := sent))
  }

  function Flush<S, P>(c: Client<S, P>): Client<S, P> {
    if c.open && c.connection.Online? then c.(wire := c.wire + Unsent(c.pending), pending := Marked(c.pending, true)) else c
  }

  function Emit<S, P>(c: Client<S, P>, w: Wire): Client<S, P> {
    if c.open then c.(wire := c.wire + [w]) else c
  }

  function RequestRecovery<S, P>(c: Client<S, P>): Client<S, P> {
    Emit(c.(connection := Resyncing), Recover(c.version))
  }

  function Bytes<P>(pending: seq<Pending<P>>): nat {
    if pending == [] then 0 else pending[0].bytes + Bytes(pending[1..])
  }

  function Fits<S, P>(limits: Limits, c: Client<S, P>, bytes: nat): bool {
    |c.pending| < limits.operations && Bytes(c.pending) + bytes <= limits.bytes
  }

  function Submitted<S, P>(apply: (S, P) -> S, limits: Limits, c: Client<S, P>, input: Operation, patches: P, bytes: nat): Client<S, P> {
    var op := input.(baseVersion := c.version);
    if !Fits(limits, c, bytes)
    then c.(settled := c.settled + [Settlement(c.next, Outcome.Rejected(op.operationId, c.version, "backpressure"), c.version)], next := c.next + 1)
    else
      var queued := c.(pending := c.pending + [Pending(c.next, op, patches, bytes, false, None, None)], next := c.next + 1);
      Flush(Reproject(apply, queued))
  }

  /** Whether a snapshot at version `v` settles a pending entry. */
  predicate Settles<P>(item: Pending<P>, v: nat) {
    item.resync.Some? || (item.accepted.Some? && item.accepted.value.version <= v)
  }

  function OutcomeOf<P>(item: Pending<P>): Outcome<P>
    requires item.resync.Some? || item.accepted.Some?
  {
    if item.resync.Some? then item.resync.value else item.accepted.value
  }

  function Kept<P>(pending: seq<Pending<P>>, v: nat): seq<Pending<P>> {
    if pending == [] then []
    else (if Settles(pending[0], v) then [] else [pending[0].(sent := false)]) + Kept(pending[1..], v)
  }

  function Settlements<P>(pending: seq<Pending<P>>, v: nat): seq<Settlement<P>> {
    if pending == [] then []
    else (if Settles(pending[0], v) then [Settlement(pending[0].ticket, OutcomeOf(pending[0]), v)] else []) + Settlements(pending[1..], v)
  }

  function OnSnapshot<S, P>(apply: (S, P) -> S, c: Client<S, P>, v: nat, state: S): Client<S, P> {
    var awaiting := c.connection.Connecting?;
    var settled := c.(canonical := Some(state), version := v, connection := if awaiting then Connecting else Online,
                      pending := Kept(c.pending, v), settled := c.settled + Settlements(c.pending, v));
    if awaiting then Reproject(apply, settled) else Flush(Reproject(apply, settled))
  }

  function OnCanonical<S, P>(apply: (S, P) -> S, c: Client<S, P>, v: nat, patches: P): Client<S, P> {
    if c.canonical.None? || v > c.version + 1 then RequestRecovery(c)
    else if v <= c.version then c
    else Reproject(apply, c.(canonical := Some(apply(c.canonical.value, patches)), version := v))
  }

  function OnReady<S, P>(c: Client<S, P>, v: nat): Client<S, P> {
    if c.canonical.None? || v != c.version then RequestRecovery(c) else Flush(c.(connection := Online))
  }

  function FindId<P>(pending: seq<Pending<P>>, id: string): (i: int)
    ensures -1 <= i < |pending|
    ensures i >= 0 ==> pending[i].op.operationId == id && forall j :: 0 <= j < i ==> pending[j].op.operationId != id
    ensures i < 0 <==> forall j :: 0 <= j < |pending| ==> pending[j].op.operationId != id
  {
    if pending == [] then -1
    else if pending[0].op.operationId == id then 0
    else var i := FindId(pending[1..], id);
      assert forall j :: 0 < j < |pending| ==> pending[j] == pending[1..][j - 1];
      if i < 0 then -1 else i + 1
  }

  function Without<P>(pending: seq<Pending<P>>, i: nat): seq<Pending<P>>
    requires i < |pending|
  {
    pending[..i] + pending[i + 1..]
  }

  function OnResult<S, P>(apply: (S, P) -> S, c: Client<S, P>, r: Outcome<P>): Client<S, P> {
    var i := FindId(c.pending, r.id);
    if r.ResyncRequired? then
      var asked := c.(connection := Resyncing, pending := if i < 0 then c.pending else c.pending[i := c.pending[i].(resync := Some(r))]);
      Emit(asked, Recover(c.version))
    else if r.RetryLater? then
      if i < 0 then c else c.(pending := c.pending[i := c.pending[i].(sent := true)])
    else if r.Accepted? && (c.canonical.None? || r.version > c.version + 1) then
      RequestRecovery(if i < 0 then c else c.(pending := c.pending[i := c.pending[i].(accepted := Some(r))]))
    else
      var moved := if r.Accepted? && r.version == c.version + 1
                   then c.(canonical := Some(apply(c.canonical.value, r.patches)), version := r.version) else c;
      var done := if i < 0 then moved
                  else moved.(pending := Without(c.pending, i), settled := c.settled + [Settlement(c.pending[i].ticket, r, moved.version)]);
      Reproject(apply, done)
  }

  /** The timer set for a `retryLater` fires; entries settled meanwhile are left alone. */
  function OnRetry<S, P>(c: Client<S, P>, ticket: nat): Client<S, P> {
    if TicketIndex(c.pending, ticket) >= 0
    then Flush(c.(pending := Rearmed(c.pending, ticket)))
    else c
  }

  function Rearmed<P>(pending: seq<Pending<P>>, ticket: nat): seq<Pending<P>> {
    seq(|pending|, i requires 0 <= i < |pending| => if pending[i].ticket == ticket then pending[i].(sent := false) else pending[i])
  }

  function OnOpen<S, P>(c: Client<S, P>): Client<S, P> { Emit(c.(connection := Connecting, open := true), Hello(c.version)) }

  function OnClose<S, P>(c: Client<S, P>): Client<S, P> {
    c.(open := false, connection := Offline, pending := Marked(c.pending, false))
  }

  /** `restorePending` puts each stored entry of this room in front, unless its operation is queued already. */
  function Restored<S, P>(c: Client<S, P>, entries: seq<Stored<P>>): Client<S, P>
    decreases |entries|
  {
    if entries == [] then c
    else if FindId(c.pending, entries[0].op.operationId) >= 0 || !entries[0].sameRoom then Restored(c, entries[1..])
    else
      var item := Pending(c.next, entries[0].op, entries[0].patches, entries[0].bytes, false, None, None);
      Restored(c.(pending := [item] + c.pending, next := c.next + 1), entries[1..])
  }

  function OnRestore<S, P>(apply: (S, P) -> S, c: Client<S, P>, entries: seq<Stored<P>>): Client<S, P> {
    Reproject(apply, Restored(c, entries))
  }

  function Fresh<S, P>(): Client<S, P> { Client(None, 0, None, [], Offline, false, [], [], 0) }

  // ---- how `handleSnapshot` takes settled entries out of the queue ----

  function Unmark<P>(item: Pending<P>, v: nat): Pending<P> { if Settles(item, v) then item else item.(sent := false) }

  function UnmarkAll<P>(pending: seq<Pending<P>>, v: nat): seq<Pending<P>> {
    seq(|pending|, i requires 0 <= i < |pending| => Unmark(pending[i], v))
  }

  function SettledItems<P>(pending: seq<Pending<P>>, v: nat): seq<Pending<P>> {
    if pending == [] then [] else (if Settles(pending[0], v) then [pending[0]] else []) + SettledItems(pending[1..], v)
  }

  function Tickets<P>(items: seq<Pending<P>>): set<nat> { set i | 0 <= i < |items| :: items[i].ticket }

  function Outcomes<P>(items: seq<Pending<P>>, v: nat): seq<Settlement<P>>
    requires forall i :: 0 <= i < |items| ==> Settles(items[i], v)
  {
    seq(|items|, i requires 0 <= i < |items| && Settles(items[i], v) => Settlement(items[i].ticket, OutcomeOf(items[i]), v))
  }

  /** The entries whose ticket is not in `gone`. */
  function Except<P>(items: seq<Pending<P>>, gone: set<nat>): seq<Pending<P>> {
    if items == [] then [] else (if items[0].ticket in gone then [] else [items[0]]) + Except(items[1..], gone)
  }

  function TicketIndex<P>(pending: seq<Pending<P>>, ticket: nat): (i: int)
    ensures -1 <= i < |pending| && (i >= 0 ==> pending[i].ticket == ticket)
    ensures i < 0 ==> forall j :: 0 <= j < |pending| ==> pending[j].ticket != ticket
  {
    if pending == [] then -1
    else if pending[0].ticket == ticket then 0
    else var i := TicketIndex(pending[1..], ticket);
      assert forall j :: 0 < j < |pending| ==> pending[j] == pending[1..][j - 1];
      if i < 0 then -1 else i + 1
  }

  ghost predicate DistinctTickets<P>(items: seq<Pending<P>>) {
    forall i, j :: 0 <= i < j < |items| ==> items[i].ticket != items[j].ticket
  }

  lemma {:induction false} SettledFrom<P>(items: seq<Pending<P>>, v: nat)
    ensures forall item :: item in SettledItems(items, v) ==> Settles(item, v) && item in items
  {
    if items != [] {
      SettledFrom(items[1..], v);
      assert items == [items[0]] + items[1..];
    }
  }

  lemma {:induction false} SettledDistinct<P>(items: seq<Pending<P>>, v: nat)
    requires DistinctTickets(items)
    ensures var done := SettledItems(items, v);
      && DistinctTickets(done)
      && forall i :: 0 <= i < |done| ==> Settles(done[i], v) && done[i] in items && done[i] in UnmarkAll(items, v)
  {
    var done := SettledItems(items, v);
    SettledFrom(items, v);
    forall i | 0 <= i < |done| ensures Settles(done[i], v) && done[i] in items && done[i] in UnmarkAll(items, v) {
      assert done[i] in done;
      var k :| 0 <= k < |items| && items[k] == done[i];
      assert UnmarkAll(items, v)[k] == done[i];
    }
    if items != [] {
      SettledDistinct(items[1..], v);
      SettledFrom(items[1..], v);
      var rest := SettledItems(items[1..], v);
      forall i | 0 <= i < |rest| ensures rest[i].ticket != items[0].ticket {
        assert rest[i] in rest;
        var j :| 0 <= j < |items[1..]| && items[1..][j] == rest[i];
        assert items[j + 1] == rest[i];
      }
    }
  }

  lemma {:induction false} ExceptNone<P>(items: seq<Pending<P>>)
    ensures Except(items, {}) == items
  {
    if items != [] { ExceptNone(items[1..]); }
  }

  lemma {:induction false} ExceptMembers<P>(items: seq<Pending<P>>, gone: set<nat>)
    ensures forall item :: item in Except(items, gone) <==> item in items && item.ticket !in gone
  {
    if items != [] {
      ExceptMembers(items[1..], gone);
      assert items == [items[0]] + items[1..];
    }
  }

  lemma {:induction false} ExceptHas<P>(items: seq<Pending<P>>, gone: set<nat>, item: Pending<P>)
    requires item in items && item.ticket !in gone
    ensures TicketIndex(Except(items, gone), item.ticket) >= 0
  {
    ExceptMembers(items, gone);
  }

  lemma {:induction false} WithoutCons<P>(x: Pending<P>, rest: seq<Pending<P>>, i: nat)
    requires i <= |rest|
    ensures Without([x] + rest, i) == if i == 0 then rest else [x] + Without(rest, i - 1)
  {
  }

  lemma {:induction false} ExceptSkips<P>(items: seq<Pending<P>>, gone: set<nat>)
    requires items != []
    ensures items[0].ticket in gone ==> Except(items, gone) == Except(items[1..], gone)
    ensures items[0].ticket !in gone ==> Except(items, gone) == [items[0]] + Except(items[1..], gone)
  {
  }

  lemma {:induction false} ExceptRemove<P>(items: seq<Pending<P>>, gone: set<nat>, more: set<nat>, i: nat)
    requires DistinctTickets(items) && i < |Except(items, gone)| && more == gone + {Except(items, gone)[i].ticket}
    ensures Without(Except(items, gone), i) == Except(items, more)
    decreases |items|
  {
    var rest := Except(items[1..], gone);
    ExceptSkips(items, gone);
    ExceptSkips(items, more);
    if items[0].ticket in gone {
      ExceptRemove(items[1..], gone, more, i);
    } else {
      WithoutCons(items[0], rest, i);
      if i == 0 {
        ExceptAbsent(items[1..], gone, items[0].ticket);
      } else {
        HeadStays(items, gone, rest[i - 1]);
        ExceptRemove(items[1..], gone, more, i - 1);
      }
    }
  }

  lemma {:induction false} HeadStays<P>(items: seq<Pending<P>>, gone: set<nat>, item: Pending<P>)
    requires DistinctTickets(items) && items != [] && item in Except(items[1..], gone)
    ensures item.ticket != items[0].ticket
  {
    ExceptMembers(items[1..], gone);
    var k :| 0 <= k < |items[1..]| && items[1..][k] == item;
    assert items[k + 1] == item;
  }

  lemma {:induction false} ExceptAbsent<P>(items: seq<Pending<P>>, gone: set<nat>, ticket: nat)
    requires forall i :: 0 <= i < |items| ==> items[i].ticket != ticket
    ensures Except(items, gone + {ticket}) == Except(items, gone)
  {
    if items != [] { ExceptAbsent(items[1..], gone, ticket); }
  }

  lemma {:induction false} ExceptSettled<P>(items: seq<Pending<P>>, v: nat, gone: set<nat>)
    requires DistinctTickets(items)
    requires forall i :: 0 <= i < |items| ==> (items[i].ticket in gone <==> Settles(items[i], v))
    ensures Except(UnmarkAll(items, v), gone) == Kept(items, v)
  {
    if items != [] {
      assert UnmarkAll(items, v)[1..] == UnmarkAll(items[1..], v);
      ExceptSettled(items[1..], v, gone);
    }
  }

  lemma {:induction false} OutcomesCons<P>(item: Pending<P>, rest: seq<Pending<P>>, v: nat)
    requires Settles(item, v) && forall i :: 0 <= i < |rest| ==> Settles(rest[i], v)
    ensures forall i :: 0 <= i < |[item] + rest| ==> Settles(([item] + rest)[i], v)
    ensures Outcomes([item] + rest, v) == [Settlement(item.ticket, OutcomeOf(item), v)] + Outcomes(rest, v)
  {
  }

  lemma {:induction false} OutcomesOfSettled<P>(items: seq<Pending<P>>, v: nat)
    requires forall i :: 0 <= i < |SettledItems(items, v)| ==> Settles(SettledItems(items, v)[i], v)
    ensures Settlements(items, v) == Outcomes(SettledItems(items, v), v)
    decreases |items|
  {
    if items != [] {
      var rest := SettledItems(items[1..], v);
      SettledFrom(items[1..], v);
      forall i | 0 <= i < |rest| ensures Settles(rest[i], v) { assert rest[i] in rest; }
      OutcomesOfSettled(items[1..], v);
      if Settles(items[0], v) { OutcomesCons(items[0], rest, v); }
    }
  }

  lemma {:induction false} NextTicket<P>(done: seq<Pending<P>>, k: nat)
    requires k < |done| && DistinctTickets(done)
    ensures done[..k + 1] == done[..k] + [done[k]]
    ensures done[k].ticket !in Tickets(done[..k]) && Tickets(done[..k + 1]) == Tickets(done[..k]) + {done[k].ticket}
  {
    var more := done[..k + 1];
    forall t ensures t in Tickets(more) <==> t in Tickets(done[..k]) || t == done[k].ticket {
      if t in Tickets(done[..k]) {
        var i :| 0 <= i < k && done[..k][i].ticket == t;
        assert more[i].ticket == t;
      }
      assert more[k].ticket == done[k].ticket;
    }
  }

  /** Taking the next settled entry out of what is left of the queue. */
  lemma {:induction false} TakeNext<P>(before: seq<Pending<P>>, v: nat, k: nat)
    requires DistinctTickets(before) && k < |SettledItems(before, v)|
    ensures var done, left := SettledItems(before, v), Except(UnmarkAll(before, v), Tickets(SettledItems(before, v)[..k]));
            var i := TicketIndex(left, done[k].ticket);
      && i >= 0 && Without(left, i) == Except(UnmarkAll(before, v), Tickets(done[..k + 1]))
      && Settles(done[k], v)
  {
    var done := SettledItems(before, v);
    var left := Except(UnmarkAll(before, v), Tickets(done[..k]));
    SettledDistinct(before, v);
    NextTicket(done, k);
    ExceptHas(UnmarkAll(before, v), Tickets(done[..k]), done[k]);
    ExceptRemove(UnmarkAll(before, v), Tickets(done[..k]), Tickets(done[..k + 1]), TicketIndex(left, done[k].ticket));
  }

  lemma {:induction false} AllTaken<P>(before: seq<Pending<P>>, v: nat)
    requires DistinctTickets(before)
    ensures Except(UnmarkAll(before, v), Tickets(SettledItems(before, v))) == Kept(before, v)
    ensures Except(UnmarkAll(before, v), Tickets(SettledItems(before, v)[..0])) == UnmarkAll(before, v)
  {
    SettledHas(before, v);
    ExceptSettled(before, v, Tickets(SettledItems(before, v)));
    ExceptNone(UnmarkAll(before, v));
    assert Tickets(SettledItems(before, v)[..0]) == {};
  }

  lemma {:induction false} SettlementsAre<P>(before: seq<Pending<P>>, v: nat)
    requires DistinctTickets(before)
    ensures forall i :: 0 <= i < |SettledItems(before, v)| ==> Settles(SettledItems(before, v)[i], v)
    ensures Settlements(before, v) == Outcomes(SettledItems(before, v), v)
    ensures forall k, log: seq<Settlement<P>> :: 0 <= k < |SettledItems(before, v)| ==>
      (log + Settlements(before, v)[..k]) + [Settlements(before, v)[k]] == log + Settlements(before, v)[..k + 1]
  {
    SettledDistinct(before, v);
    OutcomesOfSettled(before, v);
  }

  lemma {:induction false} SettledHas<P>(items: seq<Pending<P>>, v: nat)
    requires DistinctTickets(items)
    ensures forall i :: 0 <= i < |items| ==> (items[i].ticket in Tickets(SettledItems(items, v)) <==> Settles(items[i], v))
  {
    if items != [] {
      SettledHas(items[1..], v);
      SettledDistinct(items[1..], v);
      var done, rest := SettledItems(items, v), SettledItems(items[1..], v);
      forall t ensures t in Tickets(done) <==> t in Tickets(rest) || (Settles(items[0], v) && t == items[0].ticket) {
        if t in Tickets(rest) {
          var i :| 0 <= i < |rest| && rest[i].ticket == t;
          assert done[if Settles(items[0], v) then i + 1 else i].ticket == t;
        }
        if Settles(items[0], v) { assert done[0].ticket == items[0].ticket; }
      }
      forall j | 0 <= j < |rest| ensures rest[j].ticket != items[0].ticket {
        var i :| 0 <= i < |items[1..]| && items[1..][i] == rest[j];
        assert items[i + 1] == rest[j];
      }
      forall i | 0 <= i < |items| ensures items[i].ticket in Tickets(done) <==> Settles(items[i], v) {
        if i > 0 { assert items[i] == items[1..][i - 1]; }
      }
    }
  }

  // ---- the object ----

  class CollaborationClient<S, P(==)> {
    const apply: (S, P) -> S
    const limits: Limits
    var canonical: Option<S>
    var version: nat
    var projected: Option<S>
    var pending: seq<Pending<P>>
    var connection: Connection
    var open: bool
    var wire: seq<Wire>
    var settled: seq<Settlement<P>>
    var next: nat

    ghost function View(): Client<S, P>
      reads this
    {
      Client(canonical, version, projected, pending, connection, open, wire, settled, next)
    }

    /** No two queue entries share an identity. */
    ghost predicate Valid()
      reads this
    {
      forall i, j :: 0 <= i < j < |pending| ==> pending[i].ticket != pending[j].ticket
    }

    constructor (apply: (S, P) -> S, limits: Limits)
      ensures View() == Fresh<S, P>() && this.apply == apply && this.limits == limits && Valid()
    {
      this.apply, this.limits := apply, limits;
      canonical, version, projected, pending, connection := None, 0, None, [], Offline;
      open, wire, settled, next := false, [], [], 0;
    }

    method ReprojectPending()
      modifies this`projected
      ensures View() == Reproject(apply, old(View()))
    {
      if canonical.None? { return; }
      var state := canonical.value;
      for i := 0 to |pending|
        invariant Project(apply, state, pending[i..]) == Project(apply, canonical.value, pending)
      {
        assert pending[i..][1..] == pending[i + 1..];
        state := apply(state, pending[i].patches);
      }
      assert pending[|pending|..] == [];
      projected := Some(state);
    }

    method FlushPending()
      modifies this`pending, this`wire
      ensures View() == Flush(old(View()))
    {
      if !open || !connection.Online? { return; }
      ghost var before, sentBefore := pending, wire;
      for i := 0 to |pending|
        invariant |pending| == |before|
        invariant forall j :: 0 <= j < |pending| ==> pending[j] == if j < i then before[j].(sent := true) else before[j]
        invariant wire + Unsent(before[i..]) == sentBefore + Unsent(before)
      {
        assert before[i..][1..] == before[i + 1..];
        if !pending[i].sent {
          wire := wire + [Submit(pending[i].op)];
          pending := pending[i := pending[i].(sent := true)];
        }
      }
      assert before[|pending|..] == [];
      assert pending == Marked(before, true);
    }

    method SendRecovery()
      modifies this`connection, this`wire
      ensures View() == RequestRecovery(old(View()))
    {
      connection := Resyncing;
      if open { wire := wire + [Recover(version)]; }
    }

    method Enqueue(input: Operation, patches: P, bytes: nat)
      requires Valid() && forall i :: 0 <= i < |pending| ==> pending[i].ticket < next
      modifies this
      ensures View() == Submitted(apply, limits, old(View()), input, patches, bytes)
    {
      var op := input.(baseVersion := version);
      var total := 0;
      for i := 0 to |pending|
        invariant total + Bytes(pending[i..]) == Bytes(pending)
      {
        assert pending[i..][1..] == pending[i + 1..];
        total := total + pending[i].bytes;
      }
      assert pending[|pending|..] == [];
      if |pending| >= limits.operations || total + bytes > limits.bytes {
        settled := settled + [Settlement(next, Outcome.Rejected(op.operationId, version, "backpressure"), version)];
        next := next + 1;
        return;
      }
      pending := pending + [Pending(next, op, patches, bytes, false, None, None)];
      next := next + 1;
      ReprojectPending();
      FlushPending();
    }

    method HandleCanonical(v: nat, patches: P)
      modifies this
      ensures View() == OnCanonical(apply, old(View()), v, patches)
    {
      if canonical.None? || v > version + 1 { SendRecovery(); return; }
      if v <= version { return; }
      canonical, version := Some(apply(canonical.value, patches)), v;
      ReprojectPending();
    }

    method HandleReady(v: nat)
      modifies this
      ensures View() == OnReady(old(View()), v)
    {
      if canonical.None? || v != version { SendRecovery(); return; }
      connection := Online;
      FlushPending();
    }

    method HandleResult(r: Outcome<P>)
      modifies this
      ensures View() == OnResult(apply, old(View()), r)
    {
      var i := FindId(pending, r.id);
      if r.ResyncRequired? {
        connection := Resyncing;
        if i >= 0 { pending := pending[i := pending[i].(resync := Some(r))]; }
        SendRecovery();
        return;
      }
      if r.RetryLater? {
        if i >= 0 { pending := pending[i := pending[i].(sent := true)]; }
        return;
      }
      if r.Accepted? && (canonical.None? || r.version > version + 1) {
        if i >= 0 { pending := pending[i := pending[i].(accepted := Some(r))]; }
        SendRecovery();
        return;
      }
      if r.Accepted? && r.version == version + 1 {
        canonical, version := Some(apply(canonical.value, r.patches)), r.version;
      }
      if i >= 0 { Resolve(i, r); }
      ReprojectPending();
    }

    method Resolve(i: nat, r: Outcome<P>)
      requires i < |pending|
      modifies this`pending, this`settled
      ensures pending == Without(old(pending), i) && settled == old(settled) + [Settlement(old(pending)[i].ticket, r, version)]
    {
      settled := settled + [Settlement(pending[i].ticket, r, version)];
      pending := pending[..i] + pending[i + 1..];
    }

    /** The timer of a `retryLater`. */
    method RetryTimer(ticket: nat)
      requires Valid()
      modifies this
      ensures View() == OnRetry(old(View()), ticket)
    {
      var i := TicketIndex(pending, ticket);
      if i < 0 { return; }
      ghost var before := pending;
      pending := pending[i := pending[i].(sent := false)];
      assert pending == Rearmed(before, ticket);
      FlushPending();
    }

    method HandleOpen()
      modifies this
      ensures View() == OnOpen(old(View()))
    {
      connection, open := Connecting, true;
      wire := wire + [Hello(version)];
    }

    method HandleClose()
      modifies this
      ensures View() == OnClose(old(View()))
    {
      open, connection := false, Offline;
      ghost var before := pending;
      for i := 0 to |pending|
        invariant |pending| == |before|
        invariant forall j :: 0 <= j < |pending| ==> pending[j] == if j < i then before[j].(sent := false) else before[j]
        invariant View() == old(View()).(open := false, connection := Offline, pending := pending)
      {
        pending := pending[i := pending[i].(sent := false)];
      }
      assert pending == Marked(before, false);
    }

    method RestorePending(entries: seq<Stored<P>>)
      modifies this
      ensures View() == OnRestore(apply, old(View()), entries)
    {
      for i := 0 to |entries|
        invariant Restored(View(), entries[i..]) == Restored(old(View()), entries)
      {
        assert entries[i..][1..] == entries[i + 1..];
        if FindId(pending, entries[i].op.operationId) >= 0 { continue; }
        if !entries[i].sameRoom { continue; }
        pending := [Pending(next, entries[i].op, entries[i].patches, entries[i].bytes, false, None, None)] + pending;
        next := next + 1;
      }
      assert entries[|entries|..] == [];
      ReprojectPending();
    }

    /** The first loop of `handleSnapshot`: entries that stay will be sent again; the others are collected. */
    method CollectSettled(v: nat) returns (done: seq<Pending<P>>)
      modifies this`pending
      ensures pending == UnmarkAll(old(pending), v) && done == SettledItems(old(pending), v)
    {
      done := [];
      ghost var before := pending;
      for i := 0 to |pending|
        invariant |pending| == |before|
        invariant forall j :: 0 <= j < |pending| ==> pending[j] == if j < i then Unmark(before[j], v) else before[j]
        invariant done + SettledItems(before[i..], v) == SettledItems(before, v)
      {
        assert before[i..][1..] == before[i + 1..];
        if Settles(pending[i], v) { done := done + [pending[i]]; }
        else { pending := pending[i := pending[i].(sent := false)]; }
      }
      assert before[|pending|..] == [];
      assert pending == UnmarkAll(before, v);
    }

    /** The second loop: each collected entry leaves the queue and its promise is resolved. */
    method ResolveSettled(done: seq<Pending<P>>, v: nat, ghost before: seq<Pending<P>>)
      requires DistinctTickets(before) && pending == UnmarkAll(before, v) && done == SettledItems(before, v)
      modifies this`pending, this`settled
      ensures pending == Kept(before, v) && settled == old(settled) + Settlements(before, v)
    {
      AllTaken(before, v);
      SettlementsAre(before, v);
      for k := 0 to |done|
        invariant pending == Except(UnmarkAll(before, v), Tickets(done[..k]))
        invariant settled == old(settled) + Settlements(before, v)[..k]
      {
        TakeNext(before, v, k);
        var i := TicketIndex(pending, done[k].ticket);
        pending := pending[..i] + pending[i + 1..];
        assert Settlement(done[k].ticket, OutcomeOf(done[k]), v) == Settlements(before, v)[k];
        settled := settled + [Settlement(done[k].ticket, OutcomeOf(done[k]), v)];
      }
      assert done[..|done|] == done;
    }

    method HandleSnapshot(v: nat, state: S)
      requires Valid()
      modifies this
      ensures View() == OnSnapshot(apply, old(View()), v, state)
    {
      var awaiting := connection.Connecting?;
      canonical, version := Some(state), v;
      if !awaiting { connection := Online; }
      ghost var before := pending;
      var done := CollectSettled(v);
      ResolveSettled(done, v, before);
      ReprojectPending();
      if !awaiting { FlushPending(); }
    }
  }
}
