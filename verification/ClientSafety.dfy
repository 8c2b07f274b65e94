/** The client over arbitrary sequences of submissions, timers, connections and honest messages in any order. */
module ClientSafety {
  import opened Results
  import opened CommitStore
  import opened Client
  import opened Distinct

  // ---- the server's log, and messages that do not lie about it ----

  datatype Entry<+P> = Entry(id: string, patches: P)

  datatype Server<!S, !P> = Server(apply: (S, P) -> S, initial: S, log: seq<Entry<P>>)

  function Truth<S, P>(server: Server<S, P>, v: nat): S
    requires v <= |server.log|
  {
    if v == 0 then server.initial else server.apply(Truth(server, v - 1), server.log[v - 1].patches)
  }

  ghost predicate HonestOutcome<S, P>(server: Server<S, P>, r: Outcome<P>) {
    r.Accepted? ==> 0 < r.version <= |server.log| && server.log[r.version - 1] == Entry(r.id, r.patches)
  }

  /** `ready`, rejections, resync and retry replies may say anything; they carry no state. */
  ghost predicate Honest<S, P>(server: Server<S, P>, m: Message<S, P>) {
    match m
    case Snapshot(v, state) => v <= |server.log| && state == Truth(server, v)
    case Canonical(v, patches) => 0 < v <= |server.log| && server.log[v - 1].patches == patches
    case ReadyAt(_) => true
    case ResultOf(r) => HonestOutcome(server, r)
  }

  datatype Event<+S, +P> =
    | Submits(input: Operation, patches: P, bytes: nat)
    | Receives(message: Message<S, P>)
    | RetryFires(ticket: nat)
    | Opens
    | Closes
    | Restores(entries: seq<Stored<P>>)

  function Step<S, P>(apply: (S, P) -> S, limits: Limits, c: Client<S, P>, e: Event<S, P>): Client<S, P> {
    match e
    case Submits(input, patches, bytes) => Submitted(apply, limits, c, input, patches, bytes)
    case Receives(Snapshot(v, state)) => OnSnapshot(apply, c, v, state)
    case Receives(Canonical(v, patches)) => OnCanonical(apply, c, v, patches)
    case Receives(ReadyAt(v)) => OnReady(c, v)
    case Receives(ResultOf(r)) => OnResult(apply, c, r)
    case RetryFires(ticket) => OnRetry(c, ticket)
    case Opens => OnOpen(c)
    case Closes => OnClose(c)
    case Restores(entries) => OnRestore(apply, c, entries)
  }

  function After<S, P>(apply: (S, P) -> S, limits: Limits, events: seq<Event<S, P>>): Client<S, P> {
    if events == [] then Fresh() else Step(apply, limits, After(apply, limits, events[..|events| - 1]), events[|events| - 1])
  }

  // ---- the operations handed in so far, by ticket ----

  function RestoredOps<S, P>(c: Client<S, P>, entries: seq<Stored<P>>): seq<Operation>
    decreases |entries|
  {
    if entries == [] then []
    else if FindId(c.pending, entries[0].op.operationId) >= 0 || !entries[0].sameRoom then RestoredOps(c, entries[1..])
    else
      var item := Pending(c.next, entries[0].op, entries[0].patches, entries[0].bytes, false, None, None);
      [entries[0].op] + RestoredOps(c.(pending := [item] + c.pending, next := c.next + 1), entries[1..])
  }

  /** A submission is recorded with the canonical version that the client held when it was made. */
  function NewOps<S, P>(c: Client<S, P>, e: Event<S, P>): seq<Operation> {
    match e
    case Submits(input, _, _) => [input.(baseVersion := c.version)]
    case Restores(entries) => RestoredOps(c, entries)
    case _ => []
  }

  function Ops<S, P>(apply: (S, P) -> S, limits: Limits, events: seq<Event<S, P>>): seq<Operation> {
    if events == [] then []
    else
      var before := events[..|events| - 1];
      Ops(apply, limits, before) + NewOps(After(apply, limits, before), events[|events| - 1])
  }

  // ---- invariants ----

  ghost predicate CanonicalOK<S, P>(server: Server<S, P>, c: Client<S, P>) {
    if c.canonical.None? then c.version == 0 && c.projected.None?
    else c.version <= |server.log| && c.canonical.value == Truth(server, c.version)
         && c.projected == Some(Project(server.apply, c.canonical.value, c.pending))
  }

  ghost predicate ItemOK<S, P>(server: Server<S, P>, ops: seq<Operation>, item: Pending<P>) {
    && item.ticket < |ops| && item.op == ops[item.ticket]
    && (item.accepted.Some? ==> item.accepted.value.Accepted? && item.accepted.value.id == item.op.operationId && HonestOutcome(server, item.accepted.value))
    && (item.resync.Some? ==> item.resync.value.ResyncRequired? && item.resync.value.id == item.op.operationId)
  }

  /** A settlement answers the operation of its ticket; acceptance at w only once the client has reached w. */
  ghost predicate SettlementOK<S, P>(server: Server<S, P>, ops: seq<Operation>, s: Settlement<P>) {
    && s.ticket < |ops| && s.outcome.id == ops[s.ticket].operationId
    && HonestOutcome(server, s.outcome)
    && (s.outcome.Accepted? ==> s.outcome.version <= s.at)
  }

  ghost predicate QueueOK<S, P>(server: Server<S, P>, c: Client<S, P>, ops: seq<Operation>) {
    && |ops| == c.next
    && (forall i :: 0 <= i < |c.pending| ==> ItemOK(server, ops, c.pending[i]))
    && (forall i :: 0 <= i < |c.settled| ==> SettlementOK(server, ops, c.settled[i]))
  }

  function PendingTickets<P>(pending: seq<Pending<P>>): seq<nat> {
    seq(|pending|, i requires 0 <= i < |pending| => pending[i].ticket)
  }

  function SettledTickets<P>(settled: seq<Settlement<P>>): seq<nat> {
    seq(|settled|, i requires 0 <= i < |settled| => settled[i].ticket)
  }

  function Issued(n: nat): multiset<nat> {
    if n == 0 then multiset{} else Issued(n - 1) + multiset{n - 1}
  }

  /** Every ticket issued is in the queue or settled, exactly once, and in one of the two only. */
  ghost predicate Accounted<S, P>(c: Client<S, P>) {
    multiset(PendingTickets(c.pending)) + multiset(SettledTickets(c.settled)) == Issued(c.next)
  }

  ghost predicate Good<S, P>(server: Server<S, P>, c: Client<S, P>, ops: seq<Operation>) {
    CanonicalOK(server, c) && QueueOK(server, c, ops) && Accounted(c)
  }

  // ---- accounting ----

  lemma {:induction false} IssuedOnce(n: nat)
    ensures forall t: nat :: Issued(n)[t] == if t < n then 1 else 0
  {
    if n > 0 { IssuedOnce(n - 1); }
  }

  lemma {:induction false} PendingAppend<P>(a: seq<Pending<P>>, b: seq<Pending<P>>)
    ensures PendingTickets(a + b) == PendingTickets(a) + PendingTickets(b)
  {
  }

  lemma {:induction false} SettledAppend<P>(a: seq<Settlement<P>>, b: seq<Settlement<P>>)
    ensures SettledTickets(a + b) == SettledTickets(a) + SettledTickets(b)
  {
  }

  lemma {:induction false} PendingHead<P>(item: Pending<P>, rest: seq<Pending<P>>)
    ensures multiset(PendingTickets([item] + rest)) == multiset{item.ticket} + multiset(PendingTickets(rest))
  {
    PendingAppend([item], rest);
    assert PendingTickets([item]) == [item.ticket];
  }

  lemma {:induction false} SettledHead<P>(s: Settlement<P>, rest: seq<Settlement<P>>)
    ensures multiset(SettledTickets([s] + rest)) == multiset{s.ticket} + multiset(SettledTickets(rest))
  {
    SettledAppend([s], rest);
    assert SettledTickets([s]) == [s.ticket];
  }

  /** What a snapshot takes out of the queue is what it settles. */
  lemma {:induction false} SnapshotMovesTickets<P>(pending: seq<Pending<P>>, v: nat)
    ensures multiset(PendingTickets(Kept(pending, v))) + multiset(SettledTickets(Settlements(pending, v))) == multiset(PendingTickets(pending))
  {
    if pending != [] {
      var tail := pending[1..];
      SnapshotMovesTickets(tail, v);
      assert pending == [pending[0]] + tail;
      PendingHead(pending[0], tail);
      if Settles(pending[0], v) {
        var s := Settlement(pending[0].ticket, OutcomeOf(pending[0]), v);
        SettledHead(s, Settlements(tail, v));
        assert Settlements(pending, v) == [s] + Settlements(tail, v) && Kept(pending, v) == Kept(tail, v);
      } else {
        var k := pending[0].(sent := false);
        PendingHead(k, Kept(tail, v));
        assert Kept(pending, v) == [k] + Kept(tail, v) && Settlements(pending, v) == Settlements(tail, v);
      }
    }
  }

  lemma {:induction false} WithoutMovesTicket<P>(pending: seq<Pending<P>>, i: nat)
    requires i < |pending|
    ensures multiset(PendingTickets(Without(pending, i))) + multiset{pending[i].ticket} == multiset(PendingTickets(pending))
  {
    assert pending == pending[..i] + [pending[i]] + pending[i + 1..];
    PendingAppend(pending[..i] + [pending[i]], pending[i + 1..]);
    PendingAppend(pending[..i], [pending[i]]);
    PendingAppend(pending[..i], pending[i + 1..]);
  }

  /** Entries of the queue have different identities, as the handlers need. */
  lemma {:induction false} AccountedIsDistinct<S, P>(c: Client<S, P>)
    requires Accounted(c)
    ensures DistinctTickets(c.pending)
    ensures forall i :: 0 <= i < |c.pending| ==> c.pending[i].ticket < c.next
    ensures forall i, j :: 0 <= i < |c.pending| && 0 <= j < |c.settled| ==> c.pending[i].ticket != c.settled[j].ticket
    ensures forall i, j :: 0 <= i < j < |c.settled| ==> c.settled[i].ticket != c.settled[j].ticket
  {
    IssuedOnce(c.next);
    var a, b := PendingTickets(c.pending), SettledTickets(c.settled);
    var all := multiset(a) + multiset(b);
    forall i | 0 <= i < |a| ensures c.pending[i].ticket == a[i] < c.next {
      assert a[i] in multiset(a);
      assert all[a[i]] >= 1;
    }
    forall i, j | 0 <= i < j < |a| ensures c.pending[i].ticket != c.pending[j].ticket {
      TwiceCounts(a, i, j);
      assert all[a[i]] <= 1 && multiset(a)[a[i]] <= all[a[i]];
    }
    forall i, j | 0 <= i < j < |b| ensures c.settled[i].ticket != c.settled[j].ticket {
      TwiceCounts(b, i, j);
      assert all[b[i]] <= 1 && multiset(b)[b[i]] <= all[b[i]];
    }
    forall i, j | 0 <= i < |a| && 0 <= j < |b| ensures c.pending[i].ticket != c.settled[j].ticket {
      assert a[i] in multiset(a) && b[j] in multiset(b);
      assert all[a[i]] == multiset(a)[a[i]] + multiset(b)[a[i]] && all[a[i]] <= 1;
    }
  }

  // ---- the queue's flags do not matter to the projection ----

  lemma {:induction false} ProjectSame<S, P>(apply: (S, P) -> S, state: S, a: seq<Pending<P>>, b: seq<Pending<P>>)
    requires |a| == |b| && forall i :: 0 <= i < |a| ==> a[i].patches == b[i].patches
    ensures Project(apply, state, a) == Project(apply, state, b)
    decreases |a|
  {
    if a != [] { ProjectSame(apply, apply(state, a[0].patches), a[1..], b[1..]); }
  }

  /** Entries that agree in everything but flags and stored replies. */
  ghost predicate Similar<S, P>(server: Server<S, P>, ops: seq<Operation>, a: seq<Pending<P>>, b: seq<Pending<P>>) {
    |a| == |b| && forall i :: 0 <= i < |a| ==>
      a[i].ticket == b[i].ticket && a[i].op == b[i].op && a[i].patches == b[i].patches && ItemOK(server, ops, b[i])
  }

  /** Steps that leave the state and the queue alone except for flags. */
  lemma {:induction false} FlagsOnly<S, P>(server: Server<S, P>, c: Client<S, P>, ops: seq<Operation>, d: Client<S, P>)
    requires Good(server, c, ops) && Similar(server, ops, c.pending, d.pending)
    requires d.canonical == c.canonical && d.version == c.version && d.projected == c.projected && d.settled == c.settled && d.next == c.next
    ensures Good(server, d, ops)
  {
    if c.canonical.Some? { ProjectSame(server.apply, c.canonical.value, c.pending, d.pending); }
    assert PendingTickets(c.pending) == PendingTickets(d.pending);
  }

  lemma {:induction false} FlushGood<S, P>(server: Server<S, P>, c: Client<S, P>, ops: seq<Operation>)
    requires Good(server, c, ops)
    ensures Good(server, Flush(c), ops)
  {
    FlagsOnly(server, c, ops, Flush(c));
  }

  /** `reproject` restores the projection after the queue or the canonical state moved. */
  ghost predicate Moved<S, P>(server: Server<S, P>, c: Client<S, P>, ops: seq<Operation>) {
    && (if c.canonical.None? then c.version == 0 && c.projected.None?
        else c.version <= |server.log| && c.canonical.value == Truth(server, c.version))
    && QueueOK(server, c, ops) && Accounted(c)
  }

  lemma {:induction false} ReprojectGood<S, P>(server: Server<S, P>, c: Client<S, P>, ops: seq<Operation>)
    requires Moved(server, c, ops)
    ensures Good(server, Reproject(server.apply, c), ops)
  {
  }

  // ---- steps ----

  /** More operations handed in do not affect those that are known. */
  lemma {:induction false} QueueGrows<S, P>(server: Server<S, P>, c: Client<S, P>, ops: seq<Operation>, more: seq<Operation>)
    requires QueueOK(server, c, ops) && ops <= more
    ensures forall i :: 0 <= i < |c.pending| ==> ItemOK(server, more, c.pending[i])
    ensures forall i :: 0 <= i < |c.settled| ==> SettlementOK(server, more, c.settled[i])
  {
    forall i | 0 <= i < |c.pending| ensures ItemOK(server, more, c.pending[i]) { assert ItemOK(server, ops, c.pending[i]); }
    forall i | 0 <= i < |c.settled| ensures SettlementOK(server, more, c.settled[i]) { assert SettlementOK(server, ops, c.settled[i]); }
  }

  lemma {:induction false} QueuedGood<S, P>(server: Server<S, P>, c: Client<S, P>, ops: seq<Operation>, op: Operation, patches: P, bytes: nat)
    requires Good(server, c, ops)
    ensures Moved(server, c.(pending := c.pending + [Pending(c.next, op, patches, bytes, false, None, None)], next := c.next + 1), ops + [op])
  {
    var item := Pending(c.next, op, patches, bytes, false, None, None);
    var queued := c.(pending := c.pending + [item], next := c.next + 1);
    PendingAppend(c.pending, [item]);
    assert PendingTickets([item]) == [c.next];
    QueueGrows(server, c, ops, ops + [op]);
  }

  lemma {:induction false} RefusedGood<S, P>(server: Server<S, P>, c: Client<S, P>, ops: seq<Operation>, op: Operation)
    requires Good(server, c, ops)
    ensures Good(server, c.(settled := c.settled + [Settlement(c.next, Outcome.Rejected(op.operationId, c.version, "backpressure"), c.version)], next := c.next + 1), ops + [op])
  {
    var s := Settlement(c.next, Outcome.Rejected(op.operationId, c.version, "backpressure"), c.version);
    SettledAppend(c.settled, [s]);
    assert SettledTickets([s]) == [c.next];
    QueueGrows(server, c, ops, ops + [op]);
  }

  lemma {:induction false} SubmitGood<S, P>(server: Server<S, P>, limits: Limits, c: Client<S, P>, ops: seq<Operation>, input: Operation, patches: P, bytes: nat)
    requires Good(server, c, ops)
    ensures Good(server, Submitted(server.apply, limits, c, input, patches, bytes), ops + [input.(baseVersion := c.version)])
  {
    var op := input.(baseVersion := c.version);
    if Fits(limits, c, bytes) {
      var queued := c.(pending := c.pending + [Pending(c.next, op, patches, bytes, false, None, None)], next := c.next + 1);
      QueuedGood(server, c, ops, op, patches, bytes);
      ReprojectGood(server, queued, ops + [op]);
      FlushGood(server, Reproject(server.apply, queued), ops + [op]);
    } else {
      RefusedGood(server, c, ops, op);
    }
  }

  lemma {:induction false} SnapshotQueue<S, P>(server: Server<S, P>, ops: seq<Operation>, pending: seq<Pending<P>>, v: nat)
    requires forall i :: 0 <= i < |pending| ==> ItemOK(server, ops, pending[i])
    ensures forall i :: 0 <= i < |Kept(pending, v)| ==> ItemOK(server, ops, Kept(pending, v)[i])
    ensures forall i :: 0 <= i < |Settlements(pending, v)| ==> SettlementOK(server, ops, Settlements(pending, v)[i])
    decreases |pending|
  {
    if pending != [] {
      SnapshotQueue(server, ops, pending[1..], v);
      assert ItemOK(server, ops, pending[0]);
      var kept, rest := Kept(pending, v), Kept(pending[1..], v);
      forall i | 0 <= i < |kept| ensures ItemOK(server, ops, kept[i]) {
        if kept != rest && i > 0 { assert kept[i] == rest[i - 1]; }
      }
      var all, others := Settlements(pending, v), Settlements(pending[1..], v);
      forall i | 0 <= i < |all| ensures SettlementOK(server, ops, all[i]) {
        if all != others && i > 0 { assert all[i] == others[i - 1]; }
      }
    }
  }

  lemma {:induction false} SnapshotGood<S, P>(server: Server<S, P>, c: Client<S, P>, ops: seq<Operation>, v: nat, state: S)
    requires Good(server, c, ops) && Honest(server, Snapshot(v, state))
    ensures Good(server, OnSnapshot(server.apply, c, v, state), ops)
  {
    var moved := c.(canonical := Some(state), version := v, connection := if c.connection.Connecting? then Connecting else Online,
                    pending := Kept(c.pending, v), settled := c.settled + Settlements(c.pending, v));
    SnapshotQueue(server, ops, c.pending, v);
    SnapshotMovesTickets(c.pending, v);
    SettledAppend(c.settled, Settlements(c.pending, v));
    forall i | 0 <= i < |moved.settled| ensures SettlementOK(server, ops, moved.settled[i]) {
      if i < |c.settled| { assert SettlementOK(server, ops, c.settled[i]); }
    }
    ReprojectGood(server, moved, ops);
    FlushGood(server, Reproject(server.apply, moved), ops);
  }

  lemma {:induction false} ResultGood<S, P>(server: Server<S, P>, c: Client<S, P>, ops: seq<Operation>, r: Outcome<P>)
    requires Good(server, c, ops) && HonestOutcome(server, r)
    ensures Good(server, OnResult(server.apply, c, r), ops)
  {
    var d, i := OnResult(server.apply, c, r), FindId(c.pending, r.id);
    if r.ResyncRequired? || r.RetryLater? || (r.Accepted? && (c.canonical.None? || r.version > c.version + 1)) {
      FlagsOnly(server, c, ops, d);
    } else {
      var moved := if r.Accepted? && r.version == c.version + 1
                   then c.(canonical := Some(server.apply(c.canonical.value, r.patches)), version := r.version) else c;
      if i < 0 {
        ReprojectGood(server, moved, ops);
      } else {
        TakenGood(server, c, ops, r, i, moved);
      }
    }
  }

  lemma {:induction false} TakenGood<S, P>(server: Server<S, P>, c: Client<S, P>, ops: seq<Operation>, r: Outcome<P>, i: nat, moved: Client<S, P>)
    requires Good(server, c, ops) && HonestOutcome(server, r) && i < |c.pending| && c.pending[i].op.operationId == r.id
    requires moved == c.(canonical := moved.canonical, version := moved.version)
    requires if moved.canonical.None? then moved.version == 0 && moved.projected.None?
             else moved.version <= |server.log| && moved.canonical.value == Truth(server, moved.version)
    requires r.Accepted? ==> r.version <= moved.version
    ensures Good(server, Reproject(server.apply, moved.(pending := Without(c.pending, i), settled := c.settled + [Settlement(c.pending[i].ticket, r, moved.version)])), ops)
  {
    var s := Settlement(c.pending[i].ticket, r, moved.version);
    var done := moved.(pending := Without(c.pending, i), settled := c.settled + [s]);
    WithoutMovesTicket(c.pending, i);
    SettledAppend(c.settled, [s]);
    assert SettledTickets([s]) == [s.ticket];
    assert ItemOK(server, ops, c.pending[i]);
    forall j | 0 <= j < |done.pending| ensures ItemOK(server, ops, done.pending[j]) {
      assert done.pending[j] == c.pending[if j < i then j else j + 1];
    }
    forall j | 0 <= j < |done.settled| ensures SettlementOK(server, ops, done.settled[j]) {
      if j < |c.settled| { assert SettlementOK(server, ops, c.settled[j]); }
    }
    ReprojectGood(server, done, ops);
  }

  /** One stored entry put in front of the queue. */
  lemma {:induction false} UnshiftGood<S, P>(server: Server<S, P>, c: Client<S, P>, ops: seq<Operation>, entry: Stored<P>)
    requires Moved(server, c, ops)
    ensures var item := Pending(c.next, entry.op, entry.patches, entry.bytes, false, None, None);
      Moved(server, c.(pending := [item] + c.pending, next := c.next + 1), ops + [entry.op])
  {
    var item := Pending(c.next, entry.op, entry.patches, entry.bytes, false, None, None);
    var d, more := c.(pending := [item] + c.pending, next := c.next + 1), ops + [entry.op];
    PendingHead(item, c.pending);
    forall i | 0 <= i < |d.pending| ensures ItemOK(server, more, d.pending[i]) {
      if i > 0 { assert ItemOK(server, ops, c.pending[i - 1]); }
    }
    forall i | 0 <= i < |d.settled| ensures SettlementOK(server, more, d.settled[i]) { assert SettlementOK(server, ops, c.settled[i]); }
  }

  lemma {:induction false} RestoreGood<S, P>(server: Server<S, P>, c: Client<S, P>, ops: seq<Operation>, entries: seq<Stored<P>>)
    requires Moved(server, c, ops)
    ensures Moved(server, Restored(c, entries), ops + RestoredOps(c, entries))
    decreases |entries|
  {
    if entries == [] {
      assert ops + RestoredOps(c, entries) == ops;
    } else if FindId(c.pending, entries[0].op.operationId) >= 0 || !entries[0].sameRoom {
      RestoreGood(server, c, ops, entries[1..]);
    } else {
      var item := Pending(c.next, entries[0].op, entries[0].patches, entries[0].bytes, false, None, None);
      var d, more := c.(pending := [item] + c.pending, next := c.next + 1), ops + [entries[0].op];
      UnshiftGood(server, c, ops, entries[0]);
      RestoreGood(server, d, more, entries[1..]);
      assert ops + RestoredOps(c, entries) == more + RestoredOps(d, entries[1..]);
    }
  }

  lemma {:induction false} StepGood<S, P>(server: Server<S, P>, limits: Limits, c: Client<S, P>, ops: seq<Operation>, e: Event<S, P>)
    requires Good(server, c, ops) && (e.Receives? ==> Honest(server, e.message))
    ensures Good(server, Step(server.apply, limits, c, e), ops + NewOps(c, e))
  {
    assert ops + [] == ops;
    match e
    case Submits(input, patches, bytes) => SubmitGood(server, limits, c, ops, input, patches, bytes);
    case Receives(Snapshot(v, state)) => SnapshotGood(server, c, ops, v, state);
    case Receives(Canonical(v, patches)) => CanonicalGood(server, c, ops, v, patches);
    case Receives(ReadyAt(v)) =>
      FlagsOnly(server, c, ops, c.(connection := Online));
      FlushGood(server, c.(connection := Online), ops);
      FlagsOnly(server, c, ops, RequestRecovery(c));
    case Receives(ResultOf(r)) => ResultGood(server, c, ops, r);
    case RetryFires(ticket) => RetryGood(server, c, ops, ticket);
    case Opens => FlagsOnly(server, c, ops, OnOpen(c));
    case Closes => FlagsOnly(server, c, ops, OnClose(c));
    case Restores(entries) =>
      RestoreGood(server, c, ops, entries);
      ReprojectGood(server, Restored(c, entries), ops + RestoredOps(c, entries));
  }

  lemma {:induction false} CanonicalGood<S, P>(server: Server<S, P>, c: Client<S, P>, ops: seq<Operation>, v: nat, patches: P)
    requires Good(server, c, ops) && Honest(server, Canonical(v, patches))
    ensures Good(server, OnCanonical(server.apply, c, v, patches), ops)
  {
    if c.canonical.None? || v > c.version + 1 { FlagsOnly(server, c, ops, RequestRecovery(c)); }
  }

  lemma {:induction false} RetryGood<S, P>(server: Server<S, P>, c: Client<S, P>, ops: seq<Operation>, ticket: nat)
    requires Good(server, c, ops)
    ensures Good(server, OnRetry(c, ticket), ops)
  {
    var d := c.(pending := Rearmed(c.pending, ticket));
    forall i | 0 <= i < |d.pending| ensures ItemOK(server, ops, d.pending[i]) { assert ItemOK(server, ops, c.pending[i]); }
    FlagsOnly(server, c, ops, d);
    FlushGood(server, d, ops);
  }

  /**
   * Whatever is lost, repeated or reordered: the canonical state is the log's state at `canonicalVersion`, the
   * projection is the pending patches on top of it in queue order, every submission is queued or settled exactly
   * once under its own operation, and acceptance at w is reported only at a version of at least w.
   */
  lemma {:induction false} EveryRunIsGood<S, P>(server: Server<S, P>, limits: Limits, events: seq<Event<S, P>>)
    requires forall i :: 0 <= i < |events| && events[i].Receives? ==> Honest(server, events[i].message)
    ensures Good(server, After(server.apply, limits, events), Ops(server.apply, limits, events))
    ensures |Ops(server.apply, limits, events)| == After(server.apply, limits, events).next
    decreases |events|
  {
    if events != [] {
      var before, e := events[..|events| - 1], events[|events| - 1];
      EveryRunIsGood(server, limits, before);
      StepGood(server, limits, After(server.apply, limits, before), Ops(server.apply, limits, before), e);
    }
  }

  /** Settled promises stay settled, and operations keep their identity and base version for ever. */
  lemma {:induction false} SettledForever<S, P>(apply: (S, P) -> S, limits: Limits, events: seq<Event<S, P>>, n: nat)
    requires n <= |events|
    ensures After(apply, limits, events[..n]).settled <= After(apply, limits, events).settled
    ensures Ops(apply, limits, events[..n]) <= Ops(apply, limits, events)
    decreases |events|
  {
    if n < |events| {
      var before := events[..|events| - 1];
      assert before[..n] == events[..n];
      SettledForever(apply, limits, before, n);
      StepKeepsSettled(apply, limits, After(apply, limits, before), events[|events| - 1]);
    } else {
      assert events[..n] == events;
    }
  }

  lemma {:induction false} DerivedKeepsSettled<S, P>(apply: (S, P) -> S, c: Client<S, P>)
    ensures Flush(c).settled == c.settled && Reproject(apply, c).settled == c.settled
    ensures RequestRecovery(c).settled == c.settled && Flush(Reproject(apply, c)).settled == c.settled
  {
  }

  lemma {:induction false} SnapshotKeepsSettled<S, P>(apply: (S, P) -> S, c: Client<S, P>, v: nat, state: S)
    ensures c.settled <= OnSnapshot(apply, c, v, state).settled
  {
    var moved := c.(canonical := Some(state), version := v, connection := if c.connection.Connecting? then Connecting else Online,
                    pending := Kept(c.pending, v), settled := c.settled + Settlements(c.pending, v));
    DerivedKeepsSettled(apply, moved);
  }

  lemma {:induction false} ResultKeepsSettled<S, P>(apply: (S, P) -> S, c: Client<S, P>, r: Outcome<P>)
    ensures c.settled <= OnResult(apply, c, r).settled
  {
  }

  lemma {:induction false} SubmitKeepsSettled<S, P>(apply: (S, P) -> S, limits: Limits, c: Client<S, P>, input: Operation, patches: P, bytes: nat)
    ensures c.settled <= Submitted(apply, limits, c, input, patches, bytes).settled
  {
    var queued := c.(pending := c.pending + [Pending(c.next, input.(baseVersion := c.version), patches, bytes, false, None, None)], next := c.next + 1);
    DerivedKeepsSettled(apply, queued);
  }

  lemma {:induction false} StepKeepsSettled<S, P>(apply: (S, P) -> S, limits: Limits, c: Client<S, P>, e: Event<S, P>)
    ensures c.settled <= Step(apply, limits, c, e).settled
  {
    match e
    case Submits(input, patches, bytes) => SubmitKeepsSettled(apply, limits, c, input, patches, bytes);
    case Receives(Snapshot(v, state)) => SnapshotKeepsSettled(apply, c, v, state);
    case Receives(ResultOf(r)) => ResultKeepsSettled(apply, c, r);
    case Restores(entries) => RestoreKeepsSettled(c, entries);
    case Receives(Canonical(v, patches)) =>
    case Receives(ReadyAt(v)) =>
    case RetryFires(ticket) =>
    case Opens =>
    case Closes =>
  }

  lemma {:induction false} RestoreKeepsSettled<S, P>(c: Client<S, P>, entries: seq<Stored<P>>)
    ensures Restored(c, entries).settled == c.settled
    decreases |entries|
  {
    if entries != [] {
      var item := Pending(c.next, entries[0].op, entries[0].patches, entries[0].bytes, false, None, None);
      RestoreKeepsSettled(c, entries[1..]);
      RestoreKeepsSettled(c.(pending := [item] + c.pending, next := c.next + 1), entries[1..]);
    }
  }

  /** A ready client with an empty queue at the head of the log shows exactly the server's state. */
  lemma {:induction false} Converged<S, P>(server: Server<S, P>, c: Client<S, P>, ops: seq<Operation>)
    requires Good(server, c, ops) && c.canonical.Some? && c.version == |server.log| && c.pending == []
    ensures c.projected == Some(Truth(server, |server.log|)) && |c.settled| == |ops|
  {
    IssuedSize(c.next);
    assert |multiset(SettledTickets(c.settled))| == |c.settled|;
  }

  lemma {:induction false} IssuedSize(n: nat)
    ensures |Issued(n)| == n
  {
    if n > 0 { IssuedSize(n - 1); }
  }
}
