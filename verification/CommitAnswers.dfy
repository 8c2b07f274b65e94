/** Exactly-once answers, and delivery of every committed event through the outbox. */
module CommitAnswers {
  import opened Results
  import opened CommitStore
  import opened RoomWorker
  import opened CommitLog
  import opened CommitSafety

  // ---- answers ----

  /** A reply to an operation that is backed by a receipt. */
  datatype Given<+P> = Given(operationId: string, fingerprint: string, result: OperationResult<P>)

  function AnswerOf<S, P>(s: System<S, P>, a: Action<S, P>): Option<Given<P>>
    requires Enabled(s, a)
  {
    match a
    case Lookup(_, id, fingerprint) =>
      if id in s.db.receipts && s.db.receipts[id].fingerprint == fingerprint
      then Some(Given(id, fingerprint, s.db.receipts[id].result)) else None
    case DeliverCommit(i, _, now) =>
      var r := s.commits[i];
      var outcome := Commit(s.db, r, now).1;
      if outcome.Committed? then Some(Given(r.op.operationId, r.fingerprint, outcome.result))
      else if outcome.Duplicate? then Some(Given(r.op.operationId, r.fingerprint, outcome.prior))
      else None
    case PersistRejection(k, fingerprint, result, now) =>
      if RecordReceipt(s.db, k, s.sessions[k].instance, fingerprint, result, now).1 == Stored
      then Some(Given(result.operationId, fingerprint, result)) else None
    case _ => None
  }

  /** A receipt is about its own operation, and an acceptance names the log entry it stands for. */
  ghost predicate ReceiptOK<S, P>(h: History<S, P>, id: string, row: ReceiptRow<P>) {
    row.result.operationId == id && AcceptedIn(h, row.fingerprint, row.result)
  }

  ghost predicate AcceptedIn<S, P>(h: History<S, P>, fingerprint: string, result: OperationResult<P>) {
    result.Accepted? ==>
      && 0 < result.version <= |h.log|
      && h.log[result.version - 1].op.operationId == result.operationId
      && h.log[result.version - 1].patches == result.patches
      && h.log[result.version - 1].fingerprint == fingerprint
  }

  ghost predicate ReceiptsOK<S, P>(s: System<S, P>) {
    forall id :: id in s.db.receipts ==> ReceiptOK(s.h, id, s.db.receipts[id])
  }

  /** One step: receipts stay right, an answer is the receipt, and a receipt changes only by being deleted. */
  lemma {:induction false} AnswersAreReceipts<S, P>(d: Domain<S, P>, s: System<S, P>, a: Action<S, P>)
    requires Inv(d, s) && Enabled(s, a) && ReceiptsOK(s)
    ensures ReceiptsOK(Next(d, s, a))
    ensures AnswerOf(s, a).Some? ==>
      var answer, t := AnswerOf(s, a).value, Next(d, s, a);
      && answer.operationId in t.db.receipts && t.db.receipts[answer.operationId].fingerprint == answer.fingerprint
      && t.db.receipts[answer.operationId].result == answer.result
    ensures forall id :: id in s.db.receipts && id in Next(d, s, a).db.receipts ==> Next(d, s, a).db.receipts[id] == s.db.receipts[id]
    ensures forall id :: id in s.db.receipts && id !in Next(d, s, a).db.receipts ==> a.CompactAll?
  {
    if a.DeliverCommit? { CommitReceipts(d, s, a.i, a.replied, a.now); }
    else if a.PersistRejection? { }
    else { SameReceipts(d, s, a); }
  }

  lemma {:induction false} SameReceipts<S, P>(d: Domain<S, P>, s: System<S, P>, a: Action<S, P>)
    requires |s.h.eras| > 0 && Enabled(s, a) && ReceiptsOK(s) && !a.DeliverCommit? && !a.PersistRejection?
    ensures ReceiptsOK(Next(d, s, a))
    ensures forall id :: id in Next(d, s, a).db.receipts ==> id in s.db.receipts && Next(d, s, a).db.receipts[id] == s.db.receipts[id]
    ensures !a.CompactAll? ==> Next(d, s, a).db.receipts == s.db.receipts
  {
    var t := Next(d, s, a);
    assert t.h.log == s.h.log;
    assert forall id :: id in t.db.receipts ==> id in s.db.receipts && t.db.receipts[id] == s.db.receipts[id];
    forall id | id in t.db.receipts ensures ReceiptOK(t.h, id, t.db.receipts[id]) {
      assert ReceiptOK(s.h, id, s.db.receipts[id]);
    }
  }

  lemma {:induction false} CommitReceipts<S, P>(d: Domain<S, P>, s: System<S, P>, i: nat, replied: bool, now: nat)
    requires Inv(d, s) && Enabled(s, DeliverCommit(i, replied, now)) && ReceiptsOK(s)
    ensures var t, r := Next(d, s, DeliverCommit(i, replied, now)), s.commits[i];
      && ReceiptsOK(t)
      && if Commit(s.db, r, now).1.Committed?
         then r.op.operationId !in s.db.receipts
              && t.db.receipts == s.db.receipts[r.op.operationId := ReceiptRow(r.fingerprint, Commit(s.db, r, now).1.result, now)]
         else t.db == s.db
  {
    var t, r := Next(d, s, DeliverCommit(i, replied, now)), s.commits[i];
    if Commit(s.db, r, now).1.Committed? {
      forall id | id in t.db.receipts ensures ReceiptOK(t.h, id, t.db.receipts[id]) {
        if id != r.op.operationId { assert ReceiptOK(s.h, id, s.db.receipts[id]); }
      }
    }
  }

  lemma {:induction false} ReceiptsStayRight<S, P>(d: Domain<S, P>, states: seq<System<S, P>>, actions: seq<Action<S, P>>, schema: string, initial: S, n: nat)
    requires Run(d, states, actions) && states[0] == Start(schema, initial) && n <= |actions|
    ensures Inv(d, states[n]) && ReceiptsOK(states[n])
  {
    EveryRunIsSafe(d, states, actions, schema, initial, n);
    if n > 0 {
      ReceiptsStayRight(d, states, actions, schema, initial, n - 1);
      AnswersAreReceipts(d, states[n - 1], actions[n - 1]);
    }
  }

  lemma {:induction false} RetainedReceiptIsFixed<S, P>(d: Domain<S, P>, states: seq<System<S, P>>, actions: seq<Action<S, P>>, schema: string, initial: S, id: string, i: nat, j: nat)
    requires Run(d, states, actions) && states[0] == Start(schema, initial) && i <= j < |states|
    requires forall n :: i <= n <= j ==> id in states[n].db.receipts
    ensures states[j].db.receipts[id] == states[i].db.receipts[id]
    decreases j
  {
    if i < j {
      RetainedReceiptIsFixed(d, states, actions, schema, initial, id, i, j - 1);
      ReceiptsStayRight(d, states, actions, schema, initial, j - 1);
      AnswersAreReceipts(d, states[j - 1], actions[j - 1]);
    }
  }

  /**
   * Exactly-once answers: two answers to one operation, from any workers and after any losses and retries, are the
   * same as long as the receipt was retained in between.
   */
  lemma {:induction false} ExactlyOnce<S, P>(d: Domain<S, P>, states: seq<System<S, P>>, actions: seq<Action<S, P>>, schema: string, initial: S, i: nat, j: nat)
    requires Run(d, states, actions) && states[0] == Start(schema, initial) && i < j < |actions|
    requires AnswerOf(states[i], actions[i]).Some? && AnswerOf(states[j], actions[j]).Some?
    requires AnswerOf(states[i], actions[i]).value.operationId == AnswerOf(states[j], actions[j]).value.operationId
    requires forall n :: i < n <= j ==> AnswerOf(states[i], actions[i]).value.operationId in states[n].db.receipts
    ensures AnswerOf(states[i], actions[i]) == AnswerOf(states[j], actions[j])
  {
    var id := AnswerOf(states[i], actions[i]).value.operationId;
    ReceiptsStayRight(d, states, actions, schema, initial, i);
    ReceiptsStayRight(d, states, actions, schema, initial, j);
    AnswersAreReceipts(d, states[i], actions[i]);
    AnswersAreReceipts(d, states[j], actions[j]);
    RetainedReceiptIsFixed(d, states, actions, schema, initial, id, i + 1, j);
  }

  /** An accepted answer, however late it is given, names the entry that the log holds for ever at that version. */
  lemma {:induction false} AcceptedAnswerIsLogged<S, P>(d: Domain<S, P>, states: seq<System<S, P>>, actions: seq<Action<S, P>>, schema: string, initial: S, i: nat, j: nat)
    requires Run(d, states, actions) && states[0] == Start(schema, initial) && i < j < |states|
    requires AnswerOf(states[i], actions[i]).Some?
    ensures AcceptedIn(states[j].h, AnswerOf(states[i], actions[i]).value.fingerprint, AnswerOf(states[i], actions[i]).value.result)
  {
    ReceiptsStayRight(d, states, actions, schema, initial, i);
    AnswersAreReceipts(d, states[i], actions[i]);
    ReceiptsStayRight(d, states, actions, schema, initial, i + 1);
    StaleWritersAreHarmless(d, states, actions, i + 1, j);
    var id := AnswerOf(states[i], actions[i]).value.operationId;
    assert ReceiptOK(states[i + 1].h, id, states[i + 1].db.receipts[id]);
  }

  /** An operation that has a receipt, under whatever fingerprint, or a retained log row is not committed again. */
  lemma {:induction false} NeverCommittedTwice<S, P>(d: Domain<S, P>, s: System<S, P>, i: nat, replied: bool, now: nat)
    requires Inv(d, s) && Enabled(s, DeliverCommit(i, replied, now))
    requires var id := s.commits[i].op.operationId;
      id in s.db.receipts || exists v :: v in s.db.wal && s.db.wal[v].op.operationId == id
    ensures Next(d, s, DeliverCommit(i, replied, now)).db == s.db
    ensures Next(d, s, DeliverCommit(i, replied, now)).h == s.h
  {
  }

  /** If one operation occupies two log entries, the row of the first was compacted away. */
  lemma {:induction false} SecondCommitNeedsCompaction<S, P>(d: Domain<S, P>, s: System<S, P>, v: nat, w: nat)
    requires Inv(d, s) && 0 < v < w <= |s.h.log|
    requires s.h.log[v - 1].op.operationId == s.h.log[w - 1].op.operationId
    ensures v !in s.db.wal && v <= s.h.cut
  {
    assert v in s.db.wal ==> w in s.db.wal;
  }

  // ---- outbox ----

  ghost predicate OutboxOK<S, P>(s: System<S, P>, done: set<nat>) {
    && (forall i :: 0 <= i < |s.db.outbox| ==> RowOK(s, done, s.db.outbox[i]))
    && (forall i, j :: 0 <= i < j < |s.db.outbox| ==> s.db.outbox[i].id < s.db.outbox[j].id)
    && s.db.nextOutboxId == |s.h.log|
    && (forall n :: 0 <= n < |s.h.log| ==> n in done || HasRow(s.db.outbox, n))
  }

  /** Row `n` carries the event of version `n + 1`; it is marked only when its delivery was reported. */
  ghost predicate RowOK<S, P>(s: System<S, P>, done: set<nat>, row: OutboxRow<P>) {
    && row.id < |s.h.log| && row.event == EventOf(row.id + 1, s.h.log[row.id])
    && (row.delivered.Some? ==> row.id in done)
  }

  ghost predicate HasRow<P>(outbox: seq<OutboxRow<P>>, n: nat) {
    exists i :: 0 <= i < |outbox| && outbox[i].id == n
  }

  /** Locking changes no row's event or delivery mark. */
  lemma {:induction false} LockKeeps<P>(outbox: seq<OutboxRow<P>>, instance: string, limit: nat, now: nat)
    ensures var rows := LockOutbox(outbox, instance, limit, now).0;
      |rows| == |outbox| && forall i :: 0 <= i < |rows| ==> rows[i].id == outbox[i].id && rows[i].event == outbox[i].event && rows[i].delivered == outbox[i].delivered
  {
  }

  lemma {:induction false} KeepOutboxKeeps<P>(outbox: seq<OutboxRow<P>>, ttl: nat, now: nat)
    requires forall i, j :: 0 <= i < j < |outbox| ==> outbox[i].id < outbox[j].id
    ensures var kept := KeepOutbox(outbox, ttl, now);
      && (forall row :: row in kept ==> row in outbox)
      && (forall i :: 0 <= i < |outbox| && outbox[i].delivered.None? ==> outbox[i] in kept)
      && (forall i, j :: 0 <= i < j < |kept| ==> kept[i].id < kept[j].id)
    decreases |outbox|
  {
    if outbox != [] {
      KeepOutboxKeeps(outbox[1..], ttl, now);
      var kept, rest := KeepOutbox(outbox, ttl, now), KeepOutbox(outbox[1..], ttl, now);
      forall row | row in rest ensures outbox[0].id < row.id {
        var i :| 0 <= i < |outbox[1..]| && outbox[1..][i] == row;
        assert outbox[i + 1] == row;
      }
      forall i, j | 0 <= i < j < |kept| ensures kept[i].id < kept[j].id {
        if kept != rest {
          assert kept == [outbox[0]] + rest;
          assert kept[j] == rest[j - 1];
          if i > 0 { assert kept[i] == rest[i - 1]; }
        }
      }
    }
  }

  /** The rows reported as delivered after a step. */
  function Done<S, P>(done: set<nat>, a: Action<S, P>): set<nat> {
    if a.MarkRow? then done + {a.id} else done
  }

  lemma {:induction false} OutboxStep<S, P>(d: Domain<S, P>, s: System<S, P>, done: set<nat>, a: Action<S, P>)
    requires Inv(d, s) && Enabled(s, a) && OutboxOK(s, done)
    ensures OutboxOK(Next(d, s, a), Done(done, a))
  {
    OnlyCommitsLog(d, s, a);
    if a.DeliverCommit? { OutboxCommit(d, s, done, a.i, a.replied, a.now); }
    else if a.LockRows? { OutboxLock(d, s, done, a.instance, a.limit, a.now); }
    else if a.MarkRow? { OutboxMark(d, s, done, a.id, a.now); }
    else if a.CompactAll? { OutboxCompact(d, s, done, a.policy, a.now); }
    else {
      var t := Next(d, s, a);
      assert t.db.outbox == s.db.outbox && t.h.log == s.h.log && t.db.nextOutboxId == s.db.nextOutboxId;
      forall i | 0 <= i < |t.db.outbox| ensures RowOK(t, done, t.db.outbox[i]) { assert RowOK(s, done, s.db.outbox[i]); }
    }
  }

  lemma {:induction false} OutboxCommit<S, P>(d: Domain<S, P>, s: System<S, P>, done: set<nat>, i: nat, replied: bool, now: nat)
    requires Inv(d, s) && Enabled(s, DeliverCommit(i, replied, now)) && OutboxOK(s, done)
    ensures OutboxOK(Next(d, s, DeliverCommit(i, replied, now)), done)
  {
    var t := Next(d, s, DeliverCommit(i, replied, now));
    if t.h.log == s.h.log {
      assert t.db == s.db;
      forall j | 0 <= j < |t.db.outbox| ensures RowOK(t, done, t.db.outbox[j]) { assert RowOK(s, done, s.db.outbox[j]); }
      return;
    }
    var m := |s.db.outbox|;
    forall j | 0 <= j < |t.db.outbox| ensures RowOK(t, done, t.db.outbox[j]) {
      if j < m { assert RowOK(s, done, s.db.outbox[j]); assert t.db.outbox[j] == s.db.outbox[j]; }
    }
    forall n | 0 <= n < |t.h.log| ensures n in done || HasRow(t.db.outbox, n) {
      if n == |s.h.log| { assert t.db.outbox[m].id == n; }
      else if n !in done {
        var j :| 0 <= j < m && s.db.outbox[j].id == n;
        assert t.db.outbox[j].id == n;
      }
    }
    forall j | 0 <= j < m ensures s.db.outbox[j].id < |s.h.log| { assert RowOK(s, done, s.db.outbox[j]); }
  }

  lemma {:induction false} OutboxLock<S, P>(d: Domain<S, P>, s: System<S, P>, done: set<nat>, instance: string, limit: nat, now: nat)
    requires Inv(d, s) && OutboxOK(s, done)
    ensures OutboxOK(Next(d, s, LockRows(instance, limit, now)), done)
  {
    var t := Next(d, s, LockRows(instance, limit, now));
    LockKeeps(s.db.outbox, instance, limit, now);
    forall i | 0 <= i < |t.db.outbox| ensures RowOK(t, done, t.db.outbox[i]) { assert RowOK(s, done, s.db.outbox[i]); }
    SameRows(s.db.outbox, t.db.outbox, done, |s.h.log|);
  }

  lemma {:induction false} SameRows<P>(before: seq<OutboxRow<P>>, after: seq<OutboxRow<P>>, done: set<nat>, n: nat)
    requires |before| == |after| && forall i :: 0 <= i < |before| ==> after[i].id == before[i].id
    requires forall m :: 0 <= m < n ==> m in done || HasRow(before, m)
    ensures forall m :: 0 <= m < n ==> m in done || HasRow(after, m)
  {
    forall m | 0 <= m < n && m !in done ensures HasRow(after, m) {
      var j :| 0 <= j < |before| && before[j].id == m;
      assert after[j].id == m;
    }
  }

  lemma {:induction false} OutboxMark<S, P>(d: Domain<S, P>, s: System<S, P>, done: set<nat>, id: nat, now: nat)
    requires Inv(d, s) && OutboxOK(s, done)
    ensures OutboxOK(Next(d, s, MarkRow(id, now)), done + {id})
  {
    var t := Next(d, s, MarkRow(id, now));
    forall i | 0 <= i < |t.db.outbox| ensures RowOK(t, done + {id}, t.db.outbox[i]) { assert RowOK(s, done, s.db.outbox[i]); }
    SameRows(s.db.outbox, t.db.outbox, done, |s.h.log|);
  }

  lemma {:induction false} OutboxCompact<S, P>(d: Domain<S, P>, s: System<S, P>, done: set<nat>, policy: Retention, now: nat)
    requires Inv(d, s) && OutboxOK(s, done)
    ensures OutboxOK(Next(d, s, CompactAll(policy, now)), done)
  {
    var t := Next(d, s, CompactAll(policy, now));
    KeepOutboxKeeps(s.db.outbox, policy.outboxTtl, now);
    forall i | 0 <= i < |t.db.outbox| ensures RowOK(t, done, t.db.outbox[i]) {
      assert t.db.outbox[i] in t.db.outbox;
      var j :| 0 <= j < |s.db.outbox| && s.db.outbox[j] == t.db.outbox[i];
      assert RowOK(s, done, s.db.outbox[j]);
    }
    forall n | 0 <= n < |t.h.log| ensures n in done || HasRow(t.db.outbox, n) {
      if n !in done {
        var j :| 0 <= j < |s.db.outbox| && s.db.outbox[j].id == n;
        assert RowOK(s, done, s.db.outbox[j]) && s.db.outbox[j] in t.db.outbox;
      }
    }
  }

  /** The outbox rows that some dispatcher has reported as delivered by the `n`th step. */
  function DoneBy<S, P>(actions: seq<Action<S, P>>, n: nat): set<nat>
    requires n <= |actions|
  {
    if n == 0 then {} else Done(DoneBy(actions, n - 1), actions[n - 1])
  }

  /** No committed event leaves the outbox before a dispatcher has reported it delivered, and none is altered. */
  lemma {:induction false} NoEventIsLost<S, P>(d: Domain<S, P>, states: seq<System<S, P>>, actions: seq<Action<S, P>>, schema: string, initial: S, n: nat)
    requires Run(d, states, actions) && states[0] == Start(schema, initial) && n <= |actions|
    ensures OutboxOK(states[n], DoneBy(actions, n))
  {
    if n > 0 {
      NoEventIsLost(d, states, actions, schema, initial, n - 1);
      EveryRunIsSafe(d, states, actions, schema, initial, n - 1);
      OutboxStep(d, states[n - 1], DoneBy(actions, n - 1), actions[n - 1]);
    }
  }
}
