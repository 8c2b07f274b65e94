/** The durable tables of one document and the transactions on them. */
module CommitStore {
  import opened Results
  import opened Json

  datatype Operation = Operation(operationId: string, actorId: string, baseVersion: nat, schemaVersion: string, payload: Json)

  datatype OperationResult<+P> =
    | Accepted(operationId: string, version: nat, patches: P)
    | Rejected(operationId: string, version: nat, code: string)

  datatype Event<+P> = Event(operationId: string, actorId: string, version: nat, patches: P)

  // ---- rows ----

  datatype Head = Head(version: nat, epoch: nat, owner: Option<string>, schema: string, pointer: nat)
  datatype SnapshotRow<+S> = SnapshotRow(schema: string, state: S)
  datatype WalRow<+P> = WalRow(op: Operation, patches: P, fingerprint: string)
  datatype ReceiptRow<+P> = ReceiptRow(fingerprint: string, result: OperationResult<P>, createdAt: nat)
  datatype OutboxRow<+P> = OutboxRow(id: nat, event: Event<P>, delivered: Option<nat>, lockedBy: Option<string>, lockedUntil: Option<nat>)

  /** `migrations` are the keys of the schema history: the version at which a migration took place, and its target. */
  datatype Db<S, P> = Db(
    head: Option<Head>,
    snapshots: map<nat, SnapshotRow<S>>,
    wal: map<nat, WalRow<P>>,
    receipts: map<string, ReceiptRow<P>>,
    outbox: seq<OutboxRow<P>>,
    nextOutboxId: nat,
    migrations: set<(nat, string)>)

  // ---- requests and outcomes ----

  datatype CommitRequest<+P> = CommitRequest(epoch: nat, instance: string, resolvedAt: nat, op: Operation, patches: P, fingerprint: string)

  datatype CommitOutcome<+P> =
    | Committed(result: OperationResult<P>)
    | Duplicate(prior: OperationResult<P>)
    | Collision(version: nat)
    | VersionConflict(version: nat)
    | Fenced(version: nat)
    | Threw(message: string)

  datatype MigrationRequest<+S> = MigrationRequest(epoch: nat, instance: string, version: nat, fromSchema: string, toSchema: string, state: S)
  datatype MigrationOutcome = Migrated | AlreadyCurrent | MigrationFenced | MigrationConflict | MigrationThrew
  datatype ReceiptOutcome = Stored | Exists | ReceiptFenced | ReceiptThrew
  datatype Retention = Retention(walVersions: nat, receiptTtl: nat, outboxTtl: nat, snapshotsPerDocument: nat)

  /** What `loadRoom` returns: the snapshot at the pointer and the WAL rows after it, in version order. */
  datatype Loaded<+S, +P> = Loaded(schema: string, version: nat, state: S, wal: seq<(nat, WalRow<P>)>)

  // ---- transactions ----

  function EnsureDocument<S, P>(db: Db<S, P>, schema: string, initial: S): Db<S, P> {
    if db.head.Some? then db
    else db.(head := Some(Head(0, 0, None, schema, 0)), snapshots := db.snapshots[0 := SnapshotRow(schema, initial)])
  }

  function ClaimOwnership<S, P>(db: Db<S, P>, instance: string): (Db<S, P>, Result<nat>) {
    match db.head
    case None =>
      var missing: Result<nat> := Err("document must be created before ownership is claimed");
      (db, missing)
    case Some(h) => (db.(head := Some(h.(epoch := h.epoch + 1, owner := Some(instance)))), Ok(h.epoch + 1))
  }

  /** The WAL rows with a version in (after, upto], ascending. */
  function RowsAfter<P>(wal: map<nat, WalRow<P>>, after: nat, upto: nat): seq<(nat, WalRow<P>)>
    decreases upto - after
  {
    if after >= upto then []
    else (if after + 1 in wal then [(after + 1, wal[after + 1])] else []) + RowsAfter(wal, after + 1, upto)
  }

  function LoadRoom<S, P>(db: Db<S, P>): Result<Loaded<S, P>> {
    match db.head
    case None => Err("document does not exist")
    case Some(h) =>
      if h.pointer !in db.snapshots then Err("document snapshot pointer is invalid")
      else Ok(Loaded(h.schema, h.version, db.snapshots[h.pointer].state, RowsAfter(db.wal, h.pointer, h.version)))
  }

  predicate Owns(h: Head, epoch: nat, instance: string) {
    h.epoch == epoch && h.owner == Some(instance)
  }

  function RecordReceipt<S, P>(db: Db<S, P>, epoch: nat, instance: string, fingerprint: string, result: OperationResult<P>, now: nat)
    : (Db<S, P>, ReceiptOutcome)
  {
    match db.head
    case None => (db, ReceiptThrew)
    case Some(h) =>
      if !Owns(h, epoch, instance) then (db, ReceiptFenced)
      else if result.operationId in db.receipts then (db, Exists)
      else (db.(receipts := db.receipts[result.operationId := ReceiptRow(fingerprint, result, now)]), Stored)
  }

  /** The two constraints on the WAL table: one row a version, one row an operation. */
  predicate WalAccepts<P>(wal: map<nat, WalRow<P>>, version: nat, operationId: string) {
    version !in wal && forall v | v in wal :: wal[v].op.operationId != operationId
  }

  function Commit<S, P>(db: Db<S, P>, r: CommitRequest<P>, now: nat): (Db<S, P>, CommitOutcome<P>) {
    match db.head
    case None => (db, Threw("document does not exist"))
    case Some(h) =>
      var id := r.op.operationId;
      if id in db.receipts then
        (db, if db.receipts[id].fingerprint != r.fingerprint then Collision(h.version) else Duplicate(db.receipts[id].result))
      else if !Owns(h, r.epoch, r.instance) then (db, Fenced(h.version))
      else if h.version != r.resolvedAt then (db, VersionConflict(h.version))
      else if !WalAccepts(db.wal, h.version + 1, id) then (db, Threw("unique violation"))
      else
        var next := h.version + 1;
        var result := Accepted(id, next, r.patches);
        var event := Event(id, r.op.actorId, next, r.patches);
        (db.(
          wal := db.wal[next := WalRow(r.op, r.patches, r.fingerprint)],
          receipts := db.receipts[id := ReceiptRow(r.fingerprint, result, now)],
          outbox := db.outbox + [OutboxRow(db.nextOutboxId, event, None, None, None)],
          nextOutboxId := db.nextOutboxId + 1,
          head := Some(h.(version := next))),
        Committed(result))
  }

  function MigrateDocument<S, P>(db: Db<S, P>, r: MigrationRequest<S>): (Db<S, P>, MigrationOutcome) {
    match db.head
    case None => (db, MigrationThrew)
    case Some(h) =>
      if !Owns(h, r.epoch, r.instance) then (db, MigrationFenced)
      else if h.version != r.version || h.schema != r.fromSchema then
        (db, if h.schema == r.toSchema && h.version == r.version then AlreadyCurrent else MigrationConflict)
      else if (r.version, r.toSchema) in db.migrations then (db, MigrationThrew)
      else
        (db.(snapshots := db.snapshots[r.version := SnapshotRow(r.toSchema, r.state)],
             migrations := db.migrations + {(r.version, r.toSchema)},
             head := Some(h.(schema := r.toSchema, pointer := r.version))),
         Migrated)
  }

  function SaveSnapshot<S, P>(db: Db<S, P>, version: nat, schema: string, state: S): Db<S, P> {
    var snapshots := if version in db.snapshots then db.snapshots else db.snapshots[version := SnapshotRow(schema, state)];
    match db.head
    case None => db.(snapshots := snapshots)
    case Some(h) =>
      if h.version >= version && h.pointer < version && h.schema == schema
      then db.(snapshots := snapshots, head := Some(h.(pointer := version)))
      else db.(snapshots := snapshots)
  }

  function EventOf<P>(version: nat, row: WalRow<P>): Event<P> {
    Event(row.op.operationId, row.op.actorId, version, row.patches)
  }

  function EventsOf<P>(rows: seq<(nat, WalRow<P>)>): seq<Event<P>> {
    seq(|rows|, i requires 0 <= i < |rows| => EventOf(rows[i].0, rows[i].1))
  }

  function EventsAfter<S, P>(db: Db<S, P>, after: nat, limit: nat): seq<Event<P>> {
    var rows := match db.head case None => [] case Some(h) => RowsAfter(db.wal, after, h.version);
    EventsOf(if |rows| <= limit then rows else rows[..limit])
  }

  predicate Claimable<P>(row: OutboxRow<P>, now: nat) {
    row.delivered.None? && (row.lockedUntil.None? || row.lockedUntil.value < now)
  }

  function Locked<P>(row: OutboxRow<P>, instance: string, now: nat): OutboxRow<P> {
    row.(lockedBy := Some(instance), lockedUntil := Some(now + 10000))
  }

  /** How many of the first `n` rows are claimable. */
  function ClaimableBefore<P>(outbox: seq<OutboxRow<P>>, n: nat, now: nat): nat
    requires n <= |outbox|
  {
    if n == 0 then 0 else ClaimableBefore(outbox, n - 1, now) + if Claimable(outbox[n - 1], now) then 1 else 0
  }

  /** Among the first `limit` claimable rows. */
  predicate Chosen<P>(outbox: seq<OutboxRow<P>>, i: nat, limit: nat, now: nat)
    requires i < |outbox|
  {
    Claimable(outbox[i], now) && ClaimableBefore(outbox, i, now) < limit
  }

  function HandedOut<P>(outbox: seq<OutboxRow<P>>, n: nat, instance: string, limit: nat, now: nat): seq<OutboxRow<P>>
    requires n <= |outbox|
  {
    if n == 0 then []
    else HandedOut(outbox, n - 1, instance, limit, now) + if Chosen(outbox, n - 1, limit, now) then [Locked(outbox[n - 1], instance, now)] else []
  }

  /** Locks up to `limit` undelivered rows for ten seconds: the table, and the rows handed out. */
  function LockOutbox<P>(outbox: seq<OutboxRow<P>>, instance: string, limit: nat, now: nat): (seq<OutboxRow<P>>, seq<OutboxRow<P>>) {
    (seq(|outbox|, i requires 0 <= i < |outbox| => if Chosen(outbox, i, limit, now) then Locked(outbox[i], instance, now) else outbox[i]),
     HandedOut(outbox, |outbox|, instance, limit, now))
  }

  function Delivered<P>(outbox: seq<OutboxRow<P>>, id: nat, now: nat): seq<OutboxRow<P>> {
    seq(|outbox|, i requires 0 <= i < |outbox| =>
      if outbox[i].id == id then outbox[i].(delivered := Some(now), lockedBy := None, lockedUntil := None) else outbox[i])
  }

  function KeepOutbox<P>(outbox: seq<OutboxRow<P>>, ttl: nat, now: nat): seq<OutboxRow<P>> {
    if outbox == [] then []
    else (if outbox[0].delivered.Some? && outbox[0].delivered.value + ttl < now then [] else [outbox[0]])
         + KeepOutbox(outbox[1..], ttl, now)
  }

  function Min(a: int, b: int): int { if a <= b then a else b }

  /** The rank of a snapshot row when the newest row has rank 1. */
  function Rank<S>(snapshots: map<nat, SnapshotRow<S>>, version: nat): nat {
    |set v | v in snapshots && v >= version|
  }

  function WalCut(h: Head, keep: nat): int {
    Min(h.pointer, if h.version >= keep then h.version - keep else 0)
  }

  function Compact<S, P>(db: Db<S, P>, policy: Retention, now: nat): Db<S, P> {
    var receipts := map id | id in db.receipts && db.receipts[id].createdAt + policy.receiptTtl >= now :: db.receipts[id];
    var outbox := KeepOutbox(db.outbox, policy.outboxTtl, now);
    match db.head
    case None => db.(receipts := receipts, outbox := outbox)
    case Some(h) =>
      db.(wal := map v | v in db.wal && v > WalCut(h, policy.walVersions) :: db.wal[v],
          receipts := receipts,
          outbox := outbox,
          snapshots := map v | v in db.snapshots && (Rank(db.snapshots, v) <= policy.snapshotsPerDocument || v == h.pointer) :: db.snapshots[v])
  }

  /** Row `k`, when chosen, is handed out at the place that the claimable rows before it give it. */
  lemma {:induction false} HandsOutFirst<P>(outbox: seq<OutboxRow<P>>, n: nat, instance: string, limit: nat, now: nat)
    requires n <= |outbox|
    ensures |HandedOut(outbox, n, instance, limit, now)| == Min(limit, ClaimableBefore(outbox, n, now))
    ensures forall k :: 0 <= k < n && Chosen(outbox, k, limit, now) ==>
      var at := ClaimableBefore(outbox, k, now);
      at < |HandedOut(outbox, n, instance, limit, now)| && HandedOut(outbox, n, instance, limit, now)[at] == Locked(outbox[k], instance, now)
  {
    if n > 0 { HandsOutFirst(outbox, n - 1, instance, limit, now); }
  }

  // ---- the store object ----

  /** `PostgresCommitStore` for one document: tables changed in place, one transaction a method. */
  class PostgresCommitStore<S, P> {
    var head: Option<Head>
    var snapshots: map<nat, SnapshotRow<S>>
    var wal: map<nat, WalRow<P>>
    var receipts: map<string, ReceiptRow<P>>
    var outbox: seq<OutboxRow<P>>
    var nextOutboxId: nat
    var migrations: set<(nat, string)>

    ghost function Tables(): Db<S, P>
      reads this
    {
      Db(head, snapshots, wal, receipts, outbox, nextOutboxId, migrations)
    }

    constructor ()
      ensures Tables() == Db(None, map[], map[], map[], [], 0, {})
    {
      head, snapshots, wal, receipts, outbox, nextOutboxId, migrations := None, map[], map[], map[], [], 0, {};
    }

    method Ensure(schema: string, initial: S)
      modifies this
      ensures Tables() == EnsureDocument(old(Tables()), schema, initial)
    {
      if head.Some? { return; }
      head := Some(Head(0, 0, None, schema, 0));
      snapshots := snapshots[0 := SnapshotRow(schema, initial)];
    }

    method Claim(instance: string) returns (r: Result<nat>)
      modifies this
      ensures (Tables(), r) == ClaimOwnership(old(Tables()), instance)
    {
      if head.None? { return Err("document must be created before ownership is claimed"); }
      head := Some(head.value.(epoch := head.value.epoch + 1, owner := Some(instance)));
      return Ok(head.value.epoch);
    }

    method Record(epoch: nat, instance: string, fingerprint: string, result: OperationResult<P>, now: nat) returns (outcome: ReceiptOutcome)
      modifies this
      ensures (Tables(), outcome) == RecordReceipt(old(Tables()), epoch, instance, fingerprint, result, now)
    {
      if head.None? { return ReceiptThrew; }
      if !Owns(head.value, epoch, instance) { return ReceiptFenced; }
      if result.operationId in receipts { return Exists; }
      receipts := receipts[result.operationId := ReceiptRow(fingerprint, result, now)];
      return Stored;
    }

    method CommitOperation(r: CommitRequest<P>, now: nat) returns (outcome: CommitOutcome<P>)
      modifies this
      ensures (Tables(), outcome) == Commit(old(Tables()), r, now)
    {
      if head.None? { return Threw("document does not exist"); }
      var h, id := head.value, r.op.operationId;
      if id in receipts {
        if receipts[id].fingerprint != r.fingerprint { return Collision(h.version); }
        return Duplicate(receipts[id].result);
      }
      if !Owns(h, r.epoch, r.instance) { return Fenced(h.version); }
      if h.version != r.resolvedAt { return VersionConflict(h.version); }
      var next := h.version + 1;
      if !WalAccepts(wal, next, id) { return Threw("unique violation"); }
      var result := Accepted(id, next, r.patches);
      wal := wal[next := WalRow(r.op, r.patches, r.fingerprint)];
      receipts := receipts[id := ReceiptRow(r.fingerprint, result, now)];
      outbox := outbox + [OutboxRow(nextOutboxId, Event(id, r.op.actorId, next, r.patches), None, None, None)];
      nextOutboxId := nextOutboxId + 1;
      head := Some(h.(version := next));
      return Committed(result);
    }

    method Migrate(r: MigrationRequest<S>) returns (outcome: MigrationOutcome)
      modifies this
      ensures (Tables(), outcome) == MigrateDocument(old(Tables()), r)
    {
      if head.None? { return MigrationThrew; }
      var h := head.value;
      if !Owns(h, r.epoch, r.instance) { return MigrationFenced; }
      if h.version != r.version || h.schema != r.fromSchema {
        if h.schema == r.toSchema && h.version == r.version { return AlreadyCurrent; }
        return MigrationConflict;
      }
      if (r.version, r.toSchema) in migrations { return MigrationThrew; }
      snapshots := snapshots[r.version := SnapshotRow(r.toSchema, r.state)];
      migrations := migrations + {(r.version, r.toSchema)};
      head := Some(h.(schema := r.toSchema, pointer := r.version));
      return Migrated;
    }

    method Save(version: nat, schema: string, state: S)
      modifies this
      ensures Tables() == SaveSnapshot(old(Tables()), version, schema, state)
    {
      if version !in snapshots { snapshots := snapshots[version := SnapshotRow(schema, state)]; }
      if head.Some? && head.value.version >= version && head.value.pointer < version && head.value.schema == schema {
        head := Some(head.value.(pointer := version));
      }
    }

    /** The first `limit` claimable rows are locked and handed out in order; every other row stays as it is. */
    method LockRows(instance: string, limit: nat, now: nat) returns (claimed: seq<OutboxRow<P>>)
      modifies this
      ensures (outbox, claimed) == LockOutbox(old(outbox), instance, limit, now)
      ensures Tables() == old(Tables()).(outbox := outbox)
      ensures |claimed| == Min(limit, ClaimableBefore(old(outbox), |old(outbox)|, now)) && |outbox| == |old(outbox)|
      ensures forall i :: 0 <= i < |outbox| ==>
        if Claimable(old(outbox)[i], now) && ClaimableBefore(old(outbox), i, now) < limit
        then ClaimableBefore(old(outbox), i, now) < |claimed| && claimed[ClaimableBefore(old(outbox), i, now)] == outbox[i]
             && outbox[i] == old(outbox)[i].(lockedBy := Some(instance), lockedUntil := Some(now + 10000))
        else outbox[i] == old(outbox)[i]
    {
      claimed := [];
      ghost var before, count := outbox, 0;
      for i := 0 to |outbox|
        invariant |outbox| == |before| && Tables() == old(Tables()).(outbox := outbox)
        invariant count == ClaimableBefore(before, i, now) && |claimed| == Min(limit, count)
        invariant claimed == HandedOut(before, i, instance, limit, now)
        invariant forall k :: i <= k < |before| ==> outbox[k] == before[k]
        invariant forall k :: 0 <= k < i ==> outbox[k] == if Chosen(before, k, limit, now) then Locked(before[k], instance, now) else before[k]
      {
        if Claimable(outbox[i], now) {
          count := count + 1;
          if |claimed| < limit {
            outbox := outbox[i := outbox[i].(lockedBy := Some(instance), lockedUntil := Some(now + 10000))];
            claimed := claimed + [outbox[i]];
          }
        }
      }
      assert outbox == LockOutbox(before, instance, limit, now).0;
      HandsOutFirst(before, |before|, instance, limit, now);
    }

    /** The row with this id, and no other, is marked and unlocked. */
    method MarkDelivered(id: nat, now: nat)
      modifies this
      ensures Tables() == old(Tables()).(outbox := Delivered(old(outbox), id, now))
      ensures |outbox| == |old(outbox)| && forall i :: 0 <= i < |outbox| ==>
        && outbox[i].id == old(outbox)[i].id && outbox[i].event == old(outbox)[i].event
        && (outbox[i].id != id ==> outbox[i] == old(outbox)[i])
        && (outbox[i].id == id ==> outbox[i].delivered == Some(now) && !Claimable(outbox[i], now))
    {
      for i := 0 to |outbox|
        invariant |outbox| == |old(outbox)| && Tables() == old(Tables()).(outbox := outbox)
        invariant forall k :: 0 <= k < |outbox| ==> outbox[k] == if k < i then Delivered(old(outbox), id, now)[k] else old(outbox)[k]
      {
        if outbox[i].id == id { outbox := outbox[i := outbox[i].(delivered := Some(now), lockedBy := None, lockedUntil := None)]; }
      }
      assert outbox == Delivered(old(outbox), id, now);
    }

    method CompactTables(policy: Retention, now: nat)
      modifies this
      ensures Tables() == Compact(old(Tables()), policy, now)
    {
      if head.Some? {
        var h := head.value;
        wal := map v | v in wal && v > WalCut(h, policy.walVersions) :: wal[v];
        snapshots := map v | v in snapshots && (Rank(snapshots, v) <= policy.snapshotsPerDocument || v == h.pointer) :: snapshots[v];
      }
      receipts := map id | id in receipts && receipts[id].createdAt + policy.receiptTtl >= now :: receipts[id];
      outbox := KeepOutbox(outbox, policy.outboxTtl, now);
    }
  }
}
