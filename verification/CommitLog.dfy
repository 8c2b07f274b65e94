/** The whole system around one document: the store, every worker that ever claimed it, and the messages in between. */
module CommitLog {
  import opened Results
  import opened CommitStore
  import opened RoomWorker

  // ---- what really happened ----

  /** The canonical states between two migrations grow from `state`, which stood at version `start`. */
  datatype Era<+S> = Era(schema: string, start: nat, state: S)

  /** Every commit ever made, whether or not its row is retained; rows up to `cut` were compacted away. */
  datatype History<+S, +P> = History(eras: seq<Era<S>>, log: seq<WalRow<P>>, epochs: seq<nat>, cut: nat)

  /** What the domain supplies: patch application and schema migration. */
  datatype Domain<!S, !P> = Domain(apply: (S, P) -> S, migrate: (string, S, string) -> S)

  function Truth<S, P>(apply: (S, P) -> S, era: Era<S>, log: seq<WalRow<P>>, v: nat): S
    requires era.start <= v <= |log|
    decreases v
  {
    if v == era.start then era.state else apply(Truth(apply, era, log, v - 1), log[v - 1].patches)
  }

  function Last<S, P>(h: History<S, P>): nat
    requires |h.eras| > 0
  {
    |h.eras| - 1
  }

  /** The version at which an era ended; the current era reaches to the end of the log. */
  function EndOf<S, P>(h: History<S, P>, e: nat): nat
    requires e < |h.eras|
  {
    if e + 1 < |h.eras| then h.eras[e + 1].start else |h.log|
  }

  /** Era `e + 1` starts from the migrated last state of era `e`. */
  ghost predicate Follows<S, P>(d: Domain<S, P>, h: History<S, P>, e: nat)
    requires e + 1 < |h.eras|
  {
    && h.eras[e].start <= h.eras[e + 1].start <= |h.log|
    && h.eras[e + 1].state
       == d.migrate(h.eras[e].schema, Truth(d.apply, h.eras[e], h.log, h.eras[e + 1].start), h.eras[e + 1].schema)
  }

  ghost predicate ErasOK<S, P>(d: Domain<S, P>, h: History<S, P>) {
    && |h.eras| > 0 && h.eras[0].start == 0 && h.eras[Last(h)].start <= |h.log|
    && forall e :: 0 <= e < Last(h) ==> Follows(d, h, e)
  }

  /** `s` is the canonical state at version `v` of era `e`. */
  ghost predicate Holds<S, P>(d: Domain<S, P>, h: History<S, P>, e: nat, v: nat, s: S) {
    e < |h.eras| && h.eras[e].start <= v <= EndOf(h, e) && v <= |h.log| && s == Truth(d.apply, h.eras[e], h.log, v)
  }

  /** `recent` lists the operations of consecutive versions, the last one being `v`. */
  ghost predicate Recent<S, P>(h: History<S, P>, v: nat, recent: seq<(nat, Operation)>) {
    && |recent| <= v <= |h.log| && |recent| <= HISTORY
    && forall i :: 0 <= i < |recent| ==> recent[i] == (v - |recent| + 1 + i, h.log[v - |recent| + i].op)
  }

  ghost predicate ImageOK<S, P>(d: Domain<S, P>, h: History<S, P>, image: Image<S>) {
    Holds(d, h, image.era, image.version, image.state) && Recent(h, image.version, image.recent)
  }

  // ---- the system ----

  datatype Call<+S, +P> =
    | Idle
    | Waiting(request: CommitRequest<P>, next: S)
    | Answered(request: CommitRequest<P>, next: S, outcome: CommitOutcome<P>)
    | Stale

  /** What one worker made of one successful claim. */
  datatype Session<+S, +P> =
    | Claimed(instance: string)
    | Activating(instance: string, image: Image<S>)
    | Warm(instance: string, image: Image<S>, call: Call<S, P>)

  datatype Save<+S> = Save(version: nat, schema: string, state: S, era: nat)

  /** Messages are never taken out of `commits` and `saves`: they may arrive late, twice or never. */
  datatype System<S, P> = System(
    db: Db<S, P>,
    h: History<S, P>,
    sessions: map<nat, Session<S, P>>,
    commits: seq<CommitRequest<P>>,
    saves: seq<Save<S>>)

  datatype Action<+S, +P> =
    | Ensure(schema: string, initial: S)
    | Claim(instance: string)
    | Load(epoch: nat)
    | Ready(epoch: nat)
    | Migrate(epoch: nat, to: string, replied: bool)
    | Prepare(epoch: nat, op: Operation, patches: P, fingerprint: string)
    | DeliverCommit(i: nat, replied: bool, now: nat)
    | ReceiveReply(epoch: nat)
    | LoseReply(epoch: nat)
    | Reload(epoch: nat)
    | PersistRejection(epoch: nat, fingerprint: string, result: OperationResult<P>, now: nat)
    | Lookup(epoch: nat, operationId: string, fingerprint: string)
    | CaptureSave(epoch: nat)
    | DeliverSave(i: nat)
    | CompactAll(policy: Retention, now: nat)
    | LockRows(instance: string, limit: nat, now: nat)
    | MarkRow(id: nat, now: nat)
    | Drop(epoch: nat)

  predicate IsWarm<S, P>(s: System<S, P>, k: nat) { k in s.sessions && s.sessions[k].Warm? }

  predicate IsActivating<S, P>(s: System<S, P>, k: nat) { k in s.sessions && s.sessions[k].Activating? }

  predicate CanLoad<S, P>(db: Db<S, P>) { LoadRoom(db).Ok? }


  predicate Enabled<S(==), P(==)>(s: System<S, P>, a: Action<S, P>) {
    match a
    case Ensure(_, _) => true
    case Claim(_) => s.db.head.Some?
    case Load(k) => k in s.sessions && s.sessions[k].Claimed? && CanLoad(s.db)
    case Ready(k) => IsActivating(s, k)
    case Migrate(k, to, _) => IsActivating(s, k) && s.sessions[k].image.schema != to
    case Prepare(k, _, _, _) => IsWarm(s, k) && s.sessions[k].call.Idle?
    case DeliverCommit(i, replied, _) =>
      i < |s.commits| &&
      (replied ==> IsWarm(s, s.commits[i].epoch) && s.sessions[s.commits[i].epoch].call.Waiting?
                   && s.sessions[s.commits[i].epoch].call.request == s.commits[i])
    case ReceiveReply(k) => IsWarm(s, k) && s.sessions[k].call.Answered?
    case LoseReply(k) => IsWarm(s, k)
    case Reload(k) => IsWarm(s, k) && s.sessions[k].call.Stale? && CanLoad(s.db)
    case PersistRejection(k, _, result, _) => IsWarm(s, k) && result.Rejected?
    case Lookup(k, _, _) => IsWarm(s, k)
    case CaptureSave(k) => IsWarm(s, k)
    case DeliverSave(i) => i < |s.saves|
    case CompactAll(_, _) => true
    case LockRows(_, _, _) => true
    case MarkRow(_, _) => true
    case Drop(k) => k in s.sessions
  }

  function WithImage<S, P>(s: System<S, P>, k: nat, instance: string, image: Image<S>, call: Call<S, P>): System<S, P> {
    s.(sessions := s.sessions[k := Warm(instance, image, call)])
  }

  /** The worker's handling of the answer to a commit. */
  function Received<S, P>(s: System<S, P>, k: nat, w: Session<S, P>): System<S, P>
    requires w.Warm? && w.call.Answered?
  {
    match w.call.outcome
    case Committed(result) => WithImage(s, k, w.instance, Advanced(w.image, w.call.next, w.call.request.op, result.version), Idle)
    case VersionConflict(_) => WithImage(s, k, w.instance, w.image, Stale)
    case Fenced(_) => s.(sessions := s.sessions - {k})
    case Duplicate(_) => WithImage(s, k, w.instance, w.image, Idle)
    case Collision(_) => WithImage(s, k, w.instance, w.image, Idle)
    case Threw(_) => WithImage(s, k, w.instance, w.image, Idle)
  }

  /** Records a commit that took effect in the history. */
  function Logged<S, P>(h: History<S, P>, r: CommitRequest<P>): History<S, P> {
    h.(log := h.log + [WalRow(r.op, r.patches, r.fingerprint)], epochs := h.epochs + [r.epoch])
  }

  function AfterCommit<S, P>(s: System<S, P>, r: CommitRequest<P>, replied: bool, now: nat): System<S, P> {
    var (db, outcome) := Commit(s.db, r, now);
    var h := if outcome.Committed? then Logged(s.h, r) else s.h;
    var w := if replied && IsWarm(s, r.epoch) && s.sessions[r.epoch].call.Waiting?
             then s.sessions[r.epoch := s.sessions[r.epoch].(call := Answered(r, s.sessions[r.epoch].call.next, outcome))]
             else s.sessions;
    s.(db := db, h := h, sessions := w)
  }

  function MigrationOf<S, P>(d: Domain<S, P>, k: nat, instance: string, image: Image<S>, to: string): MigrationRequest<S> {
    MigrationRequest(k, instance, image.version, image.schema, to, d.migrate(image.schema, image.state, to))
  }

  function AfterMigration<S, P>(d: Domain<S, P>, s: System<S, P>, k: nat, w: Session<S, P>, to: string, replied: bool): System<S, P>
    requires w.Activating?
  {
    var r := MigrationOf(d, k, w.instance, w.image, to);
    var (db, outcome) := MigrateDocument(s.db, r);
    var h := if outcome.Migrated? then s.h.(eras := s.h.eras + [Era(to, w.image.version, r.state)]) else s.h;
    var era := if outcome.Migrated? then |s.h.eras| else w.image.era;
    var sessions := if replied && (outcome.Migrated? || outcome.AlreadyCurrent?)
                    then s.sessions[k := Warm(w.instance, Image(to, w.image.version, r.state, [], era), Idle)]
                    else s.sessions - {k};
    s.(db := db, h := h, sessions := sessions)
  }

  function SaveOf<S>(image: Image<S>): Save<S> { Save(image.version, image.schema, image.state, image.era) }

  function Next<S(==), P(==)>(d: Domain<S, P>, s: System<S, P>, a: Action<S, P>): System<S, P>
    requires Enabled(s, a)
    requires |s.h.eras| > 0
  {
    match a
    case Ensure(schema, initial) => s.(db := EnsureDocument(s.db, schema, initial))
    case Claim(instance) =>
      var (db, epoch) := ClaimOwnership(s.db, instance);
      if epoch.Ok? then s.(db := db, sessions := s.sessions[epoch.value := Claimed(instance)]) else s
    case Load(k) =>
      s.(sessions := s.sessions[k := Activating(s.sessions[k].instance, Activated(d.apply, LoadRoom(s.db).value, Last(s.h)))])
    case Ready(k) => WithImage(s, k, s.sessions[k].instance, s.sessions[k].image, Idle)
    case Migrate(k, to, replied) => AfterMigration(d, s, k, s.sessions[k], to, replied)
    case Prepare(k, op, patches, fingerprint) =>
      var w := s.sessions[k];
      var r := CommitRequest(k, w.instance, w.image.version, op, patches, fingerprint);
      WithImage(s, k, w.instance, w.image, Waiting(r, d.apply(w.image.state, patches))).(commits := s.commits + [r])
    case DeliverCommit(i, replied, now) => AfterCommit(s, s.commits[i], replied, now)
    case ReceiveReply(k) => Received(s, k, s.sessions[k])
    case LoseReply(k) => WithImage(s, k, s.sessions[k].instance, s.sessions[k].image, Idle)
    case Reload(k) =>
      var w := s.sessions[k];
      WithImage(s, k, w.instance, Reloaded(d.apply, w.image, LoadRoom(s.db).value, Last(s.h)), Idle)
    case PersistRejection(k, fingerprint, result, now) =>
      s.(db := RecordReceipt(s.db, k, s.sessions[k].instance, fingerprint, result, now).0)
    case Lookup(_, _, _) => s
    case CaptureSave(k) => s.(saves := s.saves + [SaveOf(s.sessions[k].image)])
    case DeliverSave(i) => s.(db := SaveSnapshot(s.db, s.saves[i].version, s.saves[i].schema, s.saves[i].state))
    case CompactAll(policy, now) => AfterCompact(s, policy, now)
    case LockRows(instance, limit, now) => s.(db := s.db.(outbox := LockOutbox(s.db.outbox, instance, limit, now).0))
    case MarkRow(id, now) => s.(db := s.db.(outbox := Delivered(s.db.outbox, id, now)))
    case Drop(k) => s.(sessions := s.sessions - {k})
  }

  function Max(a: int, b: int): int { if a >= b then a else b }

  function AfterCompact<S, P>(s: System<S, P>, policy: Retention, now: nat): System<S, P> {
    var cut := if s.db.head.Some? then Max(s.h.cut, WalCut(s.db.head.value, policy.walVersions)) else s.h.cut;
    s.(db := Compact(s.db, policy, now), h := s.h.(cut := cut))
  }

  /** `ensureDocument` on an empty database. */
  function Start<S, P>(schema: string, initial: S): System<S, P> {
    System(EnsureDocument(Db(None, map[], map[], map[], [], 0, {}), schema, initial),
           History([Era(schema, 0, initial)], [], [], 0), map[], [], [])
  }

  // ---- the invariant ----

  ghost predicate HeadOK<S, P>(hd: Head, h: History<S, P>) {
    && |h.eras| > 0
    && hd.version == |h.log| == |h.epochs|
    && hd.schema == h.eras[Last(h)].schema
    && h.eras[Last(h)].start <= hd.pointer <= hd.version
    && h.cut <= hd.pointer
    && (forall i :: 0 <= i < |h.epochs| ==> h.epochs[i] <= hd.epoch)
    && (forall i, j :: 0 <= i < j < |h.epochs| ==> h.epochs[i] <= h.epochs[j])
  }

  /** The row at the pointer exists, and it and every row above it are true states of the current era. */
  ghost predicate SnapshotsOK<S, P>(d: Domain<S, P>, hd: Head, snapshots: map<nat, SnapshotRow<S>>, h: History<S, P>) {
    && |h.eras| > 0 && hd.pointer in snapshots
    && forall v :: v in snapshots && v >= hd.pointer ==> Holds(d, h, Last(h), v, snapshots[v].state)
  }

  /** Exactly the rows after `cut` are retained, unaltered, and no operation has two. */
  ghost predicate WalOK<S, P>(wal: map<nat, WalRow<P>>, h: History<S, P>) {
    && (forall v :: v in wal <==> h.cut < v <= |h.log|)
    && (forall v :: v in wal ==> 0 < v <= |h.log| && wal[v] == h.log[v - 1])
    && (forall v, w :: v in wal && w in wal && v != w ==> wal[v].op.operationId != wal[w].op.operationId)
  }

  /** The migrations on record are those that opened an era. */
  ghost predicate MigrationsOK<S, P>(migrations: set<(nat, string)>, h: History<S, P>) {
    forall v: nat, schema: string :: (v, schema) in migrations <==> MigratedTo(h, v, schema)
  }

  /** A migration to `schema` took place at version `v`. */
  ghost predicate MigratedTo<S, P>(h: History<S, P>, v: nat, schema: string) {
    exists e :: 0 < e < |h.eras| && h.eras[e].start == v && h.eras[e].schema == schema
  }

  ghost predicate CallOK<S, P>(d: Domain<S, P>, h: History<S, P>, k: nat, w: Session<S, P>)
    requires w.Warm?
  {
    (w.call.Waiting? || w.call.Answered? ==>
       && w.call.request.epoch == k && w.call.request.instance == w.instance
       && w.call.request.resolvedAt == w.image.version
       && w.call.next == d.apply(w.image.state, w.call.request.patches)) &&
    (w.call.Answered? && w.call.outcome.Committed? ==>
       && w.image.version < |h.log| && w.call.outcome.result.version == w.image.version + 1
       && w.image.era < |h.eras| && w.image.version < EndOf(h, w.image.era)
       && h.log[w.image.version] == WalRow(w.call.request.op, w.call.request.patches, w.call.request.fingerprint))
  }

  ghost predicate SessionOK<S, P>(d: Domain<S, P>, hd: Head, h: History<S, P>, k: nat, w: Session<S, P>) {
    && |h.eras| > 0
    && k <= hd.epoch && (k == hd.epoch ==> hd.owner == Some(w.instance))
    && (w.Activating? ==>
          && ImageOK(d, h, w.image) && w.image.schema == h.eras[w.image.era].schema
          && (k == hd.epoch ==> w.image.era == Last(h) && w.image.version == |h.log|))
    && (w.Warm? ==>
          && ImageOK(d, h, w.image) && CallOK(d, h, k, w)
          && (k == hd.epoch ==> w.image.era == Last(h)))
  }

  ghost predicate RequestOK<S, P>(hd: Head, sessions: map<nat, Session<S, P>>, r: CommitRequest<P>) {
    r.epoch <= hd.epoch && (r.epoch in sessions ==> sessions[r.epoch].Warm?)
  }

  ghost predicate SaveOK<S, P>(d: Domain<S, P>, h: History<S, P>, save: Save<S>) {
    Holds(d, h, save.era, save.version, save.state)
  }

  ghost predicate Inv<S, P>(d: Domain<S, P>, s: System<S, P>) {
    && s.db.head.Some?
    && ErasOK(d, s.h) && HeadOK(s.db.head.value, s.h)
    && SnapshotsOK(d, s.db.head.value, s.db.snapshots, s.h) && WalOK(s.db.wal, s.h) && MigrationsOK(s.db.migrations, s.h)
    && (forall k :: k in s.sessions ==> SessionOK(d, s.db.head.value, s.h, k, s.sessions[k]))
    && (forall i :: 0 <= i < |s.commits| ==> RequestOK(s.db.head.value, s.sessions, s.commits[i]))
    && (forall i :: 0 <= i < |s.saves| ==> SaveOK(d, s.h, s.saves[i]))
  }

  // ---- the truth never changes ----

  /** `h` grew into `g`: what was logged stays, and a finished era stays finished. */
  ghost predicate Grows<S, P>(h: History<S, P>, g: History<S, P>) {
    && |h.eras| > 0 && h.log <= g.log && h.eras <= g.eras && h.epochs <= g.epochs
    && (|h.eras| < |g.eras| ==> g.eras[|h.eras|].start >= |h.log|)
  }

  lemma {:induction false} TruthStable<S, P>(apply: (S, P) -> S, era: Era<S>, log: seq<WalRow<P>>, longer: seq<WalRow<P>>, v: nat)
    requires era.start <= v <= |log| && log <= longer
    ensures Truth(apply, era, log, v) == Truth(apply, era, longer, v)
    decreases v
  {
    if v > era.start { TruthStable(apply, era, log, longer, v - 1); assert log[v - 1] == longer[v - 1]; }
  }

  lemma {:induction false} HoldsStable<S, P>(d: Domain<S, P>, h: History<S, P>, g: History<S, P>, e: nat, v: nat, s: S)
    requires Grows(h, g) && Holds(d, h, e, v, s)
    ensures Holds(d, g, e, v, s)
  {
    TruthStable(d.apply, h.eras[e], h.log, g.log, v);
  }

  lemma {:induction false} ImageStable<S, P>(d: Domain<S, P>, h: History<S, P>, g: History<S, P>, image: Image<S>)
    requires Grows(h, g) && ImageOK(d, h, image)
    ensures ImageOK(d, g, image)
  {
    HoldsStable(d, h, g, image.era, image.version, image.state);
    var n := |image.recent|;
    forall i | 0 <= i < n ensures image.recent[i] == (image.version - n + 1 + i, g.log[image.version - n + i].op) {
      assert h.log[image.version - n + i] == g.log[image.version - n + i];
    }
  }

  /** A session of an older claim stays right whatever the owner does. */
  lemma {:induction false} FencedSessionStable<S, P>(d: Domain<S, P>, hd: Head, h: History<S, P>, hd': Head, g: History<S, P>, k: nat, w: Session<S, P>)
    requires Grows(h, g) && SessionOK(d, hd, h, k, w)
    requires hd.epoch <= hd'.epoch && k != hd'.epoch
    ensures SessionOK(d, hd', g, k, w)
  {
    if w.Activating? || w.Warm? { ImageStable(d, h, g, w.image); }
  }

  // ---- recovery ----

  lemma {:induction false} RowsAfterAt<S, P>(wal: map<nat, WalRow<P>>, h: History<S, P>, after: nat, upto: nat)
    requires WalOK(wal, h) && h.cut <= after <= upto <= |h.log|
    ensures |RowsAfter(wal, after, upto)| == upto - after
    ensures forall i :: 0 <= i < upto - after ==> RowsAfter(wal, after, upto)[i] == (after + 1 + i, h.log[after + i])
    decreases upto - after
  {
    if after < upto {
      RowsAfterAt(wal, h, after + 1, upto);
      assert after + 1 in wal;
      assert RowsAfter(wal, after, upto) == [(after + 1, wal[after + 1])] + RowsAfter(wal, after + 1, upto);
    }
  }

  lemma {:induction false} FoldIsTruth<S, P>(apply: (S, P) -> S, era: Era<S>, log: seq<WalRow<P>>, rows: seq<(nat, WalRow<P>)>, from: nat)
    requires era.start <= from && from + |rows| <= |log|
    requires forall i :: 0 <= i < |rows| ==> rows[i].1 == log[from + i]
    ensures Fold(apply, Truth(apply, era, log, from), rows) == Truth(apply, era, log, from + |rows|)
    decreases |rows|
  {
    if rows != [] { FoldIsTruth(apply, era, log, rows[1..], from + 1); }
  }

  /**
   * Recovery: the snapshot at the pointer and the retained rows after it are all there and rebuild exactly the
   * canonical state; every replayed row was committed after the current schema era began.
   */
  lemma {:induction false} RecoveryIsExact<S, P>(d: Domain<S, P>, s: System<S, P>)
    requires Inv(d, s)
    ensures var h := s.h; var hd := s.db.head.value;
      && CanLoad(s.db) && LoadRoom(s.db).value.version == |h.log| && LoadRoom(s.db).value.schema == h.eras[Last(h)].schema
      && |LoadRoom(s.db).value.wal| == |h.log| - hd.pointer
      && (forall i :: 0 <= i < |h.log| - hd.pointer ==> LoadRoom(s.db).value.wal[i] == (hd.pointer + 1 + i, h.log[hd.pointer + i]))
      && hd.pointer >= h.eras[Last(h)].start
      && Fold(d.apply, LoadRoom(s.db).value.state, LoadRoom(s.db).value.wal) == Truth(d.apply, h.eras[Last(h)], h.log, |h.log|)
  {
    var h, hd := s.h, s.db.head.value;
    RowsAfterAt(s.db.wal, h, hd.pointer, hd.version);
    FoldIsTruth(d.apply, h.eras[Last(h)], h.log, RowsAfter(s.db.wal, hd.pointer, hd.version), hd.pointer);
  }

  lemma {:induction false} LoadedImageOK<S, P>(d: Domain<S, P>, s: System<S, P>, schema: string)
    requires Inv(d, s)
    ensures CanLoad(s.db)
    ensures var l := LoadRoom(s.db).value;
      ImageOK(d, s.h, Image(schema, l.version, Fold(d.apply, l.state, l.wal), LastOf(Operations(l.wal), HISTORY), Last(s.h)))
  {
    RecoveryIsExact(d, s);
    var l := LoadRoom(s.db).value;
    var all, recent, p := Operations(l.wal), LastOf(Operations(l.wal), HISTORY), s.db.head.value.pointer;
    forall i | 0 <= i < |all| ensures all[i] == (p + 1 + i, s.h.log[p + i].op) {
      assert l.wal[i] == (p + 1 + i, s.h.log[p + i]);
    }
    forall i | 0 <= i < |recent|
      ensures recent[i] == (l.version - |recent| + 1 + i, s.h.log[l.version - |recent| + i].op)
    {
      assert recent[i] == all[|all| - |recent| + i];
    }
  }

  // ---- every step keeps the invariant ----

  /** Replacing one session by a right one: the steps a worker takes on its own. */
  lemma {:induction false} SessionStep<S, P>(d: Domain<S, P>, s: System<S, P>, k: nat, w: Session<S, P>)
    requires Inv(d, s) && k in s.sessions
    requires SessionOK(d, s.db.head.value, s.h, k, w) && (w.Warm? || !s.sessions[k].Warm?)
    ensures Inv(d, s.(sessions := s.sessions[k := w]))
  {
    var t := s.(sessions := s.sessions[k := w]);
    forall i | 0 <= i < |t.commits| ensures RequestOK(t.db.head.value, t.sessions, t.commits[i]) {
      assert RequestOK(s.db.head.value, s.sessions, s.commits[i]);
    }
  }

  lemma {:induction false} DropStep<S, P>(d: Domain<S, P>, s: System<S, P>, k: nat)
    requires Inv(d, s)
    ensures Inv(d, s.(sessions := s.sessions - {k}))
  {
    var t := s.(sessions := s.sessions - {k});
    forall i | 0 <= i < |t.commits| ensures RequestOK(t.db.head.value, t.sessions, t.commits[i]) {
      assert RequestOK(s.db.head.value, s.sessions, s.commits[i]);
    }
  }

  lemma {:induction false} ClaimStep<S, P>(d: Domain<S, P>, s: System<S, P>, instance: string)
    requires Inv(d, s)
    ensures Inv(d, Next(d, s, Claim(instance)))
  {
    var t := Next(d, s, Claim(instance));
    var hd, hd' := s.db.head.value, t.db.head.value;
    forall k | k in t.sessions ensures SessionOK(d, hd', t.h, k, t.sessions[k]) {
      if k != hd'.epoch { FencedSessionStable(d, hd, s.h, hd', t.h, k, s.sessions[k]); }
    }
    forall i | 0 <= i < |t.commits| ensures RequestOK(hd', t.sessions, t.commits[i]) {
      assert RequestOK(hd, s.sessions, s.commits[i]);
    }
  }

  lemma {:induction false} LoadStep<S, P>(d: Domain<S, P>, s: System<S, P>, k: nat)
    requires Inv(d, s) && Enabled(s, Load(k))
    ensures Inv(d, Next(d, s, Load(k)))
  {
    RecoveryIsExact(d, s);
    LoadedImageOK(d, s, LoadRoom(s.db).value.schema);
    assert SessionOK(d, s.db.head.value, s.h, k, s.sessions[k]);
    SessionStep(d, s, k, Activating(s.sessions[k].instance, Activated(d.apply, LoadRoom(s.db).value, Last(s.h))));
  }

  lemma {:induction false} ReloadStep<S, P>(d: Domain<S, P>, s: System<S, P>, k: nat)
    requires Inv(d, s) && Enabled(s, Reload(k))
    ensures Inv(d, Next(d, s, Reload(k)))
  {
    LoadedImageOK(d, s, s.sessions[k].image.schema);
    assert SessionOK(d, s.db.head.value, s.h, k, s.sessions[k]);
    SessionStep(d, s, k, Warm(s.sessions[k].instance, Reloaded(d.apply, s.sessions[k].image, LoadRoom(s.db).value, Last(s.h)), Idle));
  }

  lemma {:induction false} PrepareStep<S, P>(d: Domain<S, P>, s: System<S, P>, k: nat, op: Operation, patches: P, fingerprint: string)
    requires Inv(d, s) && Enabled(s, Prepare(k, op, patches, fingerprint))
    ensures Inv(d, Next(d, s, Prepare(k, op, patches, fingerprint)))
  {
    var w := s.sessions[k];
    assert SessionOK(d, s.db.head.value, s.h, k, w);
    var r := CommitRequest(k, w.instance, w.image.version, op, patches, fingerprint);
    SessionStep(d, s, k, Warm(w.instance, w.image, Waiting(r, d.apply(w.image.state, patches))));
  }

  /** The worker's own copy after a commit is the canonical state at the new version. */
  lemma {:induction false} AdvancedOK<S, P>(d: Domain<S, P>, hd: Head, h: History<S, P>, k: nat, w: Session<S, P>)
    requires SessionOK(d, hd, h, k, w) && w.Warm? && w.call.Answered? && w.call.outcome.Committed?
    ensures ImageOK(d, h, Advanced(w.image, w.call.next, w.call.request.op, w.call.outcome.result.version))
  {
    var longer := w.image.recent + [(w.image.version + 1, w.call.request.op)];
    var v := w.image.version + 1;
    forall i | 0 <= i < |longer| ensures longer[i] == (v - |longer| + 1 + i, h.log[v - |longer| + i].op) {
      if i < |w.image.recent| { assert longer[i] == w.image.recent[i]; }
    }
    var recent := Advanced(w.image, w.call.next, w.call.request.op, w.call.outcome.result.version).recent;
    assert recent == longer || (|recent| == |longer| - 1 && forall i :: 0 <= i < |recent| ==> recent[i] == longer[i + 1]);
  }

  lemma {:induction false} ReceiveStep<S, P>(d: Domain<S, P>, s: System<S, P>, k: nat)
    requires Inv(d, s) && Enabled(s, ReceiveReply(k))
    ensures Inv(d, Next(d, s, ReceiveReply(k)))
  {
    var w := s.sessions[k];
    assert SessionOK(d, s.db.head.value, s.h, k, w);
    match w.call.outcome
    case Committed(_) =>
      AdvancedOK(d, s.db.head.value, s.h, k, w);
      SessionStep(d, s, k, Warm(w.instance, Advanced(w.image, w.call.next, w.call.request.op, w.call.outcome.result.version), Idle));
    case VersionConflict(_) => SessionStep(d, s, k, Warm(w.instance, w.image, Stale));
    case Fenced(_) => DropStep(d, s, k);
    case Duplicate(_) => SessionStep(d, s, k, Warm(w.instance, w.image, Idle));
    case Collision(_) => SessionStep(d, s, k, Warm(w.instance, w.image, Idle));
    case Threw(_) => SessionStep(d, s, k, Warm(w.instance, w.image, Idle));
  }

  // ---- commits ----

  lemma {:induction false} LoggedGrows<S, P>(d: Domain<S, P>, h: History<S, P>, r: CommitRequest<P>)
    requires ErasOK(d, h)
    ensures Grows(h, Logged(h, r)) && ErasOK(d, Logged(h, r))
  {
    var g := Logged(h, r);
    forall e | 0 <= e < Last(g) ensures Follows(d, g, e) {
      assert Follows(d, h, e);
      TruthStable(d.apply, h.eras[e], h.log, g.log, h.eras[e + 1].start);
    }
  }

  /** The store's own tables after a commit that took effect. */
  lemma {:induction false} CommitKeepsStore<S, P>(d: Domain<S, P>, s: System<S, P>, r: CommitRequest<P>, now: nat)
    requires Inv(d, s) && Commit(s.db, r, now).1.Committed?
    ensures var db, h := Commit(s.db, r, now).0, Logged(s.h, r);
      && db.head.Some? && db.head.value == s.db.head.value.(version := |h.log|)
      && ErasOK(d, h) && HeadOK(db.head.value, h)
      && SnapshotsOK(d, db.head.value, db.snapshots, h) && WalOK(db.wal, h)
  {
    var db, h := Commit(s.db, r, now).0, Logged(s.h, r);
    LoggedGrows(d, s.h, r);
    forall v | v in db.snapshots && v >= db.head.value.pointer ensures Holds(d, h, Last(h), v, db.snapshots[v].state) {
      HoldsStable(d, s.h, h, Last(h), v, db.snapshots[v].state);
    }
    CommitKeepsWal(d, s, r, now);
  }

  lemma {:induction false} CommitKeepsWal<S, P>(d: Domain<S, P>, s: System<S, P>, r: CommitRequest<P>, now: nat)
    requires Inv(d, s) && Commit(s.db, r, now).1.Committed?
    ensures WalOK(Commit(s.db, r, now).0.wal, Logged(s.h, r))
  {
    var next := |s.h.log| + 1;
    assert WalAccepts(s.db.wal, next, r.op.operationId);
    assert Commit(s.db, r, now).0.wal == s.db.wal[next := WalRow(r.op, r.patches, r.fingerprint)];
  }

  lemma {:induction false} CommitKeepsSession<S, P>(d: Domain<S, P>, s: System<S, P>, r: CommitRequest<P>, now: nat, k: nat)
    requires Inv(d, s) && Commit(s.db, r, now).1.Committed? && RequestOK(s.db.head.value, s.sessions, r)
    requires k in s.sessions
    ensures SessionOK(d, Commit(s.db, r, now).0.head.value, Logged(s.h, r), k, s.sessions[k])
  {
    LoggedGrows(d, s.h, r);
    var w, hd, hd' := s.sessions[k], s.db.head.value, Commit(s.db, r, now).0.head.value;
    assert SessionOK(d, hd, s.h, k, w);
    assert hd' == hd.(version := hd.version + 1);
    if w.Warm? || w.Activating? { ImageStable(d, s.h, Logged(s.h, r), w.image); }
  }

  lemma {:induction false} AnswerIsRight<S, P>(d: Domain<S, P>, s: System<S, P>, i: nat, now: nat)
    requires Inv(d, s) && Enabled(s, DeliverCommit(i, true, now))
    ensures var r, t := s.commits[i], Next(d, s, DeliverCommit(i, true, now));
      r.epoch in t.sessions && t.db.head.Some? && SessionOK(d, t.db.head.value, t.h, r.epoch, t.sessions[r.epoch])
  {
    var r := s.commits[i];
    var w := s.sessions[r.epoch];
    assert SessionOK(d, s.db.head.value, s.h, r.epoch, w) && RequestOK(s.db.head.value, s.sessions, r);
    if Commit(s.db, r, now).1.Committed? {
      CommitKeepsSession(d, s, r, now, r.epoch);
    }
  }

  lemma {:induction false} DeliverCommitStep<S, P>(d: Domain<S, P>, s: System<S, P>, i: nat, replied: bool, now: nat)
    requires Inv(d, s) && Enabled(s, DeliverCommit(i, replied, now))
    ensures Inv(d, Next(d, s, DeliverCommit(i, replied, now)))
  {
    var r, t := s.commits[i], Next(d, s, DeliverCommit(i, replied, now));
    assert RequestOK(s.db.head.value, s.sessions, r);
    if replied { AnswerIsRight(d, s, i, now); }
    if Commit(s.db, r, now).1.Committed? {
      CommitKeepsStore(d, s, r, now);
      LoggedGrows(d, s.h, r);
      forall k | k in s.sessions ensures SessionOK(d, t.db.head.value, t.h, k, s.sessions[k]) { CommitKeepsSession(d, s, r, now, k); }
      forall j | 0 <= j < |s.saves| ensures SaveOK(d, t.h, s.saves[j]) {
        HoldsStable(d, s.h, t.h, s.saves[j].era, s.saves[j].version, s.saves[j].state);
      }
    } else {
      assert t.db == s.db;
    }
    forall j | 0 <= j < |t.commits| ensures RequestOK(t.db.head.value, t.sessions, t.commits[j]) {
      assert RequestOK(s.db.head.value, s.sessions, s.commits[j]);
    }
  }

  // ---- migrations ----

  /**
   * An owner's migration takes effect, unless the document has been migrated to this schema at this very version
   * before: then the schema history refuses a second row and nothing changes. A fenced one never takes effect.
   */
  lemma {:induction false} OwnerMigrates<S, P>(d: Domain<S, P>, s: System<S, P>, k: nat, to: string)
    requires Inv(d, s) && Enabled(s, Migrate(k, to, true))
    ensures var (db, outcome) := MigrateDocument(s.db, MigrationOf(d, k, s.sessions[k].instance, s.sessions[k].image, to));
      if k != s.db.head.value.epoch then outcome == MigrationFenced && db == s.db
      else if MigratedTo(s.h, |s.h.log|, to) then outcome == MigrationThrew && db == s.db
      else outcome == Migrated
           && db.head == Some(s.db.head.value.(schema := to, pointer := |s.h.log|))
           && db.snapshots.Keys == s.db.snapshots.Keys + {|s.h.log|}
  {
    assert SessionOK(d, s.db.head.value, s.h, k, s.sessions[k]);
  }

  function NewEra<S, P>(d: Domain<S, P>, h: History<S, P>, image: Image<S>, to: string): History<S, P> {
    h.(eras := h.eras + [Era(to, image.version, d.migrate(image.schema, image.state, to))])
  }

  lemma {:induction false} NewEraGrows<S, P>(d: Domain<S, P>, s: System<S, P>, k: nat, to: string)
    requires Inv(d, s) && IsActivating(s, k) && k == s.db.head.value.epoch
    ensures Grows(s.h, NewEra(d, s.h, s.sessions[k].image, to)) && ErasOK(d, NewEra(d, s.h, s.sessions[k].image, to))
  {
    var h, g, w := s.h, NewEra(d, s.h, s.sessions[k].image, to), s.sessions[k];
    assert SessionOK(d, s.db.head.value, s.h, k, w);
    forall e | 0 <= e < Last(g) ensures Follows(d, g, e) {
      if e < Last(h) { assert Follows(d, h, e); }
    }
  }

  lemma {:induction false} MigrationKeepsStore<S, P>(d: Domain<S, P>, s: System<S, P>, k: nat, to: string)
    requires Inv(d, s) && Enabled(s, Migrate(k, to, true)) && k == s.db.head.value.epoch && !MigratedTo(s.h, |s.h.log|, to)
    ensures var db := MigrateDocument(s.db, MigrationOf(d, k, s.sessions[k].instance, s.sessions[k].image, to)).0;
            var h := NewEra(d, s.h, s.sessions[k].image, to);
      && db.head.Some? && HeadOK(db.head.value, h) && WalOK(db.wal, h)
      && SnapshotsOK(d, db.head.value, db.snapshots, h)
  {
    var db := MigrateDocument(s.db, MigrationOf(d, k, s.sessions[k].instance, s.sessions[k].image, to)).0;
    var h := NewEra(d, s.h, s.sessions[k].image, to);
    assert SessionOK(d, s.db.head.value, s.h, k, s.sessions[k]);
    OwnerMigrates(d, s, k, to);
    forall v | v in db.snapshots && v >= db.head.value.pointer ensures Holds(d, h, Last(h), v, db.snapshots[v].state) {
      if v in s.db.snapshots { assert Holds(d, s.h, Last(s.h), v, s.db.snapshots[v].state); }
      assert v == |h.log|;
    }
  }

  lemma {:induction false} MigrationIsRecorded<S, P>(d: Domain<S, P>, s: System<S, P>, k: nat, to: string)
    requires Inv(d, s) && IsActivating(s, k) && k == s.db.head.value.epoch
    ensures MigrationsOK(s.db.migrations + {(s.sessions[k].image.version, to)}, NewEra(d, s.h, s.sessions[k].image, to))
  {
    var image := s.sessions[k].image;
    var g, more := NewEra(d, s.h, image, to), s.db.migrations + {(image.version, to)};
    assert SessionOK(d, s.db.head.value, s.h, k, s.sessions[k]);
    forall v: nat, schema: string ensures (v, schema) in more <==> MigratedTo(g, v, schema) {
      if MigratedTo(s.h, v, schema) {
        var e :| 0 < e < |s.h.eras| && s.h.eras[e].start == v && s.h.eras[e].schema == schema;
        assert g.eras[e] == s.h.eras[e];
      }
      assert g.eras[|s.h.eras|] == Era(to, image.version, d.migrate(image.schema, image.state, to));
    }
  }

  lemma {:induction false} MigrateStep<S, P>(d: Domain<S, P>, s: System<S, P>, k: nat, to: string, replied: bool)
    requires Inv(d, s) && Enabled(s, Migrate(k, to, replied))
    ensures Inv(d, Next(d, s, Migrate(k, to, replied)))
  {
    OwnerMigrates(d, s, k, to);
    var t, w := Next(d, s, Migrate(k, to, replied)), s.sessions[k];
    assert SessionOK(d, s.db.head.value, s.h, k, w);
    if k != s.db.head.value.epoch || MigratedTo(s.h, |s.h.log|, to) {
      DropStep(d, s, k);
      assert t == s.(sessions := s.sessions - {k});
      return;
    }
    NewEraGrows(d, s, k, to);
    MigrationKeepsStore(d, s, k, to);
    MigrationIsRecorded(d, s, k, to);
    assert t.h == NewEra(d, s.h, w.image, to);
    forall j | j in t.sessions ensures SessionOK(d, t.db.head.value, t.h, j, t.sessions[j]) {
      if j != k { FencedSessionStable(d, s.db.head.value, s.h, t.db.head.value, t.h, j, s.sessions[j]); }
    }
    forall j | 0 <= j < |s.saves| ensures SaveOK(d, t.h, s.saves[j]) {
      HoldsStable(d, s.h, t.h, s.saves[j].era, s.saves[j].version, s.saves[j].state);
    }
    forall j | 0 <= j < |t.commits| ensures RequestOK(t.db.head.value, t.sessions, t.commits[j]) {
      assert RequestOK(s.db.head.value, s.sessions, s.commits[j]);
    }
  }

  // ---- snapshots and compaction ----

  lemma {:induction false} ErasOrdered<S, P>(d: Domain<S, P>, h: History<S, P>, e: nat)
    requires ErasOK(d, h) && e < |h.eras|
    ensures h.eras[e].start <= h.eras[Last(h)].start
    decreases |h.eras| - e
  {
    if e < Last(h) {
      assert Follows(d, h, e);
      ErasOrdered(d, h, e + 1);
    }
  }

  /** A state held above the current era's start belongs to the current era. */
  lemma {:induction false} HeldAboveIsCurrent<S, P>(d: Domain<S, P>, h: History<S, P>, e: nat, v: nat, s: S)
    requires ErasOK(d, h) && Holds(d, h, e, v, s) && v > h.eras[Last(h)].start
    ensures e == Last(h)
  {
    if e < Last(h) { ErasOrdered(d, h, e + 1); }
  }

  lemma {:induction false} DeliverSaveStep<S, P>(d: Domain<S, P>, s: System<S, P>, i: nat)
    requires Inv(d, s) && Enabled(s, DeliverSave(i))
    ensures Inv(d, Next(d, s, DeliverSave(i)))
  {
    var t, save := Next(d, s, DeliverSave(i)), s.saves[i];
    assert SaveOK(d, s.h, save);
    var p := s.db.head.value.pointer;
    if save.version > p { HeldAboveIsCurrent(d, s.h, save.era, save.version, save.state); }
    forall v | v in t.db.snapshots && v >= t.db.head.value.pointer ensures Holds(d, s.h, Last(s.h), v, t.db.snapshots[v].state) {
      if v in s.db.snapshots { assert Holds(d, s.h, Last(s.h), v, s.db.snapshots[v].state); }
    }
    forall k | k in s.sessions ensures SessionOK(d, t.db.head.value, t.h, k, s.sessions[k]) {
      assert SessionOK(d, s.db.head.value, s.h, k, s.sessions[k]);
    }
    forall j | 0 <= j < |t.commits| ensures RequestOK(t.db.head.value, t.sessions, t.commits[j]) {
      assert RequestOK(s.db.head.value, s.sessions, s.commits[j]);
    }
  }

  lemma {:induction false} CompactKeepsWal<S, P>(d: Domain<S, P>, s: System<S, P>, policy: Retention, now: nat)
    requires Inv(d, s)
    ensures WalOK(AfterCompact(s, policy, now).db.wal, AfterCompact(s, policy, now).h)
  {
    var t, cut := AfterCompact(s, policy, now), WalCut(s.db.head.value, policy.walVersions);
    forall v ensures v in t.db.wal <==> t.h.cut < v <= |t.h.log| {
      assert v in t.db.wal <==> v in s.db.wal && v > cut;
    }
  }

  lemma {:induction false} CutKeepsTruth<S, P>(d: Domain<S, P>, h: History<S, P>, cut: nat)
    requires ErasOK(d, h)
    ensures ErasOK(d, h.(cut := cut)) && Grows(h, h.(cut := cut))
  {
    var g := h.(cut := cut);
    forall e | 0 <= e < Last(g) ensures Follows(d, g, e) { assert Follows(d, h, e); }
  }

  lemma {:induction false} CompactStep<S, P>(d: Domain<S, P>, s: System<S, P>, policy: Retention, now: nat)
    requires Inv(d, s)
    ensures Inv(d, AfterCompact(s, policy, now))
  {
    var t := AfterCompact(s, policy, now);
    CompactKeepsWal(d, s, policy, now);
    CutKeepsTruth(d, s.h, t.h.cut);
    forall v | v in t.db.snapshots && v >= t.db.head.value.pointer ensures Holds(d, t.h, Last(t.h), v, t.db.snapshots[v].state) {
      HoldsStable(d, s.h, t.h, Last(s.h), v, s.db.snapshots[v].state);
    }
    forall k | k in t.sessions ensures SessionOK(d, t.db.head.value, t.h, k, t.sessions[k]) {
      if t.sessions[k].Warm? || t.sessions[k].Activating? { ImageStable(d, s.h, t.h, t.sessions[k].image); }
      assert SessionOK(d, s.db.head.value, s.h, k, s.sessions[k]);
    }
    forall j | 0 <= j < |s.saves| ensures SaveOK(d, t.h, s.saves[j]) {
      HoldsStable(d, s.h, t.h, s.saves[j].era, s.saves[j].version, s.saves[j].state);
    }
  }

  // ---- all steps, all runs ----

  /** The steps that touch only receipts, the outbox, or the list of pending saves. */
  lemma {:induction false} QuietStep<S, P>(d: Domain<S, P>, s: System<S, P>, a: Action<S, P>)
    requires Inv(d, s) && Enabled(s, a)
    requires a.Ensure? || a.PersistRejection? || a.LockRows? || a.MarkRow? || a.Lookup? || a.CaptureSave?
    ensures Inv(d, Next(d, s, a)) && Next(d, s, a).h == s.h
  {
    var t := Next(d, s, a);
    assert t.db.head == s.db.head && t.db.wal == s.db.wal && t.db.snapshots == s.db.snapshots;
    if a.CaptureSave? { assert SessionOK(d, s.db.head.value, s.h, a.epoch, s.sessions[a.epoch]); }
  }

  lemma {:induction false} StepKeepsInvariant<S, P>(d: Domain<S, P>, s: System<S, P>, a: Action<S, P>)
    requires Inv(d, s) && Enabled(s, a)
    ensures Inv(d, Next(d, s, a))
  {
    match a
    case Claim(instance) => ClaimStep(d, s, instance);
    case Load(k) => LoadStep(d, s, k);
    case Ready(k) =>
      assert SessionOK(d, s.db.head.value, s.h, k, s.sessions[k]);
      SessionStep(d, s, k, Warm(s.sessions[k].instance, s.sessions[k].image, Idle));
    case Migrate(k, to, replied) => MigrateStep(d, s, k, to, replied);
    case Prepare(k, op, patches, fingerprint) => PrepareStep(d, s, k, op, patches, fingerprint);
    case DeliverCommit(i, replied, now) => DeliverCommitStep(d, s, i, replied, now);
    case ReceiveReply(k) => ReceiveStep(d, s, k);
    case LoseReply(k) =>
      assert SessionOK(d, s.db.head.value, s.h, k, s.sessions[k]);
      SessionStep(d, s, k, Warm(s.sessions[k].instance, s.sessions[k].image, Idle));
    case Reload(k) => ReloadStep(d, s, k);
    case DeliverSave(i) => DeliverSaveStep(d, s, i);
    case CompactAll(policy, now) => CompactStep(d, s, policy, now);
    case Drop(k) => DropStep(d, s, k);
    case Ensure(_, _) => QuietStep(d, s, a);
    case PersistRejection(_, _, _, _) => QuietStep(d, s, a);
    case LockRows(_, _, _) => QuietStep(d, s, a);
    case MarkRow(_, _) => QuietStep(d, s, a);
    case Lookup(_, _, _) => QuietStep(d, s, a);
    case CaptureSave(_) => QuietStep(d, s, a);
  }

  ghost predicate Taken<S, P>(d: Domain<S, P>, s: System<S, P>, a: Action<S, P>, t: System<S, P>) {
    |s.h.eras| > 0 && Enabled(s, a) && t == Next(d, s, a)
  }

  /** `states` is a run taking `actions`, one after the other. */
  ghost predicate Run<S, P>(d: Domain<S, P>, states: seq<System<S, P>>, actions: seq<Action<S, P>>) {
    && |states| == |actions| + 1
    && forall i {:trigger actions[i]} :: 0 <= i < |actions| ==> Taken(d, states[i], actions[i], states[i + 1])
  }

  /** In every reachable state, whatever the interleaving, the invariant holds. */
  lemma {:induction false} EveryRunIsSafe<S, P>(d: Domain<S, P>, states: seq<System<S, P>>, actions: seq<Action<S, P>>, schema: string, initial: S, n: nat)
    requires Run(d, states, actions) && states[0] == Start(schema, initial) && n <= |actions|
    ensures Inv(d, states[n])
  {
    if n > 0 {
      EveryRunIsSafe(d, states, actions, schema, initial, n - 1);
      StepKeepsInvariant(d, states[n - 1], actions[n - 1]);
    }
  }
}
