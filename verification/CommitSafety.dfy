/** What the invariant of the commit log means for writers, for recovery and for schema versions. */
module CommitSafety {
  import opened Results
  import opened CommitStore
  import opened Pipeline
  import opened RoomWorker
  import opened CommitLog

  // ---- stale writers ----

  /** The history only grows, and what is new in it was written under the epoch that owned the document. */
  lemma {:induction false} StepGrows<S, P>(d: Domain<S, P>, s: System<S, P>, a: Action<S, P>)
    requires Inv(d, s) && Enabled(s, a)
    ensures var t := Next(d, s, a);
      && t.db.head.Some? && t.db.head.value.epoch >= s.db.head.value.epoch
      && s.h.log <= t.h.log && s.h.eras <= t.h.eras && s.h.epochs <= t.h.epochs
      && |t.h.log| <= |s.h.log| + 1 && |t.h.eras| <= |s.h.eras| + 1
      && (|t.h.log| > |s.h.log| ==> a.DeliverCommit? && s.commits[a.i].epoch == s.db.head.value.epoch
                                    && |t.h.epochs| > |s.h.log| && t.h.epochs[|s.h.log|] == s.db.head.value.epoch)
      && (|t.h.eras| > |s.h.eras| ==> a.Migrate? && a.epoch == s.db.head.value.epoch)
  {
    if a.Migrate? { OwnerMigrates(d, s, a.epoch, a.to); }
    if a.DeliverCommit? { CommitShape(s, s.commits[a.i], a.now); }
    if a.Ensure? || a.PersistRejection? || a.LockRows? || a.MarkRow? || a.CaptureSave? { QuietStep(d, s, a); }
  }

  lemma {:induction false} CommitShape<S, P>(s: System<S, P>, r: CommitRequest<P>, now: nat)
    requires s.db.head.Some?
    ensures var (db, outcome) := Commit(s.db, r, now);
      if outcome.Committed?
      then Owns(s.db.head.value, r.epoch, r.instance) && db.head == Some(s.db.head.value.(version := s.db.head.value.version + 1))
      else db == s.db
  {
  }

  /** A writer whose claim is not the latest one changes nothing in the store. */
  lemma {:induction false} FencedWriterChangesNothing<S, P>(d: Domain<S, P>, s: System<S, P>, a: Action<S, P>)
    requires Inv(d, s) && Enabled(s, a)
    requires (a.DeliverCommit? && s.commits[a.i].epoch < s.db.head.value.epoch)
          || ((a.Migrate? || a.PersistRejection?) && a.epoch < s.db.head.value.epoch)
    ensures Next(d, s, a).db == s.db && Next(d, s, a).h == s.h
  {
    if a.Migrate? { OwnerMigrates(d, s, a.epoch, a.to); }
  }

  /** `t` is later than `s`: nothing logged changed, and everything logged since was written under a claim no older. */
  ghost predicate Later<S, P>(s: System<S, P>, t: System<S, P>) {
    && s.h.log <= t.h.log && s.h.eras <= t.h.eras
    && t.db.head.Some? && s.db.head.Some? && t.db.head.value.epoch >= s.db.head.value.epoch
    && t.db.head.value.version == |t.h.log| == |t.h.epochs|
    && forall v :: |s.h.log| <= v < |t.h.epochs| ==> t.h.epochs[v] >= s.db.head.value.epoch
  }

  lemma {:induction false} LaterStep<S, P>(d: Domain<S, P>, s: System<S, P>, t: System<S, P>, a: Action<S, P>)
    requires Later(s, t) && Inv(d, t) && Enabled(t, a)
    ensures Later(s, Next(d, t, a)) && Inv(d, Next(d, t, a))
  {
    StepGrows(d, t, a);
    StepKeepsInvariant(d, t, a);
    var u := Next(d, t, a);
    forall v | |s.h.log| <= v < |u.h.epochs| ensures u.h.epochs[v] >= s.db.head.value.epoch {
      if v < |t.h.epochs| { assert u.h.epochs[v] == t.h.epochs[v]; }
    }
  }

  /**
   * Fencing over whole runs: after a state with owner epoch E, every version committed later carries an epoch of at
   * least E, versions keep counting up from the one before without a gap, and no earlier entry ever changes.
   */
  lemma {:induction false} StaleWritersAreHarmless<S, P>(d: Domain<S, P>, states: seq<System<S, P>>, actions: seq<Action<S, P>>, i: nat, j: nat)
    requires Run(d, states, actions) && i <= j < |states| && Inv(d, states[i])
    ensures Inv(d, states[j]) && Later(states[i], states[j])
    decreases j
  {
    if i < j {
      StaleWritersAreHarmless(d, states, actions, i, j - 1);
      LaterStep(d, states[i], states[j - 1], actions[j - 1]);
    }
  }

  // ---- recovery ----

  /** The state that a worker activating now would rebuild. */
  function Recovered<S, P>(d: Domain<S, P>, db: Db<S, P>): S
    requires LoadRoom(db).Ok?
  {
    Fold(d.apply, LoadRoom(db).value.state, LoadRoom(db).value.wal)
  }

  lemma {:induction false} RecoveryFollowsCommit<S, P>(d: Domain<S, P>, s: System<S, P>, a: Action<S, P>)
    requires Inv(d, s) && Enabled(s, a) && Next(d, s, a).h.log != s.h.log
    ensures var t := Next(d, s, a);
      && LoadRoom(s.db).Ok? && LoadRoom(t.db).Ok? && a.DeliverCommit?
      && Recovered(d, t.db) == d.apply(Recovered(d, s.db), s.commits[a.i].patches)
      && LoadRoom(t.db).value.version == LoadRoom(s.db).value.version + 1
  {
    var t := Next(d, s, a);
    StepKeepsInvariant(d, s, a);
    RecoveryIsExact(d, s);
    RecoveryIsExact(d, t);
    OnlyCommitsLog(d, s, a);
    TruthStable(d.apply, s.h.eras[Last(s.h)], s.h.log, t.h.log, |s.h.log|);
  }

  lemma {:induction false} OnlyCommitsLog<S, P>(d: Domain<S, P>, s: System<S, P>, a: Action<S, P>)
    requires Inv(d, s) && Enabled(s, a)
    ensures var t := Next(d, s, a);
      && (t.h.log != s.h.log ==> a.DeliverCommit? && t.h == Logged(s.h, s.commits[a.i]))
      && (t.h.eras != s.h.eras ==> a.Migrate? && a.epoch == s.db.head.value.epoch && t.h == NewEra(d, s.h, s.sessions[a.epoch].image, a.to))
  {
    if a.Migrate? { OwnerMigrates(d, s, a.epoch, a.to); }
    if a.DeliverCommit? { CommitShape(s, s.commits[a.i], a.now); }
  }

  lemma {:induction false} RecoveryFollowsMigration<S, P>(d: Domain<S, P>, s: System<S, P>, a: Action<S, P>)
    requires Inv(d, s) && Enabled(s, a) && Next(d, s, a).h.eras != s.h.eras
    ensures var t := Next(d, s, a);
      && LoadRoom(s.db).Ok? && LoadRoom(t.db).Ok? && a.Migrate?
      && Recovered(d, t.db) == d.migrate(LoadRoom(s.db).value.schema, Recovered(d, s.db), a.to)
      && LoadRoom(t.db).value.version == LoadRoom(s.db).value.version && LoadRoom(t.db).value.schema == a.to
  {
    StepKeepsInvariant(d, s, a);
    RecoveryIsExact(d, s);
    RecoveryIsExact(d, Next(d, s, a));
    OnlyCommitsLog(d, s, a);
    assert SessionOK(d, s.db.head.value, s.h, a.epoch, s.sessions[a.epoch]);
  }

  /** What recovery returns changes only with a commit, by that commit's patches, or with a migration. */
  lemma {:induction false} RecoveryFollowsHistory<S, P>(d: Domain<S, P>, s: System<S, P>, a: Action<S, P>)
    requires Inv(d, s) && Enabled(s, a)
    requires Next(d, s, a).h.log == s.h.log && Next(d, s, a).h.eras == s.h.eras
    ensures var t := Next(d, s, a);
      && LoadRoom(s.db).Ok? && LoadRoom(t.db).Ok?
      && Recovered(d, t.db) == Recovered(d, s.db)
      && LoadRoom(t.db).value.version == LoadRoom(s.db).value.version && LoadRoom(t.db).value.schema == LoadRoom(s.db).value.schema
  {
    StepKeepsInvariant(d, s, a);
    RecoveryIsExact(d, s);
    RecoveryIsExact(d, Next(d, s, a));
  }

  /** No snapshot save and no compaction, of whatever age, changes what recovery returns. */
  lemma {:induction false} SavesAndCompactionAreInvisible<S, P>(d: Domain<S, P>, s: System<S, P>, a: Action<S, P>)
    requires Inv(d, s) && Enabled(s, a) && (a.DeliverSave? || a.CompactAll?)
    ensures LoadRoom(s.db).Ok? && LoadRoom(Next(d, s, a).db).Ok?
    ensures Recovered(d, Next(d, s, a).db) == Recovered(d, s.db)
    ensures LoadRoom(Next(d, s, a).db).value.version == LoadRoom(s.db).value.version
  {
    RecoveryFollowsHistory(d, s, a);
  }

  /** Warm rooms, fenced or not, hold the canonical state and operations of their own version. */
  lemma {:induction false} WarmRoomsAreTrue<S, P>(d: Domain<S, P>, s: System<S, P>, k: nat)
    requires Inv(d, s) && IsWarm(s, k)
    ensures var image := s.sessions[k].image;
      && image.era < |s.h.eras| && s.h.eras[image.era].start <= image.version <= |s.h.log|
      && image.state == Truth(d.apply, s.h.eras[image.era], s.h.log, image.version)
      && (k == s.db.head.value.epoch && image.version == |s.h.log| ==> LoadRoom(s.db).Ok? && image.state == Recovered(d, s.db))
  {
    assert SessionOK(d, s.db.head.value, s.h, k, s.sessions[k]);
    RecoveryIsExact(d, s);
  }

  /** Whatever it starts from, `eventsAfter` returns events of the log, in order, each under its own version. */
  lemma {:induction false} RowsAfterIn<P>(wal: map<nat, WalRow<P>>, after: nat, upto: nat)
    ensures forall row :: row in RowsAfter(wal, after, upto) ==> after < row.0 <= upto && row.0 in wal && row.1 == wal[row.0]
    ensures forall i, j :: 0 <= i < j < |RowsAfter(wal, after, upto)| ==> RowsAfter(wal, after, upto)[i].0 < RowsAfter(wal, after, upto)[j].0
    decreases upto - after
  {
    if after < upto {
      RowsAfterIn(wal, after + 1, upto);
      var rows, rest := RowsAfter(wal, after, upto), RowsAfter(wal, after + 1, upto);
      if after + 1 in wal {
        assert rows == [(after + 1, wal[after + 1])] + rest;
        forall i, j | 0 <= i < j < |rows| ensures rows[i].0 < rows[j].0 { assert rows[j] == rest[j - 1] && rest[j - 1] in rest; }
      }
    }
  }

  lemma {:induction false} RowsTellTheTruth<P>(wal: map<nat, WalRow<P>>, log: seq<WalRow<P>>, rows: seq<(nat, WalRow<P>)>, after: nat)
    requires forall v :: v in wal ==> 0 < v <= |log| && wal[v] == log[v - 1]
    requires forall row :: row in rows ==> after < row.0 && row.0 in wal && row.1 == wal[row.0]
    ensures forall e :: e in EventsOf(rows) ==> after < e.version <= |log| && e == EventOf(e.version, log[e.version - 1])
  {
    forall i | 0 <= i < |rows| ensures var e := EventsOf(rows)[i]; after < e.version <= |log| && e == EventOf(e.version, log[e.version - 1]) {
      assert rows[i] in rows;
    }
  }

  lemma {:induction false} EventsAfterTellTheTruth<S, P>(d: Domain<S, P>, s: System<S, P>, after: nat, limit: nat)
    requires Inv(d, s)
    ensures forall e :: e in EventsAfter(s.db, after, limit) ==>
      after < e.version <= |s.h.log| && e == EventOf(e.version, s.h.log[e.version - 1])
  {
    var rows := RowsAfter(s.db.wal, after, s.db.head.value.version);
    RowsAfterIn(s.db.wal, after, s.db.head.value.version);
    RowsTellTheTruth(s.db.wal, s.h.log, if |rows| <= limit then rows else rows[..limit], after);
  }

  /** While the rows after `after` are retained, they are exactly the next events of the log, as many as asked for. */
  lemma {:induction false} EventsAfterAreTheLog<S, P>(d: Domain<S, P>, s: System<S, P>, after: nat, limit: nat)
    requires Inv(d, s) && s.h.cut <= after <= |s.h.log|
    ensures |EventsAfter(s.db, after, limit)| == Min(|s.h.log| - after, limit)
    ensures forall i :: 0 <= i < Min(|s.h.log| - after, limit) ==>
      EventsAfter(s.db, after, limit)[i] == EventOf(after + 1 + i, s.h.log[after + i])
  {
    RowsAfterAt(s.db.wal, s.h, after, |s.h.log|);
    var rows, events := RowsAfter(s.db.wal, after, |s.h.log|), EventsAfter(s.db, after, limit);
    forall i | 0 <= i < Min(|s.h.log| - after, limit) ensures events[i] == EventOf(after + 1 + i, s.h.log[after + i]) {
      assert events[i] == EventOf(rows[i].0, rows[i].1) && rows[i] == (after + 1 + i, s.h.log[after + i]);
    }
  }

  /** What `prepare` is shown of a warm room's history is a suffix of the log, so it is exact when called complete. */
  lemma {:induction false} WarmHistoryIsExact<S, P>(d: Domain<S, P>, s: System<S, P>, k: nat, op: Operation)
    requires Inv(d, s) && IsWarm(s, k) && op.baseVersion <= s.sessions[k].image.version
    ensures var image := s.sessions[k].image;
            var c := ContextOf(op, image.state, image.version, image.recent);
            var log := OperationLog(s.h);
      && image.version <= |log| && SuffixOf(image.recent, log, image.version)
      && (c.complete <==> c.concurrent == Between(log, op.baseVersion, image.version))
  {
    assert SessionOK(d, s.db.head.value, s.h, k, s.sessions[k]);
    HistoryCompleteIsExact(op, s.sessions[k].image.state, OperationLog(s.h), s.sessions[k].image.version, s.sessions[k].image.recent);
  }

  function OperationLog<S, P>(h: History<S, P>): (ops: seq<Operation>)
    ensures |ops| == |h.log|
  {
    seq(|h.log|, i requires 0 <= i < |h.log| => h.log[i].op)
  }

  /** Where the pack's patch application does not throw, it is the domain's. */
  predicate Agree<S(==), P>(d: Domain<S, P>, pack: Pack<S, P>, state: S, p: P) {
    pack.apply(state, p).Ok? ==> pack.apply(state, p).value == d.apply(state, p)
  }

  /**
   * The steps of the system are what `process` does: its request is the one that `Prepare` sends, and handling the
   * reply leaves the room as `AfterAttempt` says, the reload of a conflict reading whatever the store holds by then.
   */
  lemma {:induction false} AttemptIsTheSteps<S, P>(d: Domain<S, P>, pack: Pack<S, P>, maxGap: nat, s: System<S, P>, k: nat, op: Operation, fingerprint: string, outcome: CommitOutcome<P>, db: Db<S, P>, era: nat)
    requires IsWarm(s, k) && s.sessions[k].call.Idle? && |s.h.eras| > 0 && LoadRoom(db).Ok?
    requires forall p: P :: Agree(d, pack, s.sessions[k].image.state, p)
    requires PreparedBy(pack, maxGap, op, s.sessions[k].image).Ready? && !outcome.Fenced?
    ensures var w, p := s.sessions[k], PreparedBy(pack, maxGap, op, s.sessions[k].image);
            var sent := Next(d, s, Prepare(k, op, p.patches, fingerprint));
            var answered := Answered(sent.sessions[k].call.request, sent.sessions[k].call.next, outcome);
            var received := Received(sent, k, w.(call := answered));
      && sent.commits == s.commits + Requests(k, w.instance, op, fingerprint, p)
      && IsWarm(received, k) && (received.sessions[k].call.Stale? <==> Retries(p, outcome))
      && AfterAttempt(d.apply, w.image, op, p, outcome, LoadRoom(db).value, era)
         == if Retries(p, outcome) then Reloaded(d.apply, received.sessions[k].image, LoadRoom(db).value, era) else received.sessions[k].image
  {
    var w, p := s.sessions[k], PreparedBy(pack, maxGap, op, s.sessions[k].image);
    assert p.resolvedAt == w.image.version && pack.apply(w.image.state, p.patches) == Ok(p.next);
    assert Agree(d, pack, w.image.state, p.patches);
    var sent := Next(d, s, Prepare(k, op, p.patches, fingerprint));
    assert sent.sessions[k].call.next == p.next;
    assert sent.commits == s.commits + Requests(k, w.instance, op, fingerprint, p);
  }

  // ---- schema versions on snapshot rows ----

  /** Every copy of a state carries the schema version of the era it belongs to. */
  ghost predicate SchemasOK<S, P>(s: System<S, P>) {
    && s.db.head.Some?
    && (forall k :: k in s.sessions && !s.sessions[k].Claimed? ==>
          s.sessions[k].image.era < |s.h.eras| && s.sessions[k].image.schema == s.h.eras[s.sessions[k].image.era].schema)
    && (forall i :: 0 <= i < |s.saves| ==> s.saves[i].era < |s.h.eras| && s.saves[i].schema == s.h.eras[s.saves[i].era].schema)
    && (forall v :: v in s.db.snapshots && v >= s.db.head.value.pointer ==> s.db.snapshots[v].schema == s.db.head.value.schema)
  }

  /**
   * `reload` refreshes state, version and history but not `schemaVersion`; it keeps every label right exactly when
   * the room's label is the head's.
   */
  lemma {:induction false} ReloadKeepsSchemas<S, P>(d: Domain<S, P>, s: System<S, P>, k: nat)
    requires Inv(d, s) && Enabled(s, Reload(k)) && SchemasOK(s)
    ensures SchemasOK(Next(d, s, Reload(k))) <==> s.sessions[k].image.schema == s.db.head.value.schema
  {
    var t := Next(d, s, Reload(k));
    assert t.sessions[k].image.schema == s.sessions[k].image.schema && t.sessions[k].image.era == Last(s.h);
  }

  lemma {:induction false} SaveKeepsSchemas<S, P>(d: Domain<S, P>, s: System<S, P>, i: nat)
    requires Inv(d, s) && i < |s.saves| && SchemasOK(s)
    ensures SchemasOK(Next(d, s, DeliverSave(i)))
  {
    var save, t := s.saves[i], Next(d, s, DeliverSave(i));
    assert SaveOK(d, s.h, save);
    if save.version > s.db.head.value.pointer { HeldAboveIsCurrent(d, s.h, save.era, save.version, save.state); }
  }

  lemma {:induction false} MigrationKeepsSchemas<S, P>(d: Domain<S, P>, s: System<S, P>, a: Action<S, P>)
    requires Inv(d, s) && Enabled(s, a) && a.Migrate? && SchemasOK(s)
    ensures SchemasOK(Next(d, s, a))
  {
    OwnerMigrates(d, s, a.epoch, a.to);
    var t := Next(d, s, a);
    assert SessionOK(d, s.db.head.value, s.h, a.epoch, s.sessions[a.epoch]);
    StepKeepsInvariant(d, s, a);
    if t.db != s.db {
      forall v | v in t.db.snapshots && v >= t.db.head.value.pointer ensures t.db.snapshots[v].schema == t.db.head.value.schema {
        assert Holds(d, t.h, Last(t.h), v, t.db.snapshots[v].state);
      }
    }
  }

  /** Steps on the tables that touch no snapshot, pointer or schema version. */
  lemma {:induction false} TableStepKeepsSchemas<S, P>(d: Domain<S, P>, s: System<S, P>, a: Action<S, P>)
    requires |s.h.eras| > 0 && Enabled(s, a) && SchemasOK(s)
    requires a.Ensure? || a.PersistRejection? || a.LockRows? || a.MarkRow? || a.CompactAll? || a.Lookup?
    ensures SchemasOK(Next(d, s, a))
  {
    var t := Next(d, s, a);
    assert t.sessions == s.sessions && t.saves == s.saves && t.h.eras == s.h.eras && t.db.head == s.db.head;
    assert forall v :: v in t.db.snapshots ==> v in s.db.snapshots && t.db.snapshots[v] == s.db.snapshots[v];
  }

  /** Steps of one worker on its own. */
  lemma {:induction false} WorkerStepKeepsSchemas<S, P>(d: Domain<S, P>, s: System<S, P>, a: Action<S, P>)
    requires |s.h.eras| > 0 && Enabled(s, a) && SchemasOK(s)
    requires a.Claim? || a.Ready? || a.Prepare? || a.ReceiveReply? || a.LoseReply? || a.CaptureSave? || a.Drop?
    ensures SchemasOK(Next(d, s, a))
  {
    var t := Next(d, s, a);
    assert t.db.snapshots == s.db.snapshots && t.h == s.h && t.db.head.Some?;
    assert t.db.head.value.schema == s.db.head.value.schema && t.db.head.value.pointer == s.db.head.value.pointer;
  }

  lemma {:induction false} CommitKeepsSchemas<S, P>(d: Domain<S, P>, s: System<S, P>, a: Action<S, P>)
    requires Inv(d, s) && Enabled(s, a) && SchemasOK(s) && a.DeliverCommit?
    ensures SchemasOK(Next(d, s, a))
  {
    CommitShape(s, s.commits[a.i], a.now);
    var t := Next(d, s, a);
    assert t.db.snapshots == s.db.snapshots && t.h.eras == s.h.eras;
    assert forall k :: k in t.sessions ==>
      k in s.sessions && (if t.sessions[k].Claimed? then s.sessions[k].Claimed? else !s.sessions[k].Claimed? && t.sessions[k].image == s.sessions[k].image);
  }

  lemma {:induction false} LoadKeepsSchemas<S, P>(d: Domain<S, P>, s: System<S, P>, a: Action<S, P>)
    requires Inv(d, s) && Enabled(s, a) && SchemasOK(s) && a.Load?
    ensures SchemasOK(Next(d, s, a))
  {
    RecoveryIsExact(d, s);
  }

  // ---- the label of the pointer's own row ----

  /** The row at the pointer carries the head's schema version. */
  predicate PointerLabelled<S, P>(db: Db<S, P>) {
    db.head.Some? && db.head.value.pointer in db.snapshots && db.snapshots[db.head.value.pointer].schema == db.head.value.schema
  }

  /** The save moves the pointer to a row that is there already, under another schema version. */
  predicate AdoptsMislabelled<S, P>(s: System<S, P>, a: Action<S, P>) {
    && a.DeliverSave? && a.i < |s.saves| && s.db.head.Some?
    && var save, h := s.saves[a.i], s.db.head.value;
       && h.pointer < save.version <= h.version && save.schema == h.schema
       && save.version in s.db.snapshots && s.db.snapshots[save.version].schema != h.schema
  }

  /** The pointer's row comes to be mislabelled exactly by a save that finds another worker's mislabelled row in its place. */
  lemma {:induction false} PointerMislabelled<S, P>(d: Domain<S, P>, s: System<S, P>, a: Action<S, P>)
    requires Inv(d, s) && Enabled(s, a) && PointerLabelled(s.db)
    ensures PointerLabelled(Next(d, s, a).db) <==> !AdoptsMislabelled(s, a)
  {
    if a.Migrate? { OwnerMigrates(d, s, a.epoch, a.to); assert SessionOK(d, s.db.head.value, s.h, a.epoch, s.sessions[a.epoch]); }
    else if a.DeliverCommit? { CommitShape(s, s.commits[a.i], a.now); }
    else if !a.DeliverSave? { OtherKeepsPointer(s, d, a); }
  }

  lemma {:induction false} OtherKeepsPointer<S, P>(s: System<S, P>, d: Domain<S, P>, a: Action<S, P>)
    requires |s.h.eras| > 0 && Enabled(s, a) && PointerLabelled(s.db) && !a.Migrate? && !a.DeliverCommit? && !a.DeliverSave?
    ensures PointerLabelled(Next(d, s, a).db)
  {
  }

  /** Over runs in which rooms reload only under their own schema version, the pointer's row has the head's schema. */
  lemma {:induction false} SchemasStayRight<S, P>(d: Domain<S, P>, states: seq<System<S, P>>, actions: seq<Action<S, P>>, schema: string, initial: S, n: nat)
    requires Run(d, states, actions) && states[0] == Start(schema, initial) && n <= |actions|
    requires forall i :: 0 <= i < n && actions[i].Reload? && states[i].db.head.Some? ==>
      states[i].sessions[actions[i].epoch].image.schema == states[i].db.head.value.schema
    ensures SchemasOK(states[n]) && states[n].db.head.value.pointer in states[n].db.snapshots
    ensures states[n].db.snapshots[states[n].db.head.value.pointer].schema == states[n].db.head.value.schema
  {
    EveryRunIsSafe(d, states, actions, schema, initial, n);
    if n > 0 {
      SchemasStayRight(d, states, actions, schema, initial, n - 1);
      EveryRunIsSafe(d, states, actions, schema, initial, n - 1);
      var s, a := states[n - 1], actions[n - 1];
      if a.Reload? { ReloadKeepsSchemas(d, s, a.epoch); }
      else if a.DeliverSave? { SaveKeepsSchemas(d, s, a.i); }
      else if a.Migrate? { MigrationKeepsSchemas(d, s, a); }
      else if a.DeliverCommit? { CommitKeepsSchemas(d, s, a); }
      else if a.Load? { LoadKeepsSchemas(d, s, a); }
      else if a.Claim? || a.Ready? || a.Prepare? || a.ReceiveReply? || a.LoseReply? || a.CaptureSave? || a.Drop? { WorkerStepKeepsSchemas(d, s, a); }
      else { TableStepKeepsSchemas(d, s, a); }
    }
  }
}
