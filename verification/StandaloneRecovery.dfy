/** Crash and eviction cannot be told from never having left memory, as long as the data is retained. */
module StandaloneRecovery {
  import opened Results
  import opened Json
  import opened Ordering
  import opened CommitStore
  import opened Pipeline
  import opened Standalone

  /** One schema era: it began at version `start` in state `state`. */
  datatype Era<+S> = Era(start: nat, state: S)

  function Truth<S, P>(d: Domain<S, P>, era: Era<S>, wal: seq<Record<P>>, v: nat): S
    requires era.start <= v <= |wal|
    decreases v
  {
    if v == era.start then era.state else d.apply(Truth(d, era, wal, v - 1), wal[v - 1].patches)
  }

  /** The accepted answers that the log implies. */
  function Index<P>(wal: seq<Record<P>>): map<string, Held<P>> {
    if wal == [] then map[]
    else
      var r := wal[|wal| - 1];
      Index(wal[..|wal| - 1])[r.op.operationId := Taken(r.version, r.patches)]
  }

  function TakenOnly<P>(results: map<string, Held<P>>): map<string, Held<P>> {
    map id | id in results && results[id].Taken? :: results[id]
  }

  /** The log's operations that were made under `schema`, with their versions. */
  function Under<P>(wal: seq<Record<P>>, schema: string): seq<Versioned> {
    if wal == [] then []
    else
      var r := wal[|wal| - 1];
      Under(wal[..|wal| - 1], schema) + if r.op.schemaVersion == schema then [(r.version, r.op)] else []
  }

  ghost predicate WalOK<P>(wal: seq<Record<P>>) {
    forall i :: 0 <= i < |wal| ==> wal[i].version == i + 1
  }

  ghost predicate TrueSnap<S, P>(d: Domain<S, P>, era: Era<S>, wal: seq<Record<P>>, snap: Snap<S>) {
    snap.schema == d.schema && era.start <= snap.version <= |wal| && snap.state == Truth(d, era, wal, snap.version)
  }

  ghost predicate StorageOK<S, P>(d: Domain<S, P>, era: Era<S>, st: Storage<S, P>) {
    && WalOK(st.wal) && era.start <= |st.wal|
    && (forall i :: era.start <= i < |st.wal| ==> st.wal[i].op.schemaVersion == d.schema)
    && (if st.snapshot.None? then era == Era(0, d.initial) else TrueSnap(d, era, st.wal, st.snapshot.value))
  }

  /** What every session, old or rebuilt, has to agree on. */
  ghost predicate SessionOK<S, P>(d: Domain<S, P>, era: Era<S>, st: Storage<S, P>, s: Session<S, P>) {
    && era.start <= |st.wal|
    && s.version == |st.wal| && s.state == Truth(d, era, st.wal, |st.wal|)
    && TakenOnly(s.results) == Index(st.wal)
  }

  lemma {:induction false} TruthStable<S, P>(d: Domain<S, P>, era: Era<S>, wal: seq<Record<P>>, longer: seq<Record<P>>, v: nat)
    requires era.start <= v <= |wal| && wal <= longer
    ensures Truth(d, era, wal, v) == Truth(d, era, longer, v)
    decreases v
  {
    if v > era.start { TruthStable(d, era, wal, longer, v - 1); assert wal[v - 1] == longer[v - 1]; }
  }

  // ---- load ----

  lemma {:induction false} SortedLog<P>(wal: seq<Record<P>>, rows: seq<Record<P>>)
    requires WalOK(wal) && multiset(rows) == multiset(wal)
    ensures ByVersion(rows) == wal
  {
    SortUnique(rows, (r: Record<P>) => r.version as real, wal);
  }

  /** The session in the middle of the loop of `load`, after the first `n` records. */
  ghost predicate Midway<S, P>(d: Domain<S, P>, era: Era<S>, wal: seq<Record<P>>, from: nat, n: nat, s: Session<S, P>)
    requires era.start <= from <= |wal| && n <= |wal|
  {
    && s.version == (if n > from then n else from) && s.state == Truth(d, era, wal, s.version)
    && s.results == Index(wal[..n]) && s.operations == Under(wal[..n], d.schema)
  }

  lemma {:induction false} ReplayIsExact<S, P>(d: Domain<S, P>, era: Era<S>, wal: seq<Record<P>>, from: nat, n: nat, s: Session<S, P>, strict: bool, schema: string)
    requires WalOK(wal) && era.start <= from <= |wal| && n <= |wal| && Midway(d, era, wal, from, n, s)
    requires strict ==> forall i :: 0 <= i < |wal| ==> wal[i].op.schemaVersion == schema
    ensures Replay(d, strict, schema, s, wal[n..]).Ok?
    ensures Midway(d, era, wal, from, |wal|, Replay(d, strict, schema, s, wal[n..]).value)
    decreases |wal| - n
  {
    if n < |wal| {
      assert wal[n..][0] == wal[n] && wal[n..][1..] == wal[n + 1..];
      assert wal[..n + 1][..n] == wal[..n];
      ReplayIsExact(d, era, wal, from, n + 1, Replayed(d, s, wal[n]), strict, schema);
    } else {
      assert wal[n..] == [];
    }
  }

  lemma {:induction false} IndexIsAccepted<P>(wal: seq<Record<P>>)
    ensures TakenOnly(Index(wal)) == Index(wal)
    decreases |wal|
  {
    if wal != [] { IndexIsAccepted(wal[..|wal| - 1]); }
  }

  lemma {:induction false} LoadIs<S, P>(d: Domain<S, P>, snapshot: Option<Snap<S>>, rows: seq<Record<P>>)
    ensures var schema := StoredSchema(d, snapshot, rows);
            var replayed := Replay(d, snapshot.None?, schema, Start(d, snapshot), ByVersion(rows));
            var loaded := Load(d, snapshot, rows);
      && (loaded.Ok? <==> replayed.Ok? && (schema == d.schema || d.migrate(schema, replayed.value.state).Ok?))
      && (loaded.Ok? && schema == d.schema ==> loaded.value == (replayed.value, None))
      && (loaded.Ok? && schema != d.schema ==>
            var state := d.migrate(schema, replayed.value.state).value;
            loaded.value == (replayed.value.(state := state, operations := []), Some(Snap(replayed.value.version, d.schema, state))))
  {
    assert Start(d, snapshot).(operations := [], results := map[]) == Start(d, snapshot);
    ReplayReaches(d, snapshot.None?, StoredSchema(d, snapshot, rows), Start(d, snapshot), ByVersion(rows));
  }

  /** In whatever order the storage returns the log, `load` rebuilds version, state and accepted answers exactly. */
  lemma {:induction false} LoadIsExact<S, P>(d: Domain<S, P>, era: Era<S>, st: Storage<S, P>, rows: seq<Record<P>>)
    requires StorageOK(d, era, st) && multiset(rows) == multiset(st.wal)
    ensures Load(d, st.snapshot, rows).Ok? && Load(d, st.snapshot, rows).value.1.None?
    ensures SessionOK(d, era, st, Load(d, st.snapshot, rows).value.0)
    ensures Load(d, st.snapshot, rows).value.0.operations == Under(st.wal, d.schema)
  {
    SortedLog(st.wal, rows);
    var s := Start(d, st.snapshot);
    FirstRow(rows, st.wal);
    assert st.wal[..0] == [] && st.wal[0..] == st.wal && st.wal[..|st.wal|] == st.wal;
    ReplayIsExact(d, era, st.wal, s.version, 0, s, st.snapshot.None?, StoredSchema(d, st.snapshot, rows));
    IndexIsAccepted(st.wal);
    LoadIs(d, st.snapshot, rows);
  }

  // ---- trying again ----

  /** Replaying adds to what is there, and the log's own answers win. */
  lemma {:induction false} ReachedOnto<S, P>(d: Domain<S, P>, strict: bool, schema: string, s: Session<S, P>, ops: seq<Versioned>, results: map<string, Held<P>>, rows: seq<Record<P>>)
    ensures var r, onto := Reached(d, strict, schema, s, rows), Reached(d, strict, schema, s.(operations := ops + s.operations, results := results + s.results), rows);
      onto == r.(operations := ops + r.operations, results := results + r.results)
    ensures var r, onto := Replay(d, strict, schema, s, rows), Replay(d, strict, schema, s.(operations := ops + s.operations, results := results + s.results), rows);
      (r.Ok? <==> onto.Ok?) && (r.Err? ==> onto == r)
    decreases |rows|
  {
    if rows != [] && !(strict && rows[0].op.schemaVersion != schema) {
      var t := Replayed(d, s, rows[0]);
      var u := s.(operations := ops + s.operations, results := results + s.results);
      assert Replayed(d, u, rows[0]) == t.(operations := ops + t.operations, results := results + t.results);
      ReachedOnto(d, strict, schema, t, ops, results, rows[1..]);
    }
  }

  /** Trying again rebuilds the history exactly when the failed load left none, or when the migration clears it. */
  predicate RetryForgets<S, P>(d: Domain<S, P>, snapshot: Option<Snap<S>>, rows: seq<Record<P>>, failed: Session<S, P>) {
    StoredSchema(d, snapshot, rows) != d.schema || failed.operations == []
  }

  /**
   * `initialize` called again on an object whose `load` left `failed`, on whatever the storage holds by then: it fails
   * where a new object fails; otherwise version, state and saved snapshot are those of a new object, the log's answers
   * win over what was left, and the history is a new object's if and only if `RetryForgets`.
   */
  lemma {:induction false} RetryIs<S, P>(d: Domain<S, P>, snapshot: Option<Snap<S>>, rows: seq<Record<P>>, failed: Session<S, P>, saveFails: bool)
    ensures var first, retry := LoadOnto(d, snapshot, rows, New(d), saveFails), LoadOnto(d, snapshot, rows, failed, saveFails);
      && retry.1 == first.1
      && (retry.1.Ok? ==>
            && retry.0 == first.0.(operations := retry.0.operations, results := failed.results + first.0.results)
            && (retry.0.operations == first.0.operations <==> RetryForgets(d, snapshot, rows, failed)))
  {
    var schema, sorted, strict := StoredSchema(d, snapshot, rows), ByVersion(rows), snapshot.None?;
    var start := Start(d, snapshot);
    assert start.(operations := [], results := map[]) == start;
    assert failed.operations + start.operations == failed.operations && failed.results + start.results == failed.results;
    ReachedOnto(d, strict, schema, start, failed.operations, failed.results, sorted);
    ReplayReaches(d, strict, schema, start, sorted);
    ReplayReaches(d, strict, schema, start.(operations := failed.operations, results := failed.results), sorted);
    var r := Reached(d, strict, schema, start, sorted);
    assert |failed.operations + r.operations| == |failed.operations| + |r.operations|;
  }

  /** When nothing was stored in between, a retry that succeeds leaves the very session of a new object. */
  lemma {:induction false} RetryIsLikeFresh<S, P>(d: Domain<S, P>, snapshot: Option<Snap<S>>, rows: seq<Record<P>>, firstSaveFails: bool, saveFails: bool)
    requires LoadOnto(d, snapshot, rows, New(d), firstSaveFails).1.Err?
    ensures var failed := LoadOnto(d, snapshot, rows, New(d), firstSaveFails).0;
            var first, retry := LoadOnto(d, snapshot, rows, New(d), saveFails), LoadOnto(d, snapshot, rows, failed, saveFails);
      && (retry.1.Ok? <==> first.1.Ok?) && (retry.1.Ok? ==> retry == first)
  {
    var failed := LoadOnto(d, snapshot, rows, New(d), firstSaveFails).0;
    RetryIs(d, snapshot, rows, failed, saveFails);
    assert failed.results + failed.results == failed.results;
  }

  /**
   * When a snapshot arrived in between it need not: a log of two schemas without a snapshot fails after its first
   * record, and once a snapshot is there the retry lists that record twice.
   */
  lemma {:induction false} SnapshotBeforeRetry(x: Record<int>, y: Record<int>)
    requires x.version == 1 && x.op.schemaVersion == "A" && y.version == 2 && y.op.schemaVersion == "B"
    ensures var d, wal := Counter("A"), [x, y];
            var failed := LoadOnto(d, None, wal, New(d), false);
            var retry, first := LoadOnto(d, Some(Snap(2, "A", 5)), wal, failed.0, false), LoadOnto(d, Some(Snap(2, "A", 5)), wal, New(d), false);
      && failed.1.Err? && retry.1.Ok?
      && retry.0.operations == [(1, x.op), (1, x.op)] && first.0.operations == [(1, x.op)]
  {
    var d, wal := Counter("A"), [x, y];
    SortedLog(wal, wal);
    FailsAtSecond(d, x, y);
    TwoReplayed(d, Start(d, Some(Snap(2, "A", 5))), x, y);
    TwoReplayed(d, Start(d, Some(Snap(2, "A", 5))).(operations := [(1, x.op)], results := map[x.op.operationId := Taken(1, x.patches)]), x, y);
  }

  lemma {:induction false} FailsAtSecond(d: Domain<int, int>, x: Record<int>, y: Record<int>)
    requires x.version == 1 && x.op.schemaVersion == d.schema && y.version == 2 && y.op.schemaVersion != d.schema
    ensures var failed := LoadOnto(d, None, [x, y], New(d), false);
      failed.1.Err? && failed.0.operations == [(1, x.op)] && failed.0.results == map[x.op.operationId := Taken(1, x.patches)]
  {
    var s := Start(d, None);
    SortedLog([x, y], [x, y]);
    assert [x, y][1..] == [y];
    assert Reached(d, true, d.schema, Replayed(d, s, x), [y]) == Replayed(d, s, x) && Replay(d, true, d.schema, Replayed(d, s, x), [y]).Err?;
    assert s.(operations := [], results := map[]) == s;
  }

  lemma {:induction false} TwoReplayed(d: Domain<int, int>, s: Session<int, int>, x: Record<int>, y: Record<int>)
    ensures var t := Replayed(d, Replayed(d, s, x), y);
      Replay(d, false, d.schema, s, [x, y]) == Ok(t) && Reached(d, false, d.schema, s, [x, y]) == t
  {
    var u := Replayed(d, s, x);
    assert [x, y][1..] == [y] && [y][1..] == [];
    assert Replay(d, false, d.schema, u, [y]) == Ok(Replayed(d, u, y)) && Reached(d, false, d.schema, u, [y]) == Replayed(d, u, y);
  }

  lemma {:induction false} FirstRow<P>(rows: seq<Record<P>>, wal: seq<Record<P>>)
    requires multiset(rows) == multiset(wal)
    ensures rows != [] <==> wal != []
    ensures rows != [] ==> rows[0] in wal
  {
    assert |multiset(rows)| == |rows| && |multiset(wal)| == |wal|;
    if rows != [] { assert rows[0] in multiset(rows); }
  }

  // ---- process ----

  lemma {:induction false} AppendedStorage<S, P>(d: Domain<S, P>, era: Era<S>, st: Storage<S, P>, r: Record<P>)
    requires StorageOK(d, era, st) && r.version == |st.wal| + 1 && r.op.schemaVersion == d.schema
    ensures StorageOK(d, era, st.(wal := st.wal + [r]))
    ensures Truth(d, era, st.wal + [r], |st.wal| + 1) == d.apply(Truth(d, era, st.wal, |st.wal|), r.patches)
  {
    var longer := st.wal + [r];
    if st.snapshot.Some? { TruthStable(d, era, st.wal, longer, st.snapshot.value.version); }
    TruthStable(d, era, st.wal, longer, |st.wal|);
  }

  /** The pack's patch application, where it does not throw, is the one recovery uses. */
  predicate Agree<S(==), P>(d: Domain<S, P>, pack: Pack<S, P>, state: S, p: P) {
    pack.apply(state, p).Ok? ==> pack.apply(state, p).value == d.apply(state, p)
  }

  lemma {:induction false} TakenGrows<P>(results: map<string, Held<P>>, id: string, outcome: Held<P>)
    requires id !in results
    ensures TakenOnly(results[id := outcome]) == if outcome.Taken? then TakenOnly(results)[id := outcome] else TakenOnly(results)
  {
  }

  lemma {:induction false} AcceptKeeps<S, P>(d: Domain<S, P>, era: Era<S>, interval: nat, s: Session<S, P>, st: Storage<S, P>, op: Operation, patches: P, f: Faults)
    requires interval > 0 && StorageOK(d, era, st) && SessionOK(d, era, st, s)
    requires op.operationId !in s.results && op.schemaVersion == d.schema
    ensures var t := Advanced(s, op, patches, d.apply(s.state, patches)); var su := Appended(d.schema, interval, t, st, op, patches, f);
      StorageOK(d, era, su) && SessionOK(d, era, su, t)
  {
    var r := Record(s.version + 1, op, patches);
    AppendedStorage(d, era, st, r);
    TakenGrows(s.results, op.operationId, Taken(s.version + 1, patches));
    assert (st.wal + [r])[..|st.wal|] == st.wal;
  }

  lemma {:induction false} ProcessKeeps<S, P>(d: Domain<S, P>, era: Era<S>, pack: Pack<S, P>, maxGap: nat, interval: nat, s: Session<S, P>, st: Storage<S, P>, op: Operation, f: Faults)
    requires interval > 0 && pack.schema == d.schema && StorageOK(d, era, st) && SessionOK(d, era, st, s)
    requires forall p: P :: Agree(d, pack, s.state, p)
    ensures var (t, su, _) := ProcessOp(pack, maxGap, interval, s, st, op, f); StorageOK(d, era, su) && SessionOK(d, era, su, t)
  {
    if op.operationId !in s.results {
      var prepared := Prepare(pack, maxGap, op, s.state, s.version, s.operations);
      if prepared.Refused? { TakenGrows(s.results, op.operationId, Declined(prepared.version, prepared.code)); }
      if prepared.Ready? && !f.appendFails {
        assert Agree(d, pack, s.state, prepared.patches);
        AcceptKeeps(d, era, interval, s, st, op, prepared.patches, f);
      }
    }
  }

  // ---- runs ----

  /** The live session, if any, and snapshots on their way to the storage. */
  datatype World<+S, +P> = World(storage: Storage<S, P>, live: Option<Session<S, P>>, saves: seq<Snap<S>>)

  datatype Action<+P> =
    | Activates(rows: seq<Record<P>>)
    | Submits(op: Operation, faults: Faults)
    | CapturesSave
    | SaveArrives(i: nat)
    | Vanishes

  ghost predicate Enabled<S, P>(w: World<S, P>, a: Action<P>) {
    match a
    case Activates(rows) => multiset(rows) == multiset(w.storage.wal)
    case Submits(_, _) => w.live.Some?
    case CapturesSave => w.live.Some?
    case SaveArrives(i) => i < |w.saves|
    case Vanishes => true
  }

  ghost function Next<S, P>(d: Domain<S, P>, pack: Pack<S, P>, maxGap: nat, interval: nat, w: World<S, P>, a: Action<P>): World<S, P>
    requires interval > 0 && Enabled(w, a)
  {
    match a
    case Activates(rows) =>
      (match Load(d, w.storage.snapshot, rows)
       case Err(_) => w.(live := None)
       case Ok(loaded) => w.(live := Some(loaded.0), storage := if loaded.1.Some? then w.storage.(snapshot := loaded.1) else w.storage))
    case Submits(op, f) =>
      var (s, st, _) := ProcessOp(pack, maxGap, interval, w.live.value, w.storage, op, f);
      w.(live := Some(s), storage := st)
    case CapturesSave => w.(saves := w.saves + [SnapOf(pack.schema, w.live.value)])
    case SaveArrives(i) => w.(storage := w.storage.(snapshot := Some(w.saves[i])))
    case Vanishes => w.(live := None)
  }

  ghost predicate WorldOK<S, P>(d: Domain<S, P>, era: Era<S>, w: World<S, P>) {
    && StorageOK(d, era, w.storage)
    && (w.live.Some? ==> SessionOK(d, era, w.storage, w.live.value))
    && forall i :: 0 <= i < |w.saves| ==> TrueSnap(d, era, w.storage.wal, w.saves[i])
  }

  lemma {:induction false} StepKeeps<S, P>(d: Domain<S, P>, era: Era<S>, pack: Pack<S, P>, maxGap: nat, interval: nat, w: World<S, P>, a: Action<P>)
    requires interval > 0 && pack.schema == d.schema && WorldOK(d, era, w) && Enabled(w, a)
    requires forall s: S, p: P :: Agree(d, pack, s, p)
    ensures WorldOK(d, era, Next(d, pack, maxGap, interval, w, a))
  {
    match a
    case Activates(rows) => LoadIsExact(d, era, w.storage, rows);
    case Submits(op, f) =>
      ProcessKeeps(d, era, pack, maxGap, interval, w.live.value, w.storage, op, f);
      var t := Next(d, pack, maxGap, interval, w, a);
      forall i | 0 <= i < |w.saves| ensures TrueSnap(d, era, t.storage.wal, w.saves[i]) {
        TruthStable(d, era, w.storage.wal, t.storage.wal, w.saves[i].version);
      }
    case CapturesSave =>
    case SaveArrives(i) => assert TrueSnap(d, era, w.storage.wal, w.saves[i]);
    case Vanishes =>
  }

  ghost predicate Run<S, P>(d: Domain<S, P>, pack: Pack<S, P>, maxGap: nat, interval: nat, worlds: seq<World<S, P>>, actions: seq<Action<P>>)
    requires interval > 0
  {
    && |worlds| == |actions| + 1
    && forall n {:trigger actions[n]} :: 0 <= n < |actions| ==>
         Enabled(worlds[n], actions[n]) && worlds[n + 1] == Next(d, pack, maxGap, interval, worlds[n], actions[n])
  }

  /**
   * At any point of any run, with snapshots saved late and out of order and sessions lost at will, a session rebuilt
   * now has the version, state and accepted answers of the live one that never left memory.
   */
  lemma {:induction false} EvictionIsInvisible<S, P>(d: Domain<S, P>, era: Era<S>, pack: Pack<S, P>, maxGap: nat, interval: nat,
                                                    worlds: seq<World<S, P>>, actions: seq<Action<P>>, n: nat, rows: seq<Record<P>>)
    requires interval > 0 && pack.schema == d.schema && Run(d, pack, maxGap, interval, worlds, actions) && n <= |actions|
    requires WorldOK(d, era, worlds[0]) && forall s: S, p: P :: Agree(d, pack, s, p)
    requires multiset(rows) == multiset(worlds[n].storage.wal)
    ensures WorldOK(d, era, worlds[n]) && Load(d, worlds[n].storage.snapshot, rows).Ok?
    ensures worlds[n].live.Some? ==>
      var live, rebuilt := worlds[n].live.value, Load(d, worlds[n].storage.snapshot, rows).value.0;
      && rebuilt.version == live.version && rebuilt.state == live.state
      && TakenOnly(rebuilt.results) == TakenOnly(live.results)
    decreases n
  {
    if n > 0 {
      EvictionIsInvisible(d, era, pack, maxGap, interval, worlds, actions, n - 1, worlds[n - 1].storage.wal);
      StepKeeps(d, era, pack, maxGap, interval, worlds[n - 1], actions[n - 1]);
    }
    LoadIsExact(d, era, worlds[n].storage, rows);
  }

  // ---- a new schema ----

  /** Where the log starts under a newer pack: at the snapshot, or, without one, at the newer pack's initial state. */
  function Restart<S, P>(d: Domain<S, P>, era: Era<S>, newer: Domain<S, P>, st: Storage<S, P>): S
    requires era.start <= |st.wal|
  {
    if st.snapshot.Some? then Truth(d, era, st.wal, |st.wal|) else Truth(newer, Era(0, newer.initial), st.wal, |st.wal|)
  }

  /** The log replays under a newer pack from there. */
  lemma {:induction false} ReplayUnderNewer<S, P>(d: Domain<S, P>, era: Era<S>, newer: Domain<S, P>, st: Storage<S, P>, rows: seq<Record<P>>)
    requires StorageOK(d, era, st) && multiset(rows) == multiset(st.wal) && newer.apply == d.apply
    requires st.snapshot.Some? || st.wal != []
    ensures ByVersion(rows) == st.wal && StoredSchema(newer, st.snapshot, rows) == d.schema
    ensures Replay(newer, st.snapshot.None?, d.schema, Start(newer, st.snapshot), st.wal).Ok?
    ensures var s := Replay(newer, st.snapshot.None?, d.schema, Start(newer, st.snapshot), st.wal).value;
      s.version == |st.wal| && s.state == Restart(d, era, newer, st) && s.results == Index(st.wal)
  {
    SortedLog(st.wal, rows);
    FirstRow(rows, st.wal);
    var s := Start(newer, st.snapshot);
    var from := if st.snapshot.Some? then era else Era(0, newer.initial);
    assert st.wal[..0] == [] && st.wal[0..] == st.wal && st.wal[..|st.wal|] == st.wal;
    if st.snapshot.Some? {
      TruthSame(d, newer, era, st.wal, st.snapshot.value.version);
      TruthSame(d, newer, era, st.wal, |st.wal|);
    }
    ReplayIsExact(newer, from, st.wal, s.version, 0, s, st.snapshot.None?, d.schema);
  }

  /** Activation under a newer pack, in all cases where something is stored: what it returns, saves, or fails on. */
  lemma {:induction false} LoadUnderNewer<S, P>(d: Domain<S, P>, era: Era<S>, newer: Domain<S, P>, st: Storage<S, P>, rows: seq<Record<P>>)
    requires StorageOK(d, era, st) && multiset(rows) == multiset(st.wal) && newer.apply == d.apply && newer.schema != d.schema
    requires st.snapshot.Some? || st.wal != []
    ensures var loaded, migrated := Load(newer, st.snapshot, rows), newer.migrate(d.schema, Restart(d, era, newer, st));
      && (loaded.Ok? <==> migrated.Ok?)
      && (loaded.Ok? ==> loaded.value == (Session(|st.wal|, migrated.value, [], Index(st.wal)), Some(Snap(|st.wal|, newer.schema, migrated.value))))
  {
    ReplayUnderNewer(d, era, newer, st, rows);
    LoadIs(newer, st.snapshot, rows);
  }

  /** Migrating what the log replays to under the newer pack is migrating the true state. */
  predicate MigratesAlike<S(==), P>(d: Domain<S, P>, era: Era<S>, newer: Domain<S, P>, st: Storage<S, P>)
    requires era.start <= |st.wal|
  {
    newer.migrate(d.schema, Restart(d, era, newer, st)) == newer.migrate(d.schema, Truth(d, era, st.wal, |st.wal|))
  }

  /** A snapshot, or an initial state that the newer pack did not change, is enough. */
  lemma {:induction false} SnapshotMigratesAlike<S, P>(d: Domain<S, P>, era: Era<S>, newer: Domain<S, P>, st: Storage<S, P>)
    requires StorageOK(d, era, st) && newer.apply == d.apply && (st.snapshot.Some? || newer.initial == d.initial)
    ensures MigratesAlike(d, era, newer, st)
  {
    if st.snapshot.None? { TruthSame(d, newer, era, st.wal, |st.wal|); }
  }

  /**
   * Activation under a newer pack opens a new era with the migrated true state if and only if the log replays alike
   * from where the newer pack starts it; without a snapshot that is the newer pack's own initial state.
   */
  lemma {:induction false} MigrationOpensEra<S, P>(d: Domain<S, P>, era: Era<S>, newer: Domain<S, P>, st: Storage<S, P>, rows: seq<Record<P>>)
    requires StorageOK(d, era, st) && multiset(rows) == multiset(st.wal) && newer.apply == d.apply && newer.schema != d.schema
    requires st.snapshot.Some? || st.wal != []
    requires newer.migrate(d.schema, Truth(d, era, st.wal, |st.wal|)).Ok?
    ensures var loaded := Load(newer, st.snapshot, rows);
            var after := Era(|st.wal|, newer.migrate(d.schema, Truth(d, era, st.wal, |st.wal|)).value);
      && (MigratesAlike(d, era, newer, st) <==>
            loaded.Ok? && SessionOK(newer, after, st.(snapshot := loaded.value.1), loaded.value.0))
      && (MigratesAlike(d, era, newer, st) ==>
            && StorageOK(newer, after, st.(snapshot := loaded.value.1)) && loaded.value.0.operations == []
            && loaded.value.1 == Some(Snap(|st.wal|, newer.schema, after.state)))
  {
    LoadUnderNewer(d, era, newer, st, rows);
    IndexIsAccepted(st.wal);
  }

  /** Nothing stored: the newer pack starts the document afresh. */
  lemma {:induction false} NothingToMigrate<S, P>(newer: Domain<S, P>)
    ensures Load<S, P>(newer, None, []) == Ok((New(newer), None))
    ensures var nothing: Storage<S, P> := Storage(None, []); StorageOK(newer, Era(0, newer.initial), nothing)
  {
    assert ByVersion<P>([]) == [];
    LoadIs<S, P>(newer, None, []);
  }

  lemma {:induction false} TruthSame<S, P>(d: Domain<S, P>, newer: Domain<S, P>, era: Era<S>, wal: seq<Record<P>>, v: nat)
    requires era.start <= v <= |wal| && newer.apply == d.apply
    ensures Truth(d, era, wal, v) == Truth(newer, era, wal, v)
    decreases v
  {
    if v > era.start { TruthSame(d, newer, era, wal, v - 1); }
  }

  // ---- a save from a finished era ----

  /** A counter whose second schema counts in tenths. */
  function Counter(schema: string): Domain<int, int> {
    Domain(schema, 0, (s: int, p: int) => s + p, (from: string, s: int) => Ok(10 * s))
  }

  /** Migrating the old schema's state with the new era's patches on top gives what the new era itself arrived at. */
  predicate MigratesLate<S(==), P>(d: Domain<S, P>, era: Era<S>, newer: Domain<S, P>, after: Era<S>, wal: seq<Record<P>>)
    requires era.start <= after.start <= |wal|
  {
    newer.migrate(d.schema, Truth(d, era, wal, |wal|)) == Ok(Truth(newer, after, wal, |wal|))
  }

  /**
   * A snapshot of the old schema that arrives after the migration, whatever has been committed since: the next
   * activation replays the new era's patches on the old state and migrates that, which is right exactly when
   * `MigratesLate`.
   */
  lemma {:induction false} LateOldSave<S, P>(d: Domain<S, P>, era: Era<S>, newer: Domain<S, P>, after: Era<S>, wal: seq<Record<P>>, late: Snap<S>, rows: seq<Record<P>>)
    requires WalOK(wal) && multiset(rows) == multiset(wal) && newer.apply == d.apply && newer.schema != d.schema
    requires era.start <= after.start <= |wal| && TrueSnap(d, era, wal, late) && late.version <= after.start
    ensures var loaded, migrated := Load(newer, Some(late), rows), newer.migrate(d.schema, Truth(d, era, wal, |wal|));
      && (loaded.Ok? <==> migrated.Ok?)
      && (loaded.Ok? ==> loaded.value == (Session(|wal|, migrated.value, [], Index(wal)), Some(Snap(|wal|, newer.schema, migrated.value))))
      && (loaded.Ok? && SessionOK(newer, after, Storage(loaded.value.1, wal), loaded.value.0) <==> MigratesLate(d, era, newer, after, wal))
  {
    SortedLog(wal, rows);
    var s := Start(newer, Some(late));
    assert wal[..0] == [] && wal[0..] == wal && wal[..|wal|] == wal;
    TruthSame(d, newer, era, wal, late.version);
    TruthSame(d, newer, era, wal, |wal|);
    ReplayIsExact(newer, era, wal, s.version, 0, s, false, d.schema);
    LoadIs(newer, Some(late), rows);
    IndexIsAccepted(wal);
  }

  /** So it is harmless while nothing has been committed under the new schema. */
  lemma {:induction false} LateOldSaveBeforeCommits<S, P>(d: Domain<S, P>, era: Era<S>, newer: Domain<S, P>, st: Storage<S, P>, late: Snap<S>, rows: seq<Record<P>>)
    requires StorageOK(d, era, st) && multiset(rows) == multiset(st.wal) && newer.apply == d.apply && newer.schema != d.schema
    requires TrueSnap(d, era, st.wal, late)
    requires newer.migrate(d.schema, Truth(d, era, st.wal, |st.wal|)).Ok?
    ensures var migrated := newer.migrate(d.schema, Truth(d, era, st.wal, |st.wal|)).value;
            var loaded := Load(newer, Some(late), rows);
      loaded.Ok? && SessionOK(newer, Era(|st.wal|, migrated), st.(snapshot := loaded.value.1), loaded.value.0)
  {
    LateOldSave(d, era, newer, Era(|st.wal|, newer.migrate(d.schema, Truth(d, era, st.wal, |st.wal|)).value), st.wal, late, rows);
  }

  /** The schema function, where it does not throw, takes a patch to the same patch of the new schema. */
  predicate CommutesAt<S(==), P>(d: Domain<S, P>, newer: Domain<S, P>, s: S, p: P) {
    newer.migrate(d.schema, s).Ok? ==> newer.migrate(d.schema, d.apply(s, p)) == Ok(newer.apply(newer.migrate(d.schema, s).value, p))
  }

  ghost predicate CommutesWith<S(!new), P>(d: Domain<S, P>, newer: Domain<S, P>, p: P) {
    forall s: S :: CommutesAt(d, newer, s, p)
  }

  /** And it is harmless after any commits whose patches mean the same under both schemas. */
  lemma {:induction false} CommutingPatchesMigrateLate<S(!new), P>(d: Domain<S, P>, era: Era<S>, newer: Domain<S, P>, after: Era<S>, wal: seq<Record<P>>, v: nat)
    requires era.start <= after.start <= v <= |wal| && newer.migrate(d.schema, Truth(d, era, wal, after.start)) == Ok(after.state)
    requires forall i :: after.start <= i < v ==> CommutesWith(d, newer, wal[i].patches)
    ensures newer.migrate(d.schema, Truth(d, era, wal, v)) == Ok(Truth(newer, after, wal, v))
    ensures v == |wal| ==> MigratesLate(d, era, newer, after, wal)
    decreases v
  {
    if v > after.start {
      CommutingPatchesMigrateLate(d, era, newer, after, wal, v - 1);
      assert CommutesWith(d, newer, wal[v - 1].patches);
      assert CommutesAt(d, newer, Truth(d, era, wal, v - 1), wal[v - 1].patches);
    }
  }

  function Add(id: string, schema: string, n: int, v: nat): Record<int> {
    Record(v, Operation(id, "actor", 0, schema, Null), n)
  }

  /**
   * After other commits it need not be: here the log's last patch was made for the new schema and is replayed on the
   * old state. In this run version 1 left 1, migration made it 10 and version 2 made it 11; the rebuilt session holds 20.
   */
  lemma {:induction false} LateOldSaveAfterCommit()
    ensures var wal := [Add("x", "A", 1, 1), Add("y", "B", 1, 2)];
      && StorageOK(Counter("B"), Era(1, 10), Storage(Some(Snap(1, "B", 10)), wal))
      && Truth(Counter("B"), Era(1, 10), wal, 2) == 11
      && TrueSnap(Counter("A"), Era(0, 0), wal[..1], Snap(1, "A", 1))
      && Load(Counter("B"), Some(Snap(1, "A", 1)), wal).Ok?
      && Load(Counter("B"), Some(Snap(1, "A", 1)), wal).value.0.state == 20
      && !MigratesLate(Counter("A"), Era(0, 0), Counter("B"), Era(1, 10), wal)
  {
    var wal := [Add("x", "A", 1, 1), Add("y", "B", 1, 2)];
    var d, era := Counter("A"), Era(0, 0);
    assert Truth(d, era, wal, 0) == 0 && Truth(d, era, wal, 1) == 1;
    assert Truth(Counter("B"), Era(1, 10), wal, 1) == 10;
    LateOldSave(d, era, Counter("B"), Era(1, 10), wal, Snap(1, "A", 1), wal);
    assert Truth(Counter("A"), Era(0, 0), wal[..1], 0) == 0;
  }

  // ---- a log without a snapshot ----

  /** The counter again, starting where its schema says. */
  function CounterFrom(schema: string, initial: int): Domain<int, int> { Counter(schema).(initial := initial) }

  /**
   * One increment under schema A, which starts at 1, leaves 2, and 20 after migration. Schema B starts at 10 and
   * counts in tenths, so its pack replays the old patch to 11 and migrates that: the rebuilt session holds 110.
   */
  lemma {:induction false} OldPatchesOnNewInitial()
    ensures var a, b, wal := CounterFrom("A", 1), CounterFrom("B", 10), [Add("x", "A", 1, 1)];
      && StorageOK(a, Era(0, 1), Storage(None, wal)) && Truth(a, Era(0, 1), wal, 1) == 2
      && b.migrate("A", 2) == Ok(20) && !MigratesAlike(a, Era(0, 1), b, Storage(None, wal))
      && Load(b, None, wal).Ok? && Load(b, None, wal).value.0.state == 110
  {
    var a, b, wal := CounterFrom("A", 1), CounterFrom("B", 10), [Add("x", "A", 1, 1)];
    assert Truth(a, Era(0, 1), wal, 0) == 1 && Truth(b, Era(0, 10), wal, 0) == 10;
    LoadUnderNewer(a, Era(0, 1), b, Storage(None, wal), wal);
  }

  // ---- two live sessions ----

  /**
   * Why there may be one live session only: two that both stand at version 0 each append a version 1 and report it
   * accepted. The log then replays to the first of them, and the second operation is an accepted answer without effect.
   */
  lemma {:induction false} TwoSessionsForkTheLog()
    ensures var wal := [Add("x", "A", 1, 1), Add("y", "A", 1, 1)];
            var loaded := Load(Counter("A"), None, wal);
      && loaded.Ok? && loaded.value.0.version == 1 && loaded.value.0.state == 1
      && "y" in loaded.value.0.results && loaded.value.0.results["y"] == Taken(1, 1)
  {
    var d, x, y := Counter("A"), Add("x", "A", 1, 1), Add("y", "A", 1, 1);
    var wal := [x, y];
    var key := (r: Record<int>) => r.version as real;
    assert wal[1..] == [y] && [y][1..] == [];
    assert SortBy([y], key) == [y];
    assert SortBy(wal, key) == Insert(x, [y], key) == [x] + [y];
    assert ByVersion(wal) == wal;
    var s := Start(d, None);
    var s1 := Replayed(d, s, x);
    var s2 := Replayed(d, s1, y);
    assert Replay(d, true, "A", s2, wal[1..][1..]) == Ok(s2);
    assert Replay(d, true, "A", s1, wal[1..]) == Ok(s2);
    assert Replay(d, true, "A", s, wal) == Ok(s2);
    LoadIs(d, None, wal);
  }
}
