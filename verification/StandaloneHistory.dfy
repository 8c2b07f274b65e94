/** What a standalone session takes for its history, and when `prepare` may trust it. */
module StandaloneHistory {
  import opened Results
  import opened Json
  import opened Ordering
  import opened CommitStore
  import opened Pipeline
  import opened Standalone
  import opened StandaloneRecovery

  /** The reloaded operations are a suffix of the log if and only if the schema's records reach to its end. */
  lemma {:induction false} ReloadedHistoryIsSuffix<P>(wal: seq<Record<P>>, schema: string)
    requires WalOK(wal)
    ensures SuffixOf(Under(wal, schema), OpsOf(wal), |wal|) <==> UpwardClosed(wal, schema)
    decreases |wal|
  {
    if wal != [] {
      var n, front := |wal| - 1, wal[..|wal| - 1];
      ReloadedHistoryIsSuffix(front, schema);
      if wal[n].op.schemaVersion == schema {
        if UpwardClosed(front, schema) { SuffixGrows(front, wal, schema); }
        SuffixShrinks(front, wal, schema);
        ClosedGrows(front, wal, schema);
      } else {
        LastOutside(wal, schema);
      }
    }
  }

  lemma {:induction false} ClosedGrows<P>(front: seq<Record<P>>, wal: seq<Record<P>>, schema: string)
    requires wal != [] && front == wal[..|wal| - 1] && wal[|wal| - 1].op.schemaVersion == schema
    ensures UpwardClosed(front, schema) <==> UpwardClosed(wal, schema)
  {
    assert forall j :: 0 <= j < |front| ==> front[j] == wal[j];
  }

  lemma {:induction false} LastOutside<P>(wal: seq<Record<P>>, schema: string)
    requires WalOK(wal) && wal != [] && wal[|wal| - 1].op.schemaVersion != schema
    ensures SuffixOf(Under(wal, schema), OpsOf(wal), |wal|) <==> UpwardClosed(wal, schema)
  {
    var u, n := Under(wal, schema), |wal| - 1;
    UnderEntries(wal, schema);
    if |u| > 0 {
      var first, last := u[0], u[|u| - 1];
      assert first in u && last in u;
      assert wal[first.0 - 1].op.schemaVersion == schema && first.0 - 1 <= n;
      assert last.0 != |wal|;
    }
  }

  ghost predicate UpwardClosed<P>(wal: seq<Record<P>>, schema: string) {
    forall i, j :: 0 <= i <= j < |wal| && wal[i].op.schemaVersion == schema ==> wal[j].op.schemaVersion == schema
  }

  function OpsOf<P>(wal: seq<Record<P>>): (ops: seq<Operation>)
    ensures |ops| == |wal|
  {
    seq(|wal|, i requires 0 <= i < |wal| => wal[i].op)
  }

  /** `Under` lists exactly the records with the schema. */
  lemma {:induction false} UnderEntries<P>(wal: seq<Record<P>>, schema: string)
    requires WalOK(wal)
    ensures |Under(wal, schema)| <= |wal|
    ensures forall e :: e in Under(wal, schema) ==> 1 <= e.0 <= |wal| && e.1 == wal[e.0 - 1].op && e.1.schemaVersion == schema
    ensures forall i :: 0 <= i < |wal| && wal[i].op.schemaVersion == schema ==> (i + 1, wal[i].op) in Under(wal, schema)
    decreases |wal|
  {
    if wal != [] {
      var front := wal[..|wal| - 1];
      UnderEntries(front, schema);
      assert forall i :: 0 <= i < |front| ==> front[i] == wal[i];
    }
  }

  lemma {:induction false} SuffixGrows<P>(front: seq<Record<P>>, wal: seq<Record<P>>, schema: string)
    requires WalOK(wal) && wal != [] && front == wal[..|wal| - 1] && wal[|wal| - 1].op.schemaVersion == schema
    requires SuffixOf(Under(front, schema), OpsOf(front), |front|)
    ensures SuffixOf(Under(wal, schema), OpsOf(wal), |wal|)
  {
    var u, all, n := Under(front, schema), Under(wal, schema), |front|;
    assert all == u + [(n + 1, wal[n].op)];
    forall k | 0 <= k < |all| ensures all[k] == (n + 1 - |all| + 1 + k, OpsOf(wal)[n + 1 - |all| + k]) {
      if k < |u| { assert all[k] == u[k] == (n - |u| + 1 + k, OpsOf(front)[n - |u| + k]); }
    }
  }

  lemma {:induction false} SuffixShrinks<P>(front: seq<Record<P>>, wal: seq<Record<P>>, schema: string)
    requires WalOK(wal) && wal != [] && front == wal[..|wal| - 1] && wal[|wal| - 1].op.schemaVersion == schema
    ensures SuffixOf(Under(wal, schema), OpsOf(wal), |wal|) ==> SuffixOf(Under(front, schema), OpsOf(front), |front|)
  {
    var u, all, n := Under(front, schema), Under(wal, schema), |front|;
    assert all == u + [(n + 1, wal[n].op)];
    if SuffixOf(all, OpsOf(wal), |wal|) {
      forall k | 0 <= k < |u| ensures u[k] == (n - |u| + 1 + k, OpsOf(front)[n - |u| + k]) { assert u[k] == all[k]; }
    }
  }

  // ---- what `prepare` is told ----

  /** For this operation, `historyComplete` holds exactly when the concurrent operations are all there are. */
  ghost predicate ExactFor(op: Operation, log: seq<Operation>, v: nat, recent: seq<Versioned>)
    requires op.baseVersion <= v <= |log|
  {
    var c := ContextOf(op, (), v, recent);
    c.complete <==> c.concurrent == Between(log, op.baseVersion, v)
  }

  ghost predicate AlwaysExact(log: seq<Operation>, v: nat, recent: seq<Versioned>)
    requires v <= |log|
  {
    forall op: Operation :: op.baseVersion <= v ==> ExactFor(op, log, v, recent)
  }

  lemma {:induction false} SuffixIsExact(log: seq<Operation>, v: nat, recent: seq<Versioned>)
    requires SuffixOf(recent, log, v)
    ensures AlwaysExact(log, v, recent)
  {
    forall op: Operation | op.baseVersion <= v ensures ExactFor(op, log, v, recent) {
      HistoryCompleteIsExact(op, (), log, v, recent);
    }
  }

  lemma {:induction false} UnderAscends<P>(wal: seq<Record<P>>, schema: string)
    requires WalOK(wal)
    ensures forall i, j :: 0 <= i < j < |Under(wal, schema)| ==> Under(wal, schema)[i].0 < Under(wal, schema)[j].0
    decreases |wal|
  {
    if wal != [] {
      var front := wal[..|wal| - 1];
      UnderAscends(front, schema);
      UnderEntries(front, schema);
      var u, all := Under(front, schema), Under(wal, schema);
      forall i, j | 0 <= i < j < |all| ensures all[i].0 < all[j].0 {
        assert all[i] == u[i] && u[i] in u;
        if j < |u| { assert all[j] == u[j]; }
      }
    }
  }

  lemma {:induction false} AfterAll(entries: seq<Versioned>, base: nat)
    requires forall i :: 0 <= i < |entries| ==> entries[i].0 > base
    ensures After(entries, base) == entries
  {
    if entries != [] { AfterAll(entries[1..], base); }
  }

  /** At the version before its first entry a reloaded history claims to be complete and offers all it has. */
  lemma {:induction false} ClaimsComplete<P>(wal: seq<Record<P>>, schema: string, op: Operation)
    requires WalOK(wal) && Under(wal, schema) != [] && op.baseVersion + 1 == Under(wal, schema)[0].0
    ensures ContextOf(op, (), |wal|, Under(wal, schema)).complete
    ensures ContextOf(op, (), |wal|, Under(wal, schema)).concurrent == Under(wal, schema)
  {
    var u := Under(wal, schema);
    UnderAscends(wal, schema);
    SortedAlready(u);
    forall i | 0 <= i < |u| ensures u[i].0 > op.baseVersion { if i > 0 { assert u[0].0 < u[i].0; } }
    AfterAll(u, op.baseVersion);
  }

  /**
   * After a reload `historyComplete` tells the truth for every operation if and only if no schema version has
   * returned: from the first record under the pack's schema on, all are under it.
   */
  lemma {:induction false} ReloadedHistoryIsExact<P>(wal: seq<Record<P>>, schema: string)
    requires WalOK(wal)
    ensures AlwaysExact(OpsOf(wal), |wal|, Under(wal, schema)) <==> UpwardClosed(wal, schema)
  {
    var u := Under(wal, schema);
    ReloadedHistoryIsSuffix(wal, schema);
    if UpwardClosed(wal, schema) {
      SuffixIsExact(OpsOf(wal), |wal|, u);
    } else if AlwaysExact(OpsOf(wal), |wal|, u) {
      NothingUnder(wal, schema);
      UnderEntries(wal, schema);
      assert u[0] in u;
      var op := Operation("", "", u[0].0 - 1, "", Null);
      ClaimsComplete(wal, schema, op);
      assert ExactFor(op, OpsOf(wal), |wal|, u);
      BetweenIsSuffix(OpsOf(wal), op.baseVersion, |wal|);
    }
  }

  lemma {:induction false} NothingUnder<P>(wal: seq<Record<P>>, schema: string)
    requires WalOK(wal)
    ensures Under(wal, schema) == [] ==> UpwardClosed(wal, schema)
  {
    UnderEntries(wal, schema);
  }

  lemma {:induction false} BetweenIsSuffix(log: seq<Operation>, base: nat, v: nat)
    requires base <= v <= |log|
    ensures SuffixOf(Between(log, base, v), log, v)
  {
  }

  /** Records under A, B and A again, stored with the state that the second A began with. */
  function Returned(): Storage<int, int> {
    Storage(Some(Snap(2, "A", 5)), [Add("x", "A", 1, 1), Add("y", "B", 1, 2), Add("z", "A", 1, 3)])
  }

  lemma {:induction false} UnderA()
    ensures Under(Returned().wal, "A") == [(1, Returned().wal[0].op), (3, Returned().wal[2].op)]
  {
    var wal := Returned().wal;
    assert "A"[0] != "B"[0];
    assert wal[..2] == [wal[0], wal[1]] && wal[..2][..1] == [wal[0]] && wal[..2][..1][..0] == [];
    assert Under(wal[..2][..1], "A") == [(1, wal[0].op)];
    assert Under(wal[..2], "A") == [(1, wal[0].op)];
  }

  lemma {:induction false} OnlyLast(first: Versioned, last: Versioned, base: nat)
    requires first.0 == base < last.0
    ensures After([first, last], base) == [last]
  {
    var two, one: seq<Versioned> := [first, last], [last];
    assert two[1..] == one && one[1..] == [];
    assert After(one, base) == one;
  }

  /**
   * Loaded under A, an operation based on version 1 is told that its history is complete, and is not shown version 2.
   */
  lemma {:induction false} ReturningSchemaHidesVersion(op: Operation)
    requires op.baseVersion == 1
    ensures StorageOK(Counter("A"), Era(2, 5), Returned()) && Load(Counter("A"), Returned().snapshot, Returned().wal).Ok?
    ensures var wal := Returned().wal;
            var c := ContextOf(op, (), 3, Load(Counter("A"), Returned().snapshot, wal).value.0.operations);
      && c.complete && c.concurrent == [(3, wal[2].op)]
      && Between(OpsOf(wal), 1, 3) == [(2, wal[1].op), (3, wal[2].op)]
  {
    ReturnedLoads();
    ReturnedContext(op);
  }

  lemma {:induction false} ReturnedLoads()
    ensures StorageOK(Counter("A"), Era(2, 5), Returned())
    ensures var loaded := Load(Counter("A"), Returned().snapshot, Returned().wal);
      loaded.Ok? && loaded.value.0.operations == Under(Returned().wal, "A")
  {
    assert Truth(Counter("A"), Era(2, 5), Returned().wal, 2) == 5;
    LoadIsExact(Counter("A"), Era(2, 5), Returned(), Returned().wal);
  }

  lemma {:induction false} ReturnedContext(op: Operation)
    requires op.baseVersion == 1
    ensures var wal := Returned().wal;
            var c := ContextOf(op, (), 3, Under(wal, "A"));
      && c.complete && c.concurrent == [(3, wal[2].op)]
      && Between(OpsOf(wal), 1, 3) == [(2, wal[1].op), (3, wal[2].op)]
  {
    var wal := Returned().wal;
    UnderA();
    SortedAlready(Under(wal, "A"));
    OnlyLast((1, wal[0].op), (3, wal[2].op), 1);
    assert OpsOf(wal)[1] == wal[1].op && OpsOf(wal)[2] == wal[2].op;
  }

  // ---- along runs ----

  ghost predicate HistoryOK<S, P>(st: Storage<S, P>, s: Session<S, P>) {
    SuffixOf(s.operations, OpsOf(st.wal), |st.wal|)
  }

  /** What processing can do to log and history: nothing, or one more record under the pack's schema. */
  lemma {:induction false} ProcessAppends<S, P>(pack: Pack<S, P>, maxGap: nat, interval: nat, s: Session<S, P>, st: Storage<S, P>, op: Operation, f: Faults)
    requires interval > 0
    ensures var (t, su, _) := ProcessOp(pack, maxGap, interval, s, st, op, f);
      || (su.wal == st.wal && t.operations == s.operations)
      || (op.schemaVersion == pack.schema && t.operations == s.operations + [(s.version + 1, op)]
          && exists patches :: Extends(st.wal, su.wal, s.version, op, patches))
  {
    var (t, su, _) := ProcessOp(pack, maxGap, interval, s, st, op, f);
    var prepared := Prepare(pack, maxGap, op, s.state, s.version, s.operations);
    if prepared.Ready? && su.wal != st.wal { assert Extends(st.wal, su.wal, s.version, op, prepared.patches); }
  }

  predicate Extends<P(==)>(wal: seq<Record<P>>, longer: seq<Record<P>>, v: nat, op: Operation, patches: P) {
    longer == wal + [Record(v + 1, op, patches)]
  }

  lemma {:induction false} ProcessKeepsHistory<S, P>(d: Domain<S, P>, era: Era<S>, pack: Pack<S, P>, maxGap: nat, interval: nat, s: Session<S, P>, st: Storage<S, P>, op: Operation, f: Faults)
    requires interval > 0 && pack.schema == d.schema && s.version == |st.wal| && HistoryOK(st, s)
    requires UpwardClosed(st.wal, d.schema)
    ensures var (t, su, _) := ProcessOp(pack, maxGap, interval, s, st, op, f); HistoryOK(su, t) && UpwardClosed(su.wal, d.schema)
  {
    var (t, su, _) := ProcessOp(pack, maxGap, interval, s, st, op, f);
    ProcessAppends(pack, maxGap, interval, s, st, op, f);
    if su.wal != st.wal || t.operations != s.operations {
      var patches :| Extends(st.wal, su.wal, s.version, op, patches);
      AppendedHistory(st.wal, Record(s.version + 1, op, patches), s.operations, d.schema);
    }
  }

  lemma {:induction false} AppendedHistory<P>(wal: seq<Record<P>>, r: Record<P>, recent: seq<Versioned>, schema: string)
    requires r.version == |wal| + 1 && r.op.schemaVersion == schema && UpwardClosed(wal, schema) && SuffixOf(recent, OpsOf(wal), |wal|)
    ensures UpwardClosed(wal + [r], schema) && SuffixOf(recent + [(r.version, r.op)], OpsOf(wal + [r]), |wal| + 1)
  {
    assert (wal + [r])[..|wal|] == wal;
    ClosedGrows(wal, wal + [r], schema);
    Lengthened(recent, OpsOf(wal), r.op, OpsOf(wal + [r]));
  }

  lemma {:induction false} Lengthened(recent: seq<Versioned>, log: seq<Operation>, op: Operation, longer: seq<Operation>)
    requires SuffixOf(recent, log, |log|) && longer == log + [op]
    ensures SuffixOf(recent + [(|log| + 1, op)], longer, |longer|)
  {
    var more := recent + [(|log| + 1, op)];
    forall i | 0 <= i < |more| ensures more[i] == (|longer| - |more| + 1 + i, longer[|longer| - |more| + i]) {
      if i < |recent| { assert more[i] == recent[i]; }
    }
  }

  /** The live session's history is a suffix of the log, and no schema version has returned. */
  ghost predicate HistoriesOK<S, P>(d: Domain<S, P>, w: World<S, P>) {
    UpwardClosed(w.storage.wal, d.schema) && (w.live.Some? ==> HistoryOK(w.storage, w.live.value))
  }

  lemma {:induction false} StepKeepsHistory<S, P>(d: Domain<S, P>, era: Era<S>, pack: Pack<S, P>, maxGap: nat, interval: nat, w: World<S, P>, a: Action<P>)
    requires interval > 0 && pack.schema == d.schema && WorldOK(d, era, w) && Enabled(w, a) && HistoriesOK(d, w)
    ensures HistoriesOK(d, Next(d, pack, maxGap, interval, w, a))
  {
    match a
    case Activates(rows) =>
      LoadIsExact(d, era, w.storage, rows);
      ReloadedHistoryIsSuffix(w.storage.wal, d.schema);
    case Submits(op, f) => ProcessKeepsHistory(d, era, pack, maxGap, interval, w.live.value, w.storage, op, f);
    case CapturesSave =>
    case SaveArrives(_) =>
    case Vanishes =>
  }

  /**
   * If no schema version has returned when the era begins, then at any point of any run the history of the live
   * session, and that of one rebuilt now, make `historyComplete` tell the truth for every operation.
   */
  lemma {:induction false} HistoryStaysExact<S, P>(d: Domain<S, P>, era: Era<S>, pack: Pack<S, P>, maxGap: nat, interval: nat,
                                                  worlds: seq<World<S, P>>, actions: seq<Action<P>>, n: nat, rows: seq<Record<P>>)
    requires interval > 0 && pack.schema == d.schema && Run(d, pack, maxGap, interval, worlds, actions) && n <= |actions|
    requires WorldOK(d, era, worlds[0]) && HistoriesOK(d, worlds[0]) && forall s: S, p: P :: Agree(d, pack, s, p)
    requires multiset(rows) == multiset(worlds[n].storage.wal)
    ensures HistoriesOK(d, worlds[n]) && Load(d, worlds[n].storage.snapshot, rows).Ok?
    ensures var log, rebuilt := OpsOf(worlds[n].storage.wal), Load(d, worlds[n].storage.snapshot, rows).value.0;
      && AlwaysExact(log, |log|, rebuilt.operations)
      && (worlds[n].live.Some? ==> AlwaysExact(log, |log|, worlds[n].live.value.operations))
    decreases n
  {
    EvictionIsInvisible(d, era, pack, maxGap, interval, worlds, actions, n, rows);
    if n > 0 {
      EvictionIsInvisible(d, era, pack, maxGap, interval, worlds, actions, n - 1, worlds[n - 1].storage.wal);
      HistoryStaysExact(d, era, pack, maxGap, interval, worlds, actions, n - 1, worlds[n - 1].storage.wal);
      StepKeepsHistory(d, era, pack, maxGap, interval, worlds[n - 1], actions[n - 1]);
    }
    HistoriesAreExact(d, era, worlds[n], rows);
  }

  lemma {:induction false} HistoriesAreExact<S, P>(d: Domain<S, P>, era: Era<S>, w: World<S, P>, rows: seq<Record<P>>)
    requires WorldOK(d, era, w) && HistoriesOK(d, w) && multiset(rows) == multiset(w.storage.wal)
    ensures Load(d, w.storage.snapshot, rows).Ok?
    ensures var log := OpsOf(w.storage.wal);
      && AlwaysExact(log, |log|, Load(d, w.storage.snapshot, rows).value.0.operations)
      && (w.live.Some? ==> AlwaysExact(log, |log|, w.live.value.operations))
  {
    var log := OpsOf(w.storage.wal);
    LoadIsExact(d, era, w.storage, rows);
    ReloadedHistoryIsExact(w.storage.wal, d.schema);
    if w.live.Some? { SuffixIsExact(log, |log|, w.live.value.operations); }
  }

  /** And if one has returned, every session rebuilt in the era misleads some operation. */
  lemma {:induction false} ReturnedSchemaStays<S, P>(d: Domain<S, P>, era: Era<S>, st: Storage<S, P>, longer: Storage<S, P>, rows: seq<Record<P>>)
    requires StorageOK(d, era, st) && StorageOK(d, era, longer) && st.wal <= longer.wal && !UpwardClosed(st.wal, d.schema)
    requires multiset(rows) == multiset(longer.wal)
    ensures Load(d, longer.snapshot, rows).Ok?
    ensures !AlwaysExact(OpsOf(longer.wal), |longer.wal|, Load(d, longer.snapshot, rows).value.0.operations)
  {
    LoadIsExact(d, era, longer, rows);
    ReloadedHistoryIsExact(longer.wal, d.schema);
    var i, j :| 0 <= i <= j < |st.wal| && st.wal[i].op.schemaVersion == d.schema && st.wal[j].op.schemaVersion != d.schema;
    assert longer.wal[i] == st.wal[i] && longer.wal[j] == st.wal[j];
  }
}
