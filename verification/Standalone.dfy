/** `AuthoritativeDocumentSession`: a session over one document's snapshot and write-ahead log. */
module Standalone {
  import opened Results
  import opened Ordering
  import opened CommitStore
  import opened Pipeline

  datatype Record<+P> = Record(version: nat, op: Operation, patches: P)
  datatype Snap<+S> = Snap(version: nat, schema: string, state: S)

  datatype Storage<+S, +P> = Storage(snapshot: Option<Snap<S>>, wal: seq<Record<P>>)

  datatype Held<+P> = Taken(version: nat, patches: P) | Declined(version: nat, code: string)

  datatype Session<+S, +P> = Session(version: nat, state: S, operations: seq<Versioned>, results: map<string, Held<P>>)

  datatype Reply<+P> = Replied(outcome: Held<P>, duplicate: bool) | NeedsResync(version: nat)

  /** What `load` needs of the domain pack. */
  datatype Domain<!S, !P> = Domain(schema: string, initial: S, apply: (S, P) -> S, migrate: (string, S) -> Result<S>)

  // ---- load ----

  function ByVersion<P>(rows: seq<Record<P>>): seq<Record<P>> {
    SortBy(rows, (r: Record<P>) => r.version as real)
  }

  function Start<S, P>(d: Domain<S, P>, snapshot: Option<Snap<S>>): Session<S, P> {
    if snapshot.Some? then Session(snapshot.value.version, snapshot.value.state, [], map[])
    else Session(0, d.initial, [], map[])
  }

  /** `rows` is the log as the storage returned it, in whatever order. */
  function StoredSchema<S, P>(d: Domain<S, P>, snapshot: Option<Snap<S>>, rows: seq<Record<P>>): string {
    if snapshot.Some? then snapshot.value.schema else if rows != [] then rows[0].op.schemaVersion else d.schema
  }

  function Replayed<S, P>(d: Domain<S, P>, s: Session<S, P>, r: Record<P>): Session<S, P> {
    Session(
      if r.version > s.version then r.version else s.version,
      if r.version > s.version then d.apply(s.state, r.patches) else s.state,
      if r.op.schemaVersion == d.schema then s.operations + [(r.version, r.op)] else s.operations,
      s.results[r.op.operationId := Taken(r.version, r.patches)])
  }

  function Replay<S, P>(d: Domain<S, P>, strict: bool, schema: string, s: Session<S, P>, rows: seq<Record<P>>): Result<Session<S, P>>
    decreases |rows|
  {
    if rows == [] then Ok(s)
    else if strict && rows[0].op.schemaVersion != schema then Err("standalone WAL contains mixed schemas without a snapshot")
    else Replay(d, strict, schema, Replayed(d, s, rows[0]), rows[1..])
  }

  /** The session where the loop over the log ends, or stops. */
  function Reached<S, P>(d: Domain<S, P>, strict: bool, schema: string, s: Session<S, P>, rows: seq<Record<P>>): Session<S, P>
    decreases |rows|
  {
    if rows == [] || (strict && rows[0].op.schemaVersion != schema) then s
    else Reached(d, strict, schema, Replayed(d, s, rows[0]), rows[1..])
  }

  /**
   * One `load` on an object whose earlier loads left `old`: operations and results are added to what is there. The
   * session that it leaves, and the snapshot that a migration saves or the error.
   */
  function LoadOnto<S, P>(d: Domain<S, P>, snapshot: Option<Snap<S>>, rows: seq<Record<P>>, before: Session<S, P>, saveFails: bool)
    : (Session<S, P>, Result<Option<Snap<S>>>)
  {
    var schema, sorted := StoredSchema(d, snapshot, rows), ByVersion(rows);
    var start := Start(d, snapshot).(operations := before.operations, results := before.results);
    var s := Reached(d, snapshot.None?, schema, start, sorted);
    match Replay(d, snapshot.None?, schema, start, sorted)
    case Err(e) => (s, Err(e))
    case Ok(_) =>
      if schema == d.schema then (s, Ok(None))
      else
        match d.migrate(schema, s.state)
        case Err(e) => (s, Err(e))
        case Ok(state) =>
          var migrated := s.(state := state, operations := []);
          (migrated, if saveFails then Err("snapshot was not saved") else Ok(Some(Snap(s.version, d.schema, state))))
  }

  function New<S, P>(d: Domain<S, P>): Session<S, P> { Session(0, d.initial, [], map[]) }

  /** The session of a new object, and the snapshot that a migration saves. */
  function Load<S, P>(d: Domain<S, P>, snapshot: Option<Snap<S>>, rows: seq<Record<P>>): Result<(Session<S, P>, Option<Snap<S>>)> {
    var (s, r) := LoadOnto(d, snapshot, rows, New(d), false);
    match r case Err(e) => Err(e) case Ok(saved) => Ok((s, saved))
  }

  lemma {:induction false} ReplayReaches<S, P>(d: Domain<S, P>, strict: bool, schema: string, s: Session<S, P>, rows: seq<Record<P>>)
    ensures Replay(d, strict, schema, s, rows).Ok? ==> Replay(d, strict, schema, s, rows).value == Reached(d, strict, schema, s, rows)
    decreases |rows|
  {
    if rows != [] { ReplayReaches(d, strict, schema, Replayed(d, s, rows[0]), rows[1..]); }
  }

  // ---- process ----

  datatype Faults = Faults(appendFails: bool, saveFails: bool)

  function SnapOf<S, P>(schema: string, s: Session<S, P>): Snap<S> { Snap(s.version, schema, s.state) }

  function ProcessOp<S, P>(pack: Pack<S, P>, maxGap: nat, interval: nat, s: Session<S, P>, st: Storage<S, P>, op: Operation, f: Faults)
    : (Session<S, P>, Storage<S, P>, Reply<P>)
    requires interval > 0
  {
    if op.operationId in s.results then (s, st, Replied(s.results[op.operationId], true))
    else
      match Prepare(pack, maxGap, op, s.state, s.version, s.operations)
      case Resync(version, _) => (s, st, NeedsResync(version))
      case Refused(version, code) =>
        var no := Declined(version, code);
        (s.(results := s.results[op.operationId := no]), st, Replied(no, false))
      case Ready(_, patches, next) =>
        if f.appendFails then (s, st, Replied(Declined(s.version, "strategyFailure"), false))
        else (Advanced(s, op, patches, next), Appended(pack.schema, interval, Advanced(s, op, patches, next), st, op, patches, f),
              Replied(Taken(s.version + 1, patches), false))
  }

  function Advanced<S, P>(s: Session<S, P>, op: Operation, patches: P, next: S): Session<S, P> {
    var v := s.version + 1;
    Session(v, next, s.operations + [(v, op)], s.results[op.operationId := Taken(v, patches)])
  }

  /** The storage after the append and, at every `interval`th version, the save of the session's new snapshot. */
  function Appended<S, P>(schema: string, interval: nat, t: Session<S, P>, st: Storage<S, P>, op: Operation, patches: P, f: Faults): Storage<S, P>
    requires interval > 0
  {
    var appended := st.(wal := st.wal + [Record(t.version, op, patches)]);
    if t.version % interval == 0 && !f.saveFails then appended.(snapshot := Some(SnapOf(schema, t))) else appended
  }

  // ---- the objects ----

  class DocumentStorage<S, P> {
    var snapshot: Option<Snap<S>>
    var wal: seq<Record<P>>

    ghost function View(): Storage<S, P>
      reads this
    {
      Storage(snapshot, wal)
    }

    method AppendWal(r: Record<P>)
      modifies this
      ensures View() == Storage(old(snapshot), old(wal) + [r])
    {
      wal := wal + [r];
    }

    method SaveSnapshot(snap: Snap<S>)
      modifies this
      ensures View() == Storage(Some(snap), old(wal))
    {
      snapshot := Some(snap);
    }
  }

  class AuthoritativeDocumentSession<S, P> {
    const domain: Domain<S, P>
    const pack: Pack<S, P>
    const storage: DocumentStorage<S, P>
    var state: S
    var version: nat
    var operations: seq<Versioned>
    var results: map<string, Held<P>>

    ghost function View(): Session<S, P>
      reads this
    {
      Session(version, state, operations, results)
    }

    constructor (domain: Domain<S, P>, pack: Pack<S, P>, storage: DocumentStorage<S, P>)
      ensures View() == New(domain)
      ensures this.domain == domain && this.pack == pack && this.storage == storage
    {
      this.domain, this.pack, this.storage := domain, pack, storage;
      state, version, operations, results := domain.initial, 0, [], map[];
    }

    /** `rows` is what `loadWal` returned. The object may have been through a load that failed. */
    method LoadFrom(rows: seq<Record<P>>, saveFails: bool) returns (r: Result<()>)
      modifies this, storage
      ensures var (s, saved) := LoadOnto(domain, old(storage.snapshot), rows, old(View()), saveFails);
        && View() == s && (r.Ok? <==> saved.Ok?)
        && storage.View() == if saved.Ok? && saved.value.Some? then Storage(saved.value, old(storage.wal)) else old(storage.View())
    {
      var snapshot := storage.snapshot;
      state := if snapshot.Some? then snapshot.value.state else domain.initial;
      version := if snapshot.Some? then snapshot.value.version else 0;
      var schema := StoredSchema(domain, snapshot, rows);
      var sorted := ByVersion(rows);
      ghost var start := View();
      for i := 0 to |sorted|
        invariant storage.View() == old(storage.View())
        invariant Reached(domain, snapshot.None?, schema, View(), sorted[i..]) == Reached(domain, snapshot.None?, schema, start, sorted)
        invariant Replay(domain, snapshot.None?, schema, View(), sorted[i..]) == Replay(domain, snapshot.None?, schema, start, sorted)
      {
        assert sorted[i..][1..] == sorted[i + 1..];
        if snapshot.None? && sorted[i].op.schemaVersion != schema { return Err("standalone WAL contains mixed schemas without a snapshot"); }
        Take(sorted[i]);
      }
      if schema != domain.schema {
        var migrated := domain.migrate(schema, state);
        if migrated.Err? { return Err(migrated.message); }
        state, operations := migrated.value, [];
        if saveFails { return Err("snapshot was not saved"); }
        storage.SaveSnapshot(Snap(version, domain.schema, state));
      }
      return Ok(());
    }

    method Take(row: Record<P>)
      modifies this
      ensures View() == Replayed(domain, old(View()), row)
    {
      if row.version > version { state, version := domain.apply(state, row.patches), row.version; }
      if row.op.schemaVersion == domain.schema { operations := operations + [(row.version, row.op)]; }
      results := results[row.op.operationId := Taken(row.version, row.patches)];
    }

    method PersistSnapshot()
      modifies storage
      ensures storage.View() == old(storage.View()).(snapshot := Some(SnapOf(pack.schema, View())))
    {
      storage.SaveSnapshot(Snap(version, pack.schema, state));
    }

    method Accept(interval: nat, op: Operation, patches: P, next: S, f: Faults)
      requires interval > 0
      modifies this, storage
      ensures View() == Advanced(old(View()), op, patches, next)
      ensures storage.View() == Appended(pack.schema, interval, Advanced(old(View()), op, patches, next), old(storage.View()), op, patches, f)
    {
      storage.AppendWal(Record(version + 1, op, patches));
      state, version := next, version + 1;
      operations := operations + [(version, op)];
      results := results[op.operationId := Taken(version, patches)];
      if version % interval == 0 && !f.saveFails { PersistSnapshot(); }
    }

    method Process(maxGap: nat, interval: nat, op: Operation, f: Faults) returns (reply: Reply<P>)
      requires interval > 0
      modifies this, storage
      ensures (View(), storage.View(), reply) == ProcessOp(pack, maxGap, interval, old(View()), old(storage.View()), op, f)
    {
      if op.operationId in results { return Replied(results[op.operationId], true); }
      var prepared := Prepare(pack, maxGap, op, state, version, operations);
      match prepared
      case Resync(at, _) => return NeedsResync(at);
      case Refused(at, code) =>
        results := results[op.operationId := Declined(at, code)];
        return Replied(Declined(at, code), false);
      case Ready(_, patches, next) =>
        if f.appendFails { return Replied(Declined(version, "strategyFailure"), false); }
        Accept(interval, op, patches, next, f);
        return Replied(Taken(version, patches), false);
    }
  }
}
