/** A run after which the snapshot row at the head pointer carries the schema version of a finished era. */
module SchemaLabels {
  import opened Results
  import opened Json
  import opened CommitStore
  import opened RoomWorker
  import opened CommitLog

  /** A counter: a patch is the amount added, and migration keeps the amount. */
  function Counter(): Domain<int, int> {
    Domain((s: int, p: int) => s + p, (from: string, s: int, to: string) => s)
  }

  function Op(id: string): Operation { Operation(id, "actor", 0, "A", Null) }

  function Row(id: string): WalRow<int> { WalRow(Op(id), 1, id) }

  /** The last state of the run of `actions` from `s`, when each of them is enabled in turn. */
  function RunFrom(s: System<int, int>, actions: seq<Action<int, int>>): Option<System<int, int>>
    decreases |actions|
  {
    if actions == [] then Some(s)
    else if |s.h.eras| > 0 && Enabled(s, actions[0]) then RunFrom(Next(Counter(), s, actions[0]), actions[1..])
    else None
  }

  lemma {:induction false} RunFromAppend(s: System<int, int>, a: seq<Action<int, int>>, b: seq<Action<int, int>>)
    requires RunFrom(s, a).Some?
    ensures RunFrom(s, a + b) == RunFrom(RunFrom(s, a).value, b)
    decreases |a|
  {
    if a == [] { assert a + b == b; }
    else {
      assert (a + b)[1..] == a[1..] + b;
      RunFromAppend(Next(Counter(), s, a[0]), a[1..], b);
    }
  }

  lemma {:induction false} RunOf(s: System<int, int>, actions: seq<Action<int, int>>) returns (states: seq<System<int, int>>)
    requires RunFrom(s, actions).Some?
    ensures Run(Counter(), states, actions) && states[0] == s && states[|actions|] == RunFrom(s, actions).value
    decreases |actions|
  {
    if actions == [] { return [s]; }
    var rest := RunOf(Next(Counter(), s, actions[0]), actions[1..]);
    RunCons(s, actions, rest);
    return [s] + rest;
  }

  lemma {:induction false} RunCons(s: System<int, int>, actions: seq<Action<int, int>>, rest: seq<System<int, int>>)
    requires actions != [] && |s.h.eras| > 0 && Enabled(s, actions[0])
    requires Run(Counter(), rest, actions[1..]) && rest[0] == Next(Counter(), s, actions[0])
    ensures Run(Counter(), [s] + rest, actions)
  {
    var states := [s] + rest;
    assert |states| == |actions| + 1;
    forall i {:trigger actions[i]} | 0 <= i < |actions| ensures Taken(Counter(), states[i], actions[i], states[i + 1]) {
      if i > 0 { assert Taken(Counter(), rest[i - 1], actions[1..][i - 1], rest[i]); }
    }
  }

  lemma {:induction false} OneStep(s: System<int, int>, a: Action<int, int>, t: System<int, int>)
    requires |s.h.eras| > 0 && Enabled(s, a) && Next(Counter(), s, a) == t
    ensures RunFrom(s, [a]) == Some(t)
  {
    assert [a][1..] == [];
  }

  lemma {:induction false} TwoSteps(s: System<int, int>, a: Action<int, int>, t: System<int, int>, b: Action<int, int>, u: System<int, int>)
    requires |s.h.eras| > 0 && Enabled(s, a) && Next(Counter(), s, a) == t
    requires |t.h.eras| > 0 && Enabled(t, b) && Next(Counter(), t, b) == u
    ensures RunFrom(s, [a, b]) == Some(u)
  {
    OneStep(s, a, t);
    OneStep(t, b, u);
    RunFromAppend(s, [a], [b]);
    assert [a] + [b] == [a, b];
  }

  lemma {:induction false} Joined(s: System<int, int>, a: seq<Action<int, int>>, t: System<int, int>, b: seq<Action<int, int>>, u: System<int, int>)
    requires RunFrom(s, a) == Some(t) && RunFrom(t, b) == Some(u)
    ensures RunFrom(s, a + b) == Some(u)
  {
    RunFromAppend(s, a, b);
  }

  // ---- the states on the way ----

  function X(): CommitRequest<int> { CommitRequest(1, "a", 0, Op("x"), 1, "x") }
  function Y(): CommitRequest<int> { CommitRequest(1, "a", 0, Op("y"), 1, "y") }
  function Z(): CommitRequest<int> { CommitRequest(2, "b", 1, Op("z"), 1, "z") }

  function Receipt(id: string, v: nat): ReceiptRow<int> { ReceiptRow(id, Accepted(id, v, 1), 0) }

  function Sent(id: string, n: nat): OutboxRow<int> { OutboxRow(n, Event(id, "actor", n + 1, 1), None, None, None) }

  function Room1(call: Call<int, int>): Session<int, int> { Warm("a", Image("A", 0, 0, [], 0), call) }

  function Recent2(): seq<(nat, Operation)> { [(2, Op("z"))] }

  /** Version 0, owned by worker a, whose room is `w`. */
  function AtZero(w: Session<int, int>, commits: seq<CommitRequest<int>>): System<int, int> {
    System(Db(Some(Head(0, 1, Some("a"), "A", 0)), map[0 := SnapshotRow("A", 0)], map[], map[], [], 0, {}),
           History([Era("A", 0, 0)], [], [], 0), map[1 := w], commits, [])
  }

  /** Version 1, still under schema A. */
  function AtOne(owner: Option<string>, epoch: nat, sessions: map<nat, Session<int, int>>, commits: seq<CommitRequest<int>>): System<int, int> {
    System(Db(Some(Head(1, epoch, owner, "A", 0)), map[0 := SnapshotRow("A", 0)], map[1 := Row("x")], map["x" := Receipt("x", 1)], [Sent("x", 0)], 1, {}),
           History([Era("A", 0, 0)], [Row("x")], [1], 0), sessions, commits, [])
  }

  /** Version 1, migrated to schema B by worker b. */
  function Migrated(b: Session<int, int>, commits: seq<CommitRequest<int>>): System<int, int> {
    System(Db(Some(Head(1, 2, Some("b"), "B", 1)), map[0 := SnapshotRow("A", 0), 1 := SnapshotRow("B", 1)], map[1 := Row("x")],
              map["x" := Receipt("x", 1)], [Sent("x", 0)], 1, {(1, "B")}),
           History([Era("A", 0, 0), Era("B", 1, 1)], [Row("x")], [1], 0), map[1 := Room1(Stale), 2 := b], commits, [])
  }

  /** Version 2, under schema B. */
  function AtTwo(snapshots: map<nat, SnapshotRow<int>>, pointer: nat, a: Session<int, int>, b: Session<int, int>, saves: seq<Save<int>>): System<int, int> {
    System(Db(Some(Head(2, 2, Some("b"), "B", pointer)), snapshots, map[1 := Row("x"), 2 := Row("z")],
              map["x" := Receipt("x", 1), "z" := Receipt("z", 2)], [Sent("x", 0), Sent("z", 1)], 2, {(1, "B")}),
           History([Era("A", 0, 0), Era("B", 1, 1)], [Row("x"), Row("z")], [1, 2], 0),
           map[1 := a, 2 := b], [X(), Y(), Z()], saves)
  }

  function Snapshots1(): map<nat, SnapshotRow<int>> { map[0 := SnapshotRow("A", 0), 1 := SnapshotRow("B", 1)] }

  function Owner(): Session<int, int> { Warm("b", Image("B", 2, 2, Recent2(), 1), Idle) }

  /** The fenced room of worker a after its reload: the state is the one of schema B, the label is not. */
  function Mislabelled(): Session<int, int> { Warm("a", Image("A", 2, 2, Recent2(), 1), Idle) }

  // ---- the run ----

  lemma {:induction false} Activates()
    ensures RunFrom(Start("A", 0), [Claim("a"), Load(1)] + [Ready(1)]) == Some(AtZero(Room1(Idle), []))
  {
    var s0 := Start<int, int>("A", 0);
    TwoSteps(s0, Claim("a"), AtZero(Claimed("a"), []), Load(1), AtZero(Activating("a", Image("A", 0, 0, [], 0)), []));
    OneStep(AtZero(Activating("a", Image("A", 0, 0, [], 0)), []), Ready(1), AtZero(Room1(Idle), []));
    Joined(s0, [Claim("a"), Load(1)], AtZero(Activating("a", Image("A", 0, 0, [], 0)), []), [Ready(1)], AtZero(Room1(Idle), []));
  }

  /** The commit of x takes effect, but its reply is lost. */
  lemma {:induction false} LosesReply()
    ensures RunFrom(AtZero(Room1(Idle), []), [Prepare(1, Op("x"), 1, "x"), DeliverCommit(0, false, 0)] + [LoseReply(1)])
         == Some(AtOne(Some("a"), 1, map[1 := Room1(Idle)], [X()]))
  {
    var s1, s2 := AtZero(Room1(Waiting(X(), 1)), [X()]), AtOne(Some("a"), 1, map[1 := Room1(Waiting(X(), 1))], [X()]);
    TwoSteps(AtZero(Room1(Idle), []), Prepare(1, Op("x"), 1, "x"), s1, DeliverCommit(0, false, 0), s2);
    OneStep(s2, LoseReply(1), AtOne(Some("a"), 1, map[1 := Room1(Idle)], [X()]));
    Joined(AtZero(Room1(Idle), []), [Prepare(1, Op("x"), 1, "x"), DeliverCommit(0, false, 0)], s2, [LoseReply(1)],
           AtOne(Some("a"), 1, map[1 := Room1(Idle)], [X()]));
  }

  /** The next commit is refused, because the room is one version behind. */
  lemma {:induction false} Conflicts()
    ensures RunFrom(AtOne(Some("a"), 1, map[1 := Room1(Idle)], [X()]), [Prepare(1, Op("y"), 1, "y"), DeliverCommit(1, true, 0)] + [ReceiveReply(1)])
         == Some(AtOne(Some("a"), 1, map[1 := Room1(Stale)], [X(), Y()]))
  {
    var s0 := AtOne(Some("a"), 1, map[1 := Room1(Idle)], [X()]);
    var s1 := AtOne(Some("a"), 1, map[1 := Room1(Waiting(Y(), 1))], [X(), Y()]);
    var s2 := AtOne(Some("a"), 1, map[1 := Room1(Answered(Y(), 1, VersionConflict(1)))], [X(), Y()]);
    var s3 := AtOne(Some("a"), 1, map[1 := Room1(Stale)], [X(), Y()]);
    TwoSteps(s0, Prepare(1, Op("y"), 1, "y"), s1, DeliverCommit(1, true, 0), s2);
    OneStep(s2, ReceiveReply(1), s3);
    Joined(s0, [Prepare(1, Op("y"), 1, "y"), DeliverCommit(1, true, 0)], s2, [ReceiveReply(1)], s3);
  }

  /** Worker b takes over and migrates. */
  lemma {:induction false} TakesOver()
    ensures RunFrom(AtOne(Some("a"), 1, map[1 := Room1(Stale)], [X(), Y()]), [Claim("b"), Load(2)] + [Migrate(2, "B", true)])
         == Some(Migrated(Warm("b", Image("B", 1, 1, [], 1), Idle), [X(), Y()]))
  {
    var s0 := AtOne(Some("a"), 1, map[1 := Room1(Stale)], [X(), Y()]);
    var s1 := AtOne(Some("b"), 2, map[1 := Room1(Stale), 2 := Claimed("b")], [X(), Y()]);
    var loaded := Activating("b", Image("A", 1, 1, [(1, Op("x"))], 0));
    var s2 := AtOne(Some("b"), 2, map[1 := Room1(Stale), 2 := loaded], [X(), Y()]);
    var s3 := Migrated(Warm("b", Image("B", 1, 1, [], 1), Idle), [X(), Y()]);
    LoadsOne(s1);
    assert Next(Counter(), s1, Load(2)) == s2;
    TwoSteps(s0, Claim("b"), s1, Load(2), s2);
    assert Next(Counter(), s2, Migrate(2, "B", true)) == s3;
    OneStep(s2, Migrate(2, "B", true), s3);
    Joined(s0, [Claim("b"), Load(2)], s2, [Migrate(2, "B", true)], s3);
  }

  lemma {:induction false} LoadsOne(s: System<int, int>)
    requires s.db.head == Some(Head(1, 2, Some("b"), "A", 0)) && s.db.wal == map[1 := Row("x")]
    requires s.db.snapshots == map[0 := SnapshotRow("A", 0)]
    ensures LoadRoom(s.db).Ok? && Activated(Counter().apply, LoadRoom(s.db).value, 0) == Image("A", 1, 1, [(1, Op("x"))], 0)
  {
    var rows := RowsAfter(s.db.wal, 0, 1);
    assert rows == [(1, Row("x"))] && rows[1..] == [];
    assert Fold(Counter().apply, 0, rows) == Fold(Counter().apply, 1, []);
    assert Operations(rows) == [(1, Op("x"))];
  }

  lemma {:induction false} LoadsTwo(s: System<int, int>, image: Image<int>)
    requires s.db.head == Some(Head(2, 2, Some("b"), "B", 1)) && s.db.wal == map[1 := Row("x"), 2 := Row("z")]
    requires s.db.snapshots == Snapshots1() && image.schema == "A"
    ensures LoadRoom(s.db).Ok? && Reloaded(Counter().apply, image, LoadRoom(s.db).value, 1) == Image("A", 2, 2, Recent2(), 1)
  {
    var rows := RowsAfter(s.db.wal, 1, 2);
    assert rows == [(2, Row("z"))] && rows[1..] == [];
    assert Fold(Counter().apply, 1, rows) == Fold(Counter().apply, 2, []);
    assert Operations(rows) == Recent2();
  }

  lemma {:induction false} CommitOfZ()
    ensures var image := Image("B", 1, 1, [], 1);
            var s1 := Migrated(Warm("b", image, Waiting(Z(), 2)), [X(), Y(), Z()]);
            var s2 := AtTwo(Snapshots1(), 1, Room1(Stale), Warm("b", image, Answered(Z(), 2, Committed(Accepted("z", 2, 1)))), []);
      Enabled(s1, DeliverCommit(2, true, 0)) && Next(Counter(), s1, DeliverCommit(2, true, 0)) == s2
  {
    var image := Image("B", 1, 1, [], 1);
    var s1 := Migrated(Warm("b", image, Waiting(Z(), 2)), [X(), Y(), Z()]);
    var s2 := AtTwo(Snapshots1(), 1, Room1(Stale), Warm("b", image, Answered(Z(), 2, Committed(Accepted("z", 2, 1)))), []);
    assert "z"[0] != "x"[0];
    var db := Commit(s1.db, Z(), 0).0;
    assert WalAccepts(s1.db.wal, 2, "z");
    assert db.wal == s2.db.wal && db.receipts == s2.db.receipts && db.outbox == s2.db.outbox;
    assert Commit(s1.db, Z(), 0) == (s2.db, Committed(Accepted("z", 2, 1)));
  }

  /** Worker b commits z under schema B. */
  lemma {:induction false} CommitsUnderB()
    ensures RunFrom(Migrated(Warm("b", Image("B", 1, 1, [], 1), Idle), [X(), Y()]), [Prepare(2, Op("z"), 1, "z"), DeliverCommit(2, true, 0)] + [ReceiveReply(2)])
         == Some(AtTwo(Snapshots1(), 1, Room1(Stale), Owner(), []))
  {
    var image := Image("B", 1, 1, [], 1);
    var s0, s1 := Migrated(Warm("b", image, Idle), [X(), Y()]), Migrated(Warm("b", image, Waiting(Z(), 2)), [X(), Y(), Z()]);
    var s2 := AtTwo(Snapshots1(), 1, Room1(Stale), Warm("b", image, Answered(Z(), 2, Committed(Accepted("z", 2, 1)))), []);
    var s3 := AtTwo(Snapshots1(), 1, Room1(Stale), Owner(), []);
    CommitOfZ();
    TwoSteps(s0, Prepare(2, Op("z"), 1, "z"), s1, DeliverCommit(2, true, 0), s2);
    assert Advanced(image, 2, Op("z"), 2) == s3.sessions[2].image by { assert image.recent + [(2, Op("z"))] == Recent2(); }
    OneStep(s2, ReceiveReply(2), s3);
    Joined(s0, [Prepare(2, Op("z"), 1, "z"), DeliverCommit(2, true, 0)], s2, [ReceiveReply(2)], s3);
  }

  function SaveA(): Save<int> { Save(2, "A", 2, 1) }
  function SaveB(): Save<int> { Save(2, "B", 2, 1) }

  /** Worker a finishes its reload and evicts the room, saving it under its old schema version. */
  lemma {:induction false} ReloadsAndSaves()
    ensures RunFrom(AtTwo(Snapshots1(), 1, Room1(Stale), Owner(), []), [Reload(1), CaptureSave(1)] + [DeliverSave(0)])
         == Some(AtTwo(Snapshots1()[2 := SnapshotRow("A", 2)], 1, Mislabelled(), Owner(), [SaveA()]))
  {
    var s0, s1 := AtTwo(Snapshots1(), 1, Room1(Stale), Owner(), []), AtTwo(Snapshots1(), 1, Mislabelled(), Owner(), []);
    var s2 := AtTwo(Snapshots1(), 1, Mislabelled(), Owner(), [SaveA()]);
    var s3 := AtTwo(Snapshots1()[2 := SnapshotRow("A", 2)], 1, Mislabelled(), Owner(), [SaveA()]);
    LoadsTwo(s0, s0.sessions[1].image);
    TwoSteps(s0, Reload(1), s1, CaptureSave(1), s2);
    OneStep(s2, DeliverSave(0), s3);
    Joined(s0, [Reload(1), CaptureSave(1)], s2, [DeliverSave(0)], s3);
  }

  /** Worker b saves the same version: the row stays as it is, and the pointer moves to it. */
  lemma {:induction false} OwnerSaves()
    ensures RunFrom(AtTwo(Snapshots1()[2 := SnapshotRow("A", 2)], 1, Mislabelled(), Owner(), [SaveA()]), [CaptureSave(2), DeliverSave(1)])
         == Some(AtTwo(Snapshots1()[2 := SnapshotRow("A", 2)], 2, Mislabelled(), Owner(), [SaveA(), SaveB()]))
  {
    var rows := Snapshots1()[2 := SnapshotRow("A", 2)];
    TwoSteps(AtTwo(rows, 1, Mislabelled(), Owner(), [SaveA()]), CaptureSave(2),
             AtTwo(rows, 1, Mislabelled(), Owner(), [SaveA(), SaveB()]), DeliverSave(1),
             AtTwo(rows, 2, Mislabelled(), Owner(), [SaveA(), SaveB()]));
  }

  /** A reachable state whose pointer row is labelled A although the document has migrated to B. */
  lemma {:induction false} StaleReloadMislabels() returns (states: seq<System<int, int>>, actions: seq<Action<int, int>>)
    ensures Run(Counter(), states, actions) && states[0] == Start("A", 0)
    ensures var db := states[|actions|].db;
      && db.head.Some? && db.head.value.schema == "B"
      && db.head.value.pointer in db.snapshots && db.snapshots[db.head.value.pointer].schema == "A"
  {
    var first := [Claim("a"), Load(1)] + [Ready(1)];
    var second := [Prepare(1, Op("x"), 1, "x"), DeliverCommit(0, false, 0)] + [LoseReply(1)];
    var third := [Prepare(1, Op("y"), 1, "y"), DeliverCommit(1, true, 0)] + [ReceiveReply(1)];
    var fourth := [Claim("b"), Load(2)] + [Migrate(2, "B", true)];
    var fifth := [Prepare(2, Op("z"), 1, "z"), DeliverCommit(2, true, 0)] + [ReceiveReply(2)];
    var sixth := [Reload(1), CaptureSave(1)] + [DeliverSave(0)];
    var seventh := [CaptureSave(2), DeliverSave(1)];
    Activates();
    LosesReply();
    Conflicts();
    TakesOver();
    CommitsUnderB();
    ReloadsAndSaves();
    OwnerSaves();
    var s := Start<int, int>("A", 0);
    RunFromAppend(s, first, second);
    RunFromAppend(s, first + second, third);
    RunFromAppend(s, first + second + third, fourth);
    RunFromAppend(s, first + second + third + fourth, fifth);
    RunFromAppend(s, first + second + third + fourth + fifth, sixth);
    RunFromAppend(s, first + second + third + fourth + fifth + sixth, seventh);
    actions := first + second + third + fourth + fifth + sixth + seventh;
    states := RunOf(s, actions);
  }

  // ---- a migration that the schema history refuses ----

  /** Version 0 in its latest era, with a room on it for each claim so far. */
  function AtStart(owner: Option<string>, epoch: nat, eras: seq<Era<int>>, keys: set<(nat, string)>, sessions: map<nat, Session<int, int>>): System<int, int>
    requires eras != []
  {
    var schema := eras[|eras| - 1].schema;
    System(Db(Some(Head(0, epoch, owner, schema, 0)), map[0 := SnapshotRow(schema, 0)], map[], map[], [], 0, keys),
           History(eras, [], [], 0), sessions, [], [])
  }

  function Empty(schema: string, era: nat): Image<int> { Image(schema, 0, 0, [], era) }

  /** A worker takes over and migrates version 0 to a schema that it has not been migrated to. */
  lemma {:induction false} MigratesAgain(owner: Option<string>, epoch: nat, eras: seq<Era<int>>, keys: set<(nat, string)>, sessions: map<nat, Session<int, int>>, w: string, to: string)
    requires eras != [] && eras[|eras| - 1] == Era(eras[|eras| - 1].schema, 0, 0) && eras[|eras| - 1].schema != to && (0, to) !in keys
    ensures RunFrom(AtStart(owner, epoch, eras, keys, sessions), [Claim(w), Load(epoch + 1)] + [Migrate(epoch + 1, to, true)])
         == Some(AtStart(Some(w), epoch + 1, eras + [Era(to, 0, 0)], keys + {(0, to)}, sessions[epoch + 1 := Warm(w, Empty(to, |eras|), Idle)]))
  {
    var s0, s2 := AtStart(owner, epoch, eras, keys, sessions), Taken1(epoch, eras, keys, sessions, w);
    Takes(owner, epoch, eras, keys, sessions, w);
    var s3 := AtStart(Some(w), epoch + 1, eras + [Era(to, 0, 0)], keys + {(0, to)}, sessions[epoch + 1 := Warm(w, Empty(to, |eras|), Idle)]);
    assert Next(Counter(), s2, Migrate(epoch + 1, to, true)).sessions == s3.sessions;
    assert Next(Counter(), s2, Migrate(epoch + 1, to, true)).db == s3.db;
    OneStep(s2, Migrate(epoch + 1, to, true), s3);
    Joined(s0, [Claim(w), Load(epoch + 1)], s2, [Migrate(epoch + 1, to, true)], s3);
  }

  function Taken1(epoch: nat, eras: seq<Era<int>>, keys: set<(nat, string)>, sessions: map<nat, Session<int, int>>, w: string): System<int, int>
    requires eras != []
  {
    AtStart(Some(w), epoch + 1, eras, keys, sessions[epoch + 1 := Activating(w, Empty(eras[|eras| - 1].schema, |eras| - 1))])
  }

  lemma {:induction false} Takes(owner: Option<string>, epoch: nat, eras: seq<Era<int>>, keys: set<(nat, string)>, sessions: map<nat, Session<int, int>>, w: string)
    requires eras != []
    ensures RunFrom(AtStart(owner, epoch, eras, keys, sessions), [Claim(w), Load(epoch + 1)]) == Some(Taken1(epoch, eras, keys, sessions, w))
  {
    var s0, s1 := AtStart(owner, epoch, eras, keys, sessions), AtStart(Some(w), epoch + 1, eras, keys, sessions[epoch + 1 := Claimed(w)]);
    var s2 := Taken1(epoch, eras, keys, sessions, w);
    assert Next(Counter(), s0, Claim(w)).sessions == s1.sessions && Next(Counter(), s0, Claim(w)).db == s1.db;
    assert LoadRoom(s1.db) == Ok(Loaded(eras[|eras| - 1].schema, 0, 0, []));
    assert Operations<int>([]) == [];
    assert Next(Counter(), s1, Load(epoch + 1)).sessions == s2.sessions;
    TwoSteps(s0, Claim(w), s1, Load(epoch + 1), s2);
  }

  /** Migrating A to B, back to A and to B again, all at one version: the last one throws, and changes nothing. */
  lemma {:induction false} ThirdMigrationThrows() returns (states: seq<System<int, int>>, actions: seq<Action<int, int>>)
    ensures Run(Counter(), states, actions) && states[0] == Start("A", 0)
    ensures var s := states[|actions|];
      && Enabled(s, Migrate(3, "B", true)) && s.db.head.Some? && s.db.head.value.epoch == 3
      && MigrateDocument(s.db, MigrationOf(Counter(), 3, "c", s.sessions[3].image, "B")) == (s.db, MigrationThrew)
  {
    var first, second := [Claim("a"), Load(1)] + [Migrate(1, "B", true)], [Claim("b"), Load(2)] + [Migrate(2, "A", true)];
    ThereAndBack(first, second);
    Takes(Some("b"), 2, ThreeEras(), {(0, "B"), (0, "A")}, TwoRooms(), "c");
    Joined(Start("A", 0), first + second, AtStart(Some("b"), 2, ThreeEras(), {(0, "B"), (0, "A")}, TwoRooms()),
           [Claim("c"), Load(3)], Taken1(2, ThreeEras(), {(0, "B"), (0, "A")}, TwoRooms(), "c"));
    actions := first + second + [Claim("c"), Load(3)];
    states := RunOf(Start("A", 0), actions);
  }

  function ThreeEras(): seq<Era<int>> { [Era("A", 0, 0), Era("B", 0, 0), Era("A", 0, 0)] }

  function TwoRooms(): map<nat, Session<int, int>> {
    map[1 := Warm("a", Empty("B", 1), Idle), 2 := Warm("b", Empty("A", 2), Idle)]
  }

  lemma {:induction false} ThereAndBack(first: seq<Action<int, int>>, second: seq<Action<int, int>>)
    requires first == [Claim("a"), Load(1)] + [Migrate(1, "B", true)] && second == [Claim("b"), Load(2)] + [Migrate(2, "A", true)]
    ensures RunFrom(Start("A", 0), first + second) == Some(AtStart(Some("b"), 2, ThreeEras(), {(0, "B"), (0, "A")}, TwoRooms()))
  {
    var eras, eras2 := [Era("A", 0, 0)], [Era("A", 0, 0), Era("B", 0, 0)];
    var room := map[1 := Warm("a", Empty("B", 1), Idle)];
    var keys, none: set<(nat, string)> := {(0, "B")}, {};
    assert "A"[0] != "B"[0];
    assert AtStart(None, 0, eras, none, map[]) == Start("A", 0);
    assert eras + [Era("B", 0, 0)] == eras2 && none + {(0, "B")} == keys && map[][1 := Warm("a", Empty("B", 1), Idle)] == room;
    MigratesAgain(None, 0, eras, none, map[], "a", "B");
    assert eras2 + [Era("A", 0, 0)] == ThreeEras() && keys + {(0, "A")} == {(0, "B"), (0, "A")};
    assert room[2 := Warm("b", Empty("A", 2), Idle)] == TwoRooms();
    MigratesAgain(Some("a"), 1, eras2, keys, room, "b", "A");
    Joined(Start("A", 0), first, AtStart(Some("a"), 1, eras2, keys, room), second,
           AtStart(Some("b"), 2, ThreeEras(), {(0, "B"), (0, "A")}, TwoRooms()));
  }
}
