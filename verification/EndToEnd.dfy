/** What the commit log hands to gateways and clients is what their own theorems ask for. */
module EndToEnd {
  import opened Results
  import opened CommitStore
  import CommitLog
  import CommitSafety
  import CommitAnswers
  import Client
  import ClientSafety
  import Gateway
  import GatewayStream

  /** The log of a document in its first schema era, as a client sees it. */
  function ServerOf<S, P>(d: CommitLog.Domain<S, P>, h: CommitLog.History<S, P>): ClientSafety.Server<S, P>
    requires |h.eras| > 0
  {
    ClientSafety.Server(d.apply, h.eras[0].state,
      seq(|h.log|, i requires 0 <= i < |h.log| => ClientSafety.Entry(h.log[i].op.operationId, h.log[i].patches)))
  }

  lemma {:induction false} TruthAgrees<S, P>(d: CommitLog.Domain<S, P>, h: CommitLog.History<S, P>, v: nat)
    requires |h.eras| > 0 && h.eras[0].start == 0 && v <= |h.log|
    ensures CommitLog.Truth(d.apply, h.eras[0], h.log, v) == ClientSafety.Truth(ServerOf(d, h), v)
    decreases v
  {
    if v > 0 { TruthAgrees(d, h, v - 1); }
  }

  /** A warm room's snapshot is honest, whether or not its worker still owns the document. */
  lemma {:induction false} SnapshotsAreHonest<S, P>(d: CommitLog.Domain<S, P>, s: CommitLog.System<S, P>, k: nat)
    requires CommitLog.Inv(d, s) && |s.h.eras| == 1 && CommitLog.IsWarm(s, k)
    ensures ClientSafety.Honest(ServerOf(d, s.h), Client.Snapshot(s.sessions[k].image.version, s.sessions[k].image.state))
  {
    CommitSafety.WarmRoomsAreTrue(d, s, k);
    TruthAgrees(d, s.h, s.sessions[k].image.version);
  }

  /** Events read from the log are honest. */
  lemma {:induction false} EventsAreHonest<S, P>(d: CommitLog.Domain<S, P>, s: CommitLog.System<S, P>, after: nat, limit: nat)
    requires CommitLog.Inv(d, s)
    ensures |s.h.eras| > 0
    ensures forall e :: e in EventsAfter(s.db, after, limit) ==> ClientSafety.Honest<S, P>(ServerOf(d, s.h), Client.Canonical(e.version, e.patches))
  {
    CommitSafety.EventsAfterTellTheTruth(d, s, after, limit);
  }

  /** Events published from the outbox are honest. */
  lemma {:induction false} PublishedEventsAreHonest<S, P>(d: CommitLog.Domain<S, P>, s: CommitLog.System<S, P>, done: set<nat>, i: nat)
    requires CommitLog.Inv(d, s) && CommitAnswers.OutboxOK(s, done) && i < |s.db.outbox|
    ensures |s.h.eras| > 0
    ensures ClientSafety.Honest<S, P>(ServerOf(d, s.h), Client.Canonical(s.db.outbox[i].event.version, s.db.outbox[i].event.patches))
  {
    assert CommitAnswers.RowOK(s, done, s.db.outbox[i]);
  }

  /** The worker's answer, as the client reads it. */
  function Delivered<P>(r: OperationResult<P>): Client.Outcome<P> {
    match r
    case Accepted(id, version, patches) => Client.Outcome.Accepted(id, version, patches)
    case Rejected(id, version, code) => Client.Outcome.Rejected(id, version, code)
  }

  /** Every receipt-backed answer of every run stays honest for ever after. */
  lemma {:induction false} AnswersAreHonest<S, P>(d: CommitLog.Domain<S, P>, states: seq<CommitLog.System<S, P>>, actions: seq<CommitLog.Action<S, P>>,
                                                  schema: string, initial: S, i: nat, j: nat)
    requires CommitLog.Run(d, states, actions) && states[0] == CommitLog.Start(schema, initial) && i < j < |states|
    requires CommitAnswers.AnswerOf(states[i], actions[i]).Some?
    ensures |states[j].h.eras| > 0
    ensures ClientSafety.HonestOutcome(ServerOf(d, states[j].h), Delivered(CommitAnswers.AnswerOf(states[i], actions[i]).value.result))
  {
    CommitAnswers.AcceptedAnswerIsLogged(d, states, actions, schema, initial, i, j);
    CommitLog.EveryRunIsSafe(d, states, actions, schema, initial, j);
  }

  /** What was honest stays honest while the log grows. */
  lemma {:induction false} HonestyLasts<S, P>(d: CommitLog.Domain<S, P>, h: CommitLog.History<S, P>, g: CommitLog.History<S, P>, m: Client.Message<S, P>)
    requires |h.eras| > 0 && h.eras <= g.eras && h.log <= g.log && ClientSafety.Honest(ServerOf(d, h), m)
    ensures ClientSafety.Honest(ServerOf(d, g), m)
  {
    assert g.eras[0] == h.eras[0];
    if m.Snapshot? { TruthPrefix(ServerOf(d, h), ServerOf(d, g), m.version); }
  }

  lemma {:induction false} TruthPrefix<S, P>(a: ClientSafety.Server<S, P>, b: ClientSafety.Server<S, P>, v: nat)
    requires a.apply == b.apply && a.initial == b.initial && a.log <= b.log && v <= |a.log|
    ensures ClientSafety.Truth(a, v) == ClientSafety.Truth(b, v)
    decreases v
  {
    if v > 0 { TruthPrefix(a, b, v - 1); assert a.log[v - 1] == b.log[v - 1]; }
  }

  // ---- workers, gateway and client together ----

  /** `m` carries what the system of workers held, published or answered in the course of a run. */
  ghost predicate FromRun<S, P>(states: seq<CommitLog.System<S, P>>, actions: seq<CommitLog.Action<S, P>>, m: Client.Message<S, P>)
    requires |states| == |actions| + 1
  {
    match m
    case Snapshot(v, state) => exists n, k :: 0 <= n < |states| && Shows(states[n], k, v, state)
    case Canonical(v, patches) => exists n :: 0 <= n < |states| && (ReadIn(states[n], v, patches) || PublishedIn(states[n], v, patches))
    case ReadyAt(_) => true
    case ResultOf(r) => r.Accepted? ==> exists i :: 0 <= i < |actions| && AnsweredBy(states[i], actions[i], r)
  }

  /** The warm room of claim `k`. */
  predicate Shows<S(==), P>(s: CommitLog.System<S, P>, k: nat, v: nat, state: S) {
    CommitLog.IsWarm(s, k) && s.sessions[k].image.version == v && s.sessions[k].image.state == state
  }

  /** Read by `eventsAfter`. */
  ghost predicate ReadIn<S, P>(s: CommitLog.System<S, P>, v: nat, patches: P) {
    exists after, limit :: ReadAfter(s, after, limit, v, patches)
  }

  ghost predicate ReadAfter<S, P>(s: CommitLog.System<S, P>, after: nat, limit: nat, v: nat, patches: P) {
    exists i :: 0 <= i < |EventsAfter(s.db, after, limit)| && EventsAfter(s.db, after, limit)[i].version == v && EventsAfter(s.db, after, limit)[i].patches == patches
  }

  /** Taken from the outbox. */
  ghost predicate PublishedIn<S, P>(s: CommitLog.System<S, P>, v: nat, patches: P) {
    exists i :: 0 <= i < |s.db.outbox| && s.db.outbox[i].event.version == v && s.db.outbox[i].event.patches == patches
  }

  ghost predicate AnsweredBy<S, P>(s: CommitLog.System<S, P>, a: CommitLog.Action<S, P>, r: Client.Outcome<P>)
  {
    CommitLog.Enabled(s, a) && CommitAnswers.AnswerOf(s, a).Some? && Delivered(CommitAnswers.AnswerOf(s, a).value.result) == r
  }

  /** A run of the workers that stays in one schema era. */
  ghost predicate OneEra<S, P>(d: CommitLog.Domain<S, P>, states: seq<CommitLog.System<S, P>>, actions: seq<CommitLog.Action<S, P>>, schema: string, initial: S) {
    CommitLog.Run(d, states, actions) && states[0] == CommitLog.Start(schema, initial) && |states[|actions|].h.eras| == 1
  }

  /** Every state of such a run is safe, in the one era, and its log is a prefix of the last one. */
  lemma {:induction false} EarlierState<S, P>(d: CommitLog.Domain<S, P>, states: seq<CommitLog.System<S, P>>, actions: seq<CommitLog.Action<S, P>>, schema: string, initial: S, n: nat)
    requires OneEra(d, states, actions, schema, initial) && n <= |actions|
    ensures CommitLog.Inv(d, states[n]) && |states[n].h.eras| == 1
    ensures states[n].h.eras <= states[|actions|].h.eras && states[n].h.log <= states[|actions|].h.log
  {
    CommitLog.EveryRunIsSafe(d, states, actions, schema, initial, n);
    CommitSafety.StaleWritersAreHarmless(d, states, actions, n, |actions|);
  }

  lemma {:induction false} LastServer<S, P>(d: CommitLog.Domain<S, P>, states: seq<CommitLog.System<S, P>>, actions: seq<CommitLog.Action<S, P>>, schema: string, initial: S, n: nat, m: Client.Message<S, P>)
    requires OneEra(d, states, actions, schema, initial) && n <= |actions|
    requires |states[n].h.eras| > 0 && ClientSafety.Honest(ServerOf(d, states[n].h), m)
    ensures |states[|actions|].h.eras| == 1 && ClientSafety.Honest(ServerOf(d, states[|actions|].h), m)
  {
    EarlierState(d, states, actions, schema, initial, n);
    HonestyLasts(d, states[n].h, states[|actions|].h, m);
  }

  lemma {:induction false} EventIsHonest<S, P>(d: CommitLog.Domain<S, P>, states: seq<CommitLog.System<S, P>>, actions: seq<CommitLog.Action<S, P>>, schema: string, initial: S, n: nat, v: nat, patches: P)
    requires OneEra(d, states, actions, schema, initial) && n <= |actions|
    requires ReadIn(states[n], v, patches) || PublishedIn(states[n], v, patches)
    ensures |states[|actions|].h.eras| == 1
    ensures ClientSafety.Honest<S, P>(ServerOf(d, states[|actions|].h), Client.Canonical(v, patches))
  {
    EarlierState(d, states, actions, schema, initial, n);
    if ReadIn(states[n], v, patches) {
      var after, limit :| ReadAfter(states[n], after, limit, v, patches);
      var events := EventsAfter(states[n].db, after, limit);
      var i :| 0 <= i < |events| && events[i].version == v && events[i].patches == patches;
      EventsAreHonest(d, states[n], after, limit);
      assert events[i] in events;
    } else {
      var i :| 0 <= i < |states[n].db.outbox| && states[n].db.outbox[i].event.version == v && states[n].db.outbox[i].event.patches == patches;
      CommitAnswers.NoEventIsLost(d, states, actions, schema, initial, n);
      PublishedEventsAreHonest(d, states[n], CommitAnswers.DoneBy(actions, n), i);
    }
    LastServer(d, states, actions, schema, initial, n, Client.Canonical(v, patches));
  }

  /** Whatever comes from the run is honest about its last log. */
  lemma {:induction false} FromRunIsHonest<S, P>(d: CommitLog.Domain<S, P>, states: seq<CommitLog.System<S, P>>, actions: seq<CommitLog.Action<S, P>>, schema: string, initial: S, m: Client.Message<S, P>)
    requires OneEra(d, states, actions, schema, initial)
    requires FromRun(states, actions, m)
    ensures |states[|actions|].h.eras| == 1 && ClientSafety.Honest(ServerOf(d, states[|actions|].h), m)
  {
    match m
    case Snapshot(v, state) =>
      var n, k :| 0 <= n < |states| && Shows(states[n], k, v, state);
      EarlierState(d, states, actions, schema, initial, n);
      SnapshotsAreHonest(d, states[n], k);
      LastServer(d, states, actions, schema, initial, n, m);
    case Canonical(v, patches) =>
      var n :| 0 <= n < |states| && (ReadIn(states[n], v, patches) || PublishedIn(states[n], v, patches));
      EventIsHonest(d, states, actions, schema, initial, n, v, patches);
    case ReadyAt(_) =>
    case ResultOf(r) =>
      if r.Accepted? {
        var i :| 0 <= i < |actions| && AnsweredBy(states[i], actions[i], r);
        AnswersAreHonest(d, states, actions, schema, initial, i, |actions|);
      }
  }

  /** What an action of the gateway brings in. */
  ghost predicate Brings<S, P>(a: GatewayStream.Action<S, P>, m: Client.Message<S, P>) {
    match a
    case SnapshotArrives(_, _, v, state) => m == Client.Snapshot(v, state)
    case PageArrives(_, _, page) => exists i :: 0 <= i < |page| && m == Client.Canonical(page[i].version, page[i].patches)
    case RoomEvent(e) => m == Client.Canonical(e.version, e.patches)
    case CatchupPage(page) => exists i :: 0 <= i < |page| && m == Client.Canonical(page[i].version, page[i].patches)
    case Replies(_, outcome) => m == Client.ResultOf(outcome)
    case _ => false
  }

  /** Everything that reaches the gateway comes from the run of the workers. */
  ghost predicate Fed<S(!new), P(!new)>(states: seq<CommitLog.System<S, P>>, actions: seq<CommitLog.Action<S, P>>, gateway: seq<GatewayStream.Action<S, P>>)
    requires |states| == |actions| + 1
  {
    forall k, m :: 0 <= k < |gateway| && Brings(gateway[k], m) ==> FromRun(states, actions, m)
  }

  lemma {:induction false} FedIsHonest<S(!new), P(!new)>(d: CommitLog.Domain<S, P>, states: seq<CommitLog.System<S, P>>, actions: seq<CommitLog.Action<S, P>>, schema: string, initial: S, gateway: seq<GatewayStream.Action<S, P>>, k: nat)
    requires OneEra(d, states, actions, schema, initial)
    requires Fed(states, actions, gateway) && k < |gateway|
    ensures |states[|actions|].h.eras| == 1 && GatewayStream.HonestAction(ServerOf(d, states[|actions|].h), gateway[k])
  {
    forall m | Brings(gateway[k], m) ensures ClientSafety.Honest(ServerOf(d, states[|actions|].h), m) {
      FromRunIsHonest(d, states, actions, schema, initial, m);
    }
    match gateway[k]
    case SnapshotArrives(_, _, v, state) => assert Brings(gateway[k], Client.Snapshot(v, state));
    case PageArrives(_, _, page) =>
      forall i | 0 <= i < |page| ensures ClientSafety.Honest<S, P>(ServerOf(d, states[|actions|].h), Client.Canonical(page[i].version, page[i].patches)) {
        assert Brings(gateway[k], Client.Canonical(page[i].version, page[i].patches));
      }
    case RoomEvent(e) =>
      assert Brings(gateway[k], Client.Canonical(e.version, e.patches));
      assert [e][0] == e;
    case CatchupPage(page) =>
      forall i | 0 <= i < |page| ensures ClientSafety.Honest<S, P>(ServerOf(d, states[|actions|].h), Client.Canonical(page[i].version, page[i].patches)) {
        assert Brings(gateway[k], Client.Canonical(page[i].version, page[i].patches));
      }
    case Replies(_, outcome) => assert Brings(gateway[k], Client.ResultOf(outcome));
    case _ =>
  }

  /** Some connection of the gateway has been sent this. */
  ghost predicate SentBy<S, P>(hubs: seq<GatewayStream.Hub<S, P>>, m: Client.Message<S, P>) {
    exists n, j, i :: 0 <= n < |hubs| && 0 <= j < |hubs[n].links| && 0 <= i < |hubs[n].links[j].conn.sent| && hubs[n].links[j].conn.sent[i] == m
  }

  /** Whatever a client receives over whichever connections, lost, repeated or reordered, is honest. */
  lemma {:induction false} SentIsHonest<S(!new), P(!new)>(d: CommitLog.Domain<S, P>, states: seq<CommitLog.System<S, P>>, actions: seq<CommitLog.Action<S, P>>, schema: string, initial: S,
      cfg: Gateway.Config<S, P>, hubs: seq<GatewayStream.Hub<S, P>>, gateway: seq<GatewayStream.Action<S, P>>, m: Client.Message<S, P>)
    requires OneEra(d, states, actions, schema, initial)
    requires GatewayStream.Run(cfg, hubs, gateway) && Fed(states, actions, gateway) && SentBy(hubs, m)
    ensures |states[|actions|].h.eras| == 1 && ClientSafety.Honest(ServerOf(d, states[|actions|].h), m)
  {
    var server := ServerOf(d, states[|actions|].h);
    forall k | 0 <= k < |gateway| ensures GatewayStream.HonestAction(server, gateway[k]) {
      FedIsHonest(d, states, actions, schema, initial, gateway, k);
    }
    var n, j, i :| 0 <= n < |hubs| && 0 <= j < |hubs[n].links| && 0 <= i < |hubs[n].links[j].conn.sent| && hubs[n].links[j].conn.sent[i] == m;
    GatewayStream.StreamsAreContiguous(server, cfg, hubs, gateway, n);
    assert GatewayStream.AllHonest(server, hubs[n].links[j].conn.sent);
  }

  /**
   * The whole way: workers in any interleaving, a gateway fed from their run in any interleaving, and a client fed
   * from that gateway's connections in any order. A client with an empty queue at the head version shows exactly
   * what a worker activating now would recover.
   */
  lemma {:induction false} ClientShowsRecoveredState<S(!new), P(!new)>(
      d: CommitLog.Domain<S, P>, states: seq<CommitLog.System<S, P>>, actions: seq<CommitLog.Action<S, P>>, schema: string, initial: S,
      cfg: Gateway.Config<S, P>, hubs: seq<GatewayStream.Hub<S, P>>, gateway: seq<GatewayStream.Action<S, P>>,
      limits: Client.Limits, events: seq<ClientSafety.Event<S, P>>)
    requires OneEra(d, states, actions, schema, initial)
    requires GatewayStream.Run(cfg, hubs, gateway) && Fed(states, actions, gateway)
    requires forall i :: 0 <= i < |events| && events[i].Receives? ==> SentBy(hubs, events[i].message)
    ensures var c, s := ClientSafety.After(d.apply, limits, events), states[|actions|];
      && LoadRoom(s.db).Ok?
      && (c.canonical.Some? && c.pending == [] && c.version == LoadRoom(s.db).value.version ==> c.projected == Some(CommitSafety.Recovered(d, s.db)))
  {
    var s := states[|actions|];
    var server := ServerOf(d, s.h);
    EarlierState(d, states, actions, schema, initial, |actions|);
    forall i | 0 <= i < |events| && events[i].Receives? ensures ClientSafety.Honest(server, events[i].message) {
      SentIsHonest(d, states, actions, schema, initial, cfg, hubs, gateway, events[i].message);
    }
    ClientSafety.EveryRunIsGood(server, limits, events);
    AtHead(d, s, limits, events);
  }

  lemma {:induction false} AtHead<S, P>(d: CommitLog.Domain<S, P>, s: CommitLog.System<S, P>, limits: Client.Limits, events: seq<ClientSafety.Event<S, P>>)
    requires CommitLog.Inv(d, s) && |s.h.eras| == 1
    requires ClientSafety.Good(ServerOf(d, s.h), ClientSafety.After(d.apply, limits, events), ClientSafety.Ops(d.apply, limits, events))
    ensures LoadRoom(s.db).Ok?
    ensures var c := ClientSafety.After(d.apply, limits, events);
      c.canonical.Some? && c.pending == [] && c.version == LoadRoom(s.db).value.version ==> c.projected == Some(CommitSafety.Recovered(d, s.db))
  {
    var c := ClientSafety.After(d.apply, limits, events);
    CommitLog.RecoveryIsExact(d, s);
    TruthAgrees(d, s.h, |s.h.log|);
    if c.canonical.Some? && c.pending == [] && c.version == |s.h.log| {
      ClientSafety.Converged(ServerOf(d, s.h), c, ClientSafety.Ops(d.apply, limits, events));
    }
  }
}
