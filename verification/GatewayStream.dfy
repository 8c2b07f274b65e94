/** One gateway under every interleaving of its handlers at their awaits, and the client at the end of each stream. */
module GatewayStream {
  import opened Results
  import opened Ordering
  import opened CommitStore
  import opened Client
  import opened Gateway
  import opened ClientSafety

  type Canon<+P> = CommitStore.Event<P>

  // ---- the state machine ----

  /** What a suspended handler will do when the call that it awaits returns. */
  datatype Frame = FinishesSync | EndsCatchup
  datatype Wait = ForSnapshot | ForEvents | ForReturn
  datatype Handler = Handler(wait: Wait, frames: seq<Frame>)

  datatype Link<+S, +P> = Link(conn: Conn<S, P>, handlers: seq<Handler>)

  datatype Hub<+S, +P> = Hub(cursor: nat, links: seq<Link<S, P>>)

  datatype Action<+S, +P> =
    | Joins
    | Synchronizes(j: nat)
    | SnapshotArrives(j: nat, i: nat, v: nat, state: S)
    | PageArrives(j: nat, i: nat, page: seq<Canon<P>>)
    | Resumes(j: nat, i: nat)
    | CallFails(j: nat, i: nat)
    | RoomEvent(event: Canon<P>)
    | CatchupPage(page: seq<Canon<P>>)
    | Replies(j: nat, outcome: Outcome<P>)
    | Drains(j: nat, buffered: nat)
    | Hangs(j: nat)
    | HubRestarts

  function Without<T>(s: seq<T>, i: nat): seq<T>
    requires i < |s|
  {
    s[..i] + s[i + 1..]
  }

  /** Delivering may start a catch-up: a handler waiting for events. */
  function Spawned<S, P>(l: Link<S, P>, conn: Conn<S, P>): Link<S, P> {
    Link(conn, if conn.catchup && !l.conn.catchup then l.handlers + [Handler(ForEvents, [EndsCatchup])] else l.handlers)
  }

  function SyncLink<S, P>(l: Link<S, P>): Link<S, P> {
    Link(BeginSync(l.conn), l.handlers + [Handler(ForSnapshot, [FinishesSync])])
  }

  function SnapshotLink<S, P>(cfg: Config<S, P>, l: Link<S, P>, i: nat, v: nat, state: S): Link<S, P>
    requires i < |l.handlers|
  {
    Link(TakeSnapshot(cfg, l.conn, v, state), l.handlers[i := l.handlers[i].(wait := ForEvents)])
  }

  /** After a page: more pages, a new synchronisation on a gap, or the return to the caller. */
  function PageLink<S, P>(cfg: Config<S, P>, l: Link<S, P>, i: nat, page: seq<Canon<P>>): Link<S, P>
    requires i < |l.handlers|
  {
    var (conn, gap) := TakePage(cfg, l.conn, page);
    var h := l.handlers[i];
    if gap then Link(BeginSync(conn), l.handlers[i := Handler(ForSnapshot, [FinishesSync] + h.frames)])
    else if |page| >= PAGE then Link(conn, l.handlers)
    else Link(conn, l.handlers[i := h.(wait := ForReturn)])
  }

  function ResumeLink<S, P>(cfg: Config<S, P>, l: Link<S, P>, i: nat): Link<S, P>
    requires i < |l.handlers|
  {
    var h := l.handlers[i];
    if |h.frames| == 0 then Link(l.conn, Without(l.handlers, i))
    else
      var rest := Link(l.conn, l.handlers[i := h.(frames := h.frames[1..])]);
      if h.frames[0].FinishesSync? then Spawned(rest, FinishSync(cfg, l.conn))
      else rest.(conn := l.conn.(catchup := false))
  }

  /** An exception unwinds the whole handler; a catch-up that it was running is over. */
  function FailLink<S, P>(l: Link<S, P>, i: nat): Link<S, P>
    requires i < |l.handlers|
  {
    Link(if EndsCatchup in l.handlers[i].frames then l.conn.(catchup := false) else l.conn, Without(l.handlers, i))
  }

  function DeliverLink<S, P>(cfg: Config<S, P>, l: Link<S, P>, events: seq<Canon<P>>): Link<S, P> {
    Spawned(l, DeliverAll(cfg, l.conn, events))
  }

  function DeliverLinks<S, P>(cfg: Config<S, P>, links: seq<Link<S, P>>, events: seq<Canon<P>>): seq<Link<S, P>> {
    seq(|links|, j requires 0 <= j < |links| => DeliverLink(cfg, links[j], events))
  }

  predicate Waits<S, P>(hub: Hub<S, P>, j: nat, i: nat, wait: Wait) {
    j < |hub.links| && i < |hub.links[j].handlers| && hub.links[j].handlers[i].wait == wait
  }

  predicate Enabled<S, P>(hub: Hub<S, P>, a: Action<S, P>) {
    match a
    case Joins => true
    case Synchronizes(j) => j < |hub.links|
    case SnapshotArrives(j, i, _, _) => Waits(hub, j, i, ForSnapshot)
    case PageArrives(j, i, _) => Waits(hub, j, i, ForEvents)
    case Resumes(j, i) => Waits(hub, j, i, ForReturn)
    case CallFails(j, i) => j < |hub.links| && i < |hub.links[j].handlers|
    case RoomEvent(_) => true
    case CatchupPage(_) => true
    case Replies(j, _) => j < |hub.links|
    case Drains(j, buffered) => j < |hub.links| && buffered <= hub.links[j].conn.buffered
    case Hangs(j) => j < |hub.links|
    case HubRestarts => true
  }

  function With<S, P>(hub: Hub<S, P>, j: nat, l: Link<S, P>): Hub<S, P>
    requires j < |hub.links|
  {
    hub.(links := hub.links[j := l])
  }

  function Next<S, P>(cfg: Config<S, P>, hub: Hub<S, P>, a: Action<S, P>): Hub<S, P>
    requires Enabled(hub, a)
  {
    match a
    case Joins => hub.(links := hub.links + [SyncLink(Link(Opened(), []))])
    case Synchronizes(j) => With(hub, j, SyncLink(hub.links[j]))
    case SnapshotArrives(j, i, v, state) =>
      With(hub, j, SnapshotLink(cfg, hub.links[j], i, v, state)).(cursor := if v > hub.cursor then v else hub.cursor)
    case PageArrives(j, i, page) => With(hub, j, PageLink(cfg, hub.links[j], i, page))
    case Resumes(j, i) => With(hub, j, ResumeLink(cfg, hub.links[j], i))
    case CallFails(j, i) => With(hub, j, FailLink(hub.links[j], i))
    case RoomEvent(e) =>
      if e.version == hub.cursor + 1 then Hub(e.version, DeliverLinks(cfg, hub.links, [e])) else hub
    case CatchupPage(page) => Hub(CursorAfter(page, hub.cursor), DeliverLinks(cfg, hub.links, Beyond(page, hub.cursor)))
    case Replies(j, outcome) => With(hub, j, hub.links[j].(conn := Send(cfg, hub.links[j].conn, ResultOf(outcome))))
    case Drains(j, buffered) => With(hub, j, hub.links[j].(conn := hub.links[j].conn.(buffered := buffered)))
    case Hangs(j) => With(hub, j, hub.links[j].(conn := hub.links[j].conn.(open := false)))
    case HubRestarts => hub.(cursor := 0)
  }

  // ---- the stream ----

  /** The version of the last snapshot or event of a stream. */
  function LastVersion<S, P>(sent: seq<Message<S, P>>): Option<nat> {
    if sent == [] then None
    else
      var m := sent[|sent| - 1];
      if m.Snapshot? || m.Canonical? then Some(m.version) else LastVersion(sent[..|sent| - 1])
  }

  /** Between snapshots each event is exactly one version above what was sent before it. */
  ghost predicate Contiguous<S, P>(sent: seq<Message<S, P>>) {
    forall n :: 0 <= n < |sent| && sent[n].Canonical? ==> sent[n].version > 0 && LastVersion(sent[..n]) == Some((sent[n].version - 1) as nat)
  }

  ghost predicate AllHonest<S, P>(server: Server<S, P>, sent: seq<Message<S, P>>) {
    forall n :: 0 <= n < |sent| ==> Honest(server, sent[n])
  }

  ghost predicate HonestEvents<S, P>(server: Server<S, P>, events: seq<Canon<P>>) {
    forall n :: 0 <= n < |events| ==> Honest<S, P>(server, Canonical(events[n].version, events[n].patches))
  }

  /** The snapshots, events and replies that reach the gateway tell the truth about the log. */
  ghost predicate HonestAction<S, P>(server: Server<S, P>, a: Action<S, P>) {
    match a
    case SnapshotArrives(_, _, v, state) => Honest(server, Snapshot(v, state))
    case PageArrives(_, _, page) => HonestEvents(server, page)
    case RoomEvent(e) => HonestEvents(server, [e])
    case CatchupPage(page) => HonestEvents(server, page)
    case Replies(_, outcome) => HonestOutcome(server, outcome)
    case _ => true
  }

  ghost predicate ConnOK<S, P>(server: Server<S, P>, c: Conn<S, P>) {
    && Contiguous(c.sent) && AllHonest(server, c.sent) && HonestEvents(server, c.queued)
    && (c.open ==> LastVersion(c.sent) == Some(c.last) || (LastVersion(c.sent).None? && c.phase.Syncing?))
  }

  /** A handler gets past its first await only after a snapshot was sent. */
  ghost predicate LinkOK<S, P>(server: Server<S, P>, l: Link<S, P>) {
    && ConnOK(server, l.conn)
    && (l.conn.open && LastVersion(l.conn.sent).None? ==> forall i :: 0 <= i < |l.handlers| ==> l.handlers[i].wait.ForSnapshot?)
  }

  ghost predicate HubOK<S, P>(server: Server<S, P>, hub: Hub<S, P>) {
    forall j :: 0 <= j < |hub.links| ==> LinkOK(server, hub.links[j])
  }

  /** Something that carries a version has been sent, or the socket is closed. */
  predicate Started<S, P>(c: Conn<S, P>) { c.open ==> LastVersion(c.sent).Some? }

  lemma {:induction false} SentOne<S, P>(server: Server<S, P>, sent: seq<Message<S, P>>, m: Message<S, P>)
    requires Contiguous(sent) && AllHonest(server, sent) && Honest(server, m)
    requires m.Canonical? ==> m.version > 0 && LastVersion(sent) == Some((m.version - 1) as nat)
    ensures Contiguous(sent + [m]) && AllHonest(server, sent + [m])
    ensures LastVersion(sent + [m]) == if m.Snapshot? || m.Canonical? then Some(m.version) else LastVersion(sent)
  {
    var longer := sent + [m];
    assert longer[..|sent|] == sent;
    forall n | 0 <= n < |longer| && longer[n].Canonical?
      ensures longer[n].version > 0 && LastVersion(longer[..n]) == Some((longer[n].version - 1) as nat)
    {
      if n < |sent| { assert longer[..n] == sent[..n]; }
    }
  }

  lemma {:induction false} SendEventOK<S, P>(server: Server<S, P>, cfg: Config<S, P>, c: Conn<S, P>, e: Canon<P>)
    requires ConnOK(server, c) && Started(c) && HonestEvents(server, [e]) && e.version == c.last + 1
    ensures ConnOK(server, SendEvent(cfg, c, e)) && Started(SendEvent(cfg, c, e))
  {
    var m: Message<S, P> := Canonical([e][0].version, [e][0].patches);
    assert Honest(server, m);
    if c.open { SentOne(server, c.sent, m); }
  }

  lemma {:induction false} DeliverAllOK<S, P>(server: Server<S, P>, cfg: Config<S, P>, c: Conn<S, P>, events: seq<Canon<P>>)
    requires ConnOK(server, c) && HonestEvents(server, events) && (c.phase.Syncing? || Started(c))
    ensures var d := DeliverAll(cfg, c, events);
      ConnOK(server, d) && d.phase == c.phase && (Started(c) ==> Started(d)) && (!Started(d) ==> d.catchup == c.catchup)
    decreases |events|
  {
    if events != [] {
      var e := events[0];
      var d := Deliver(cfg, c, e);
      assert HonestEvents(server, [e]);
      if c.phase.Syncing? {
        forall n | 0 <= n < |d.queued| ensures Honest<S, P>(server, Canonical(d.queued[n].version, d.queued[n].patches)) {
          if n == |c.queued| { assert d.queued[n] == [e][0]; }
        }
      } else if e.version == c.last + 1 {
        SendEventOK(server, cfg, c, e);
      }
      assert forall n :: 0 <= n < |events[1..]| ==> events[1..][n] == events[n + 1];
      DeliverAllOK(server, cfg, d, events[1..]);
    }
  }

  lemma {:induction false} TakePageOK<S, P>(server: Server<S, P>, cfg: Config<S, P>, c: Conn<S, P>, page: seq<Canon<P>>)
    requires ConnOK(server, c) && HonestEvents(server, page) && Started(c)
    ensures ConnOK(server, TakePage(cfg, c, page).0) && Started(TakePage(cfg, c, page).0)
    decreases |page|
  {
    if page != [] {
      assert HonestEvents(server, page[..1]) && page[..1] == [page[0]];
      assert forall n :: 0 <= n < |page[1..]| ==> page[1..][n] == page[n + 1];
      if page[0].version <= c.last { TakePageOK(server, cfg, c, page[1..]); }
      else if page[0].version == c.last + 1 {
        SendEventOK(server, cfg, c, page[0]);
        TakePageOK(server, cfg, SendEvent(cfg, c, page[0]), page[1..]);
      }
    }
  }

  lemma {:induction false} SortedHonest<S, P>(server: Server<S, P>, events: seq<Canon<P>>)
    requires HonestEvents(server, events)
    ensures HonestEvents(server, InOrder(events))
  {
    SortPermutes(events, (e: Canon<P>) => e.version as real);
    var sorted := InOrder(events);
    forall n | 0 <= n < |sorted| ensures Honest<S, P>(server, Canonical(sorted[n].version, sorted[n].patches)) {
      assert sorted[n] in multiset(sorted);
      var k :| 0 <= k < |events| && events[k] == sorted[n];
    }
  }

  lemma {:induction false} FinishSyncOK<S, P>(server: Server<S, P>, cfg: Config<S, P>, c: Conn<S, P>)
    requires ConnOK(server, c) && Started(c)
    ensures ConnOK(server, FinishSync(cfg, c)) && Started(FinishSync(cfg, c))
  {
    SortedHonest(server, c.queued);
    DeliverAllOK(server, cfg, c.(phase := Live), InOrder(c.queued));
    var live := DeliverAll(cfg, c.(phase := Live), InOrder(c.queued));
    if live.open { SentOne(server, live.sent, ReadyAt(live.last)); }
  }

  lemma {:induction false} TakeSnapshotOK<S, P>(server: Server<S, P>, cfg: Config<S, P>, c: Conn<S, P>, v: nat, state: S)
    requires ConnOK(server, c) && Honest(server, Snapshot(v, state))
    ensures ConnOK(server, TakeSnapshot(cfg, c, v, state)) && Started(TakeSnapshot(cfg, c, v, state))
  {
    if c.open { SentOne(server, c.sent, Snapshot(v, state)); }
  }

  lemma {:induction false} DeliverLinksOK<S, P>(server: Server<S, P>, cfg: Config<S, P>, links: seq<Link<S, P>>, events: seq<Canon<P>>)
    requires HonestEvents(server, events) && forall j :: 0 <= j < |links| ==> LinkOK(server, links[j])
    ensures forall j :: 0 <= j < |links| ==> LinkOK(server, DeliverLinks(cfg, links, events)[j])
  {
    forall j | 0 <= j < |links| ensures LinkOK(server, DeliverLinks(cfg, links, events)[j]) {
      DeliverAllOK(server, cfg, links[j].conn, events);
    }
  }

  lemma {:induction false} BeyondHonest<S, P>(server: Server<S, P>, page: seq<Canon<P>>, cursor: nat)
    requires HonestEvents(server, page)
    ensures HonestEvents(server, Beyond(page, cursor))
  {
    BeyondIncreases(page, cursor);
    var news := Beyond(page, cursor);
    forall n | 0 <= n < |news| ensures Honest<S, P>(server, Canonical(news[n].version, news[n].patches)) {
      var k :| 0 <= k < |page| && page[k] == news[n];
    }
  }

  lemma {:induction false} HandlerStepOK<S, P>(server: Server<S, P>, cfg: Config<S, P>, l: Link<S, P>, i: nat)
    requires LinkOK(server, l) && i < |l.handlers|
    ensures l.handlers[i].wait.ForReturn? ==> LinkOK(server, ResumeLink(cfg, l, i))
    ensures LinkOK(server, FailLink(l, i))
  {
    if l.handlers[i].wait.ForReturn? { FinishSyncOK(server, cfg, l.conn); }
  }

  lemma {:induction false} StepOK<S, P>(server: Server<S, P>, cfg: Config<S, P>, hub: Hub<S, P>, a: Action<S, P>)
    requires HubOK(server, hub) && Enabled(hub, a) && HonestAction(server, a)
    ensures HubOK(server, Next(cfg, hub, a))
  {
    match a
    case Joins =>
    case Synchronizes(j) => assert LinkOK(server, SyncLink(hub.links[j]));
    case SnapshotArrives(j, i, v, state) => TakeSnapshotOK(server, cfg, hub.links[j].conn, v, state);
    case PageArrives(j, i, page) => TakePageOK(server, cfg, hub.links[j].conn, page);
    case Resumes(j, i) => HandlerStepOK(server, cfg, hub.links[j], i);
    case CallFails(j, i) => HandlerStepOK(server, cfg, hub.links[j], i);
    case RoomEvent(e) => DeliverLinksOK(server, cfg, hub.links, [e]);
    case CatchupPage(page) =>
      BeyondHonest(server, page, hub.cursor);
      DeliverLinksOK(server, cfg, hub.links, Beyond(page, hub.cursor));
    case Replies(j, outcome) => if hub.links[j].conn.open { SentOne(server, hub.links[j].conn.sent, ResultOf(outcome)); }
    case Drains(j, buffered) =>
    case Hangs(j) =>
    case HubRestarts =>
  }

  ghost predicate Run<S, P>(cfg: Config<S, P>, hubs: seq<Hub<S, P>>, actions: seq<Action<S, P>>) {
    && |hubs| == |actions| + 1 && hubs[0] == Hub(0, [])
    && forall n {:trigger actions[n]} :: 0 <= n < |actions| ==> Enabled(hubs[n], actions[n]) && hubs[n + 1] == Next(cfg, hubs[n], actions[n])
  }

  /** Under every interleaving, every stream is honest, and has neither gap nor repeat between snapshots. */
  lemma {:induction false} StreamsAreContiguous<S, P>(server: Server<S, P>, cfg: Config<S, P>, hubs: seq<Hub<S, P>>, actions: seq<Action<S, P>>, n: nat)
    requires Run(cfg, hubs, actions) && n <= |actions|
    requires forall k :: 0 <= k < |actions| ==> HonestAction(server, actions[k])
    ensures forall j :: 0 <= j < |hubs[n].links| ==> Contiguous(hubs[n].links[j].conn.sent) && AllHonest(server, hubs[n].links[j].conn.sent)
    ensures HubOK(server, hubs[n])
  {
    if n > 0 {
      StreamsAreContiguous(server, cfg, hubs, actions, n - 1);
      StepOK(server, cfg, hubs[n - 1], actions[n - 1]);
    }
  }

  // ---- the client at the other end ----

  function Received<S, P>(apply: (S, P) -> S, c: Client<S, P>, m: Message<S, P>): Client<S, P> {
    Step(apply, Limits(0, 0), c, Receives(m))
  }

  function Played<S, P>(apply: (S, P) -> S, c: Client<S, P>, sent: seq<Message<S, P>>): Client<S, P> {
    if sent == [] then c else Received(apply, Played(apply, c, sent[..|sent| - 1]), sent[|sent| - 1])
  }

  /** A client that reads one stream is never behind it, so no event on it looks like a gap. */
  lemma {:induction false} ClientKeepsUp<S, P>(apply: (S, P) -> S, c: Client<S, P>, sent: seq<Message<S, P>>)
    requires Contiguous(sent)
    ensures LastVersion(sent).Some? ==> Played(apply, c, sent).canonical.Some? && Played(apply, c, sent).version >= LastVersion(sent).value
    ensures sent != [] && sent[|sent| - 1].Canonical? ==>
      var before := Played(apply, c, sent[..|sent| - 1]);
      before.canonical.Some? && sent[|sent| - 1].version <= before.version + 1
    decreases |sent|
  {
    if sent != [] {
      var front, m := sent[..|sent| - 1], sent[|sent| - 1];
      forall n | 0 <= n < |front| && front[n].Canonical?
        ensures front[n].version > 0 && LastVersion(front[..n]) == Some((front[n].version - 1) as nat)
      {
        assert front[n] == sent[n] && front[..n] == sent[..n];
      }
      ClientKeepsUp(apply, c, front);
      VersionOnlyRises(apply, Played(apply, c, front), m);
    }
  }

  lemma {:induction false} VersionOnlyRises<S, P>(apply: (S, P) -> S, c: Client<S, P>, m: Message<S, P>)
    ensures var d := Received(apply, c, m);
      if m.Snapshot? then d.version == m.version && d.canonical.Some?
      else d.version >= c.version && (c.canonical.Some? ==> d.canonical.Some?)
           && (m.Canonical? && c.canonical.Some? && m.version <= c.version + 1 ==> d.version >= m.version)
  {
  }
}
