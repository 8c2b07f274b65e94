/** `CollaborationGateway`: what one socket is sent, and the handlers and loops that send it. */
module Gateway {
  import opened Results
  import opened CommitStore
  import opened Ordering
  import opened Client

  const PAGE := 1000

  datatype Phase = New | Syncing | Live

  /** A connection; `sent` is everything handed to its socket so far. */
  datatype Conn<+S, +P> = Conn(
    open: bool, buffered: nat, phase: Phase, last: nat, queued: seq<CommitStore.Event<P>>, catchup: bool, sent: seq<Message<S, P>>)

  datatype Config<!S, !P> = Config(maxBuffered: nat, size: Message<S, P> -> nat)

  function Opened<S, P>(): Conn<S, P> { Conn(true, 0, New, 0, [], false, []) }

  /** A slow socket is closed instead of being sent more. */
  function Send<S, P>(cfg: Config<S, P>, c: Conn<S, P>, m: Message<S, P>): Conn<S, P> {
    if !c.open then c
    else if c.buffered > cfg.maxBuffered then c.(open := false)
    else c.(sent := c.sent + [m], buffered := c.buffered + cfg.size(m))
  }

  function SendEvent<S, P>(cfg: Config<S, P>, c: Conn<S, P>, e: CommitStore.Event<P>): Conn<S, P> {
    Send(cfg, c, Canonical(e.version, e.patches)).(last := e.version)
  }

  /** `deliverEvent`; a gap starts a catch-up unless one is under way. */
  function Deliver<S, P>(cfg: Config<S, P>, c: Conn<S, P>, e: CommitStore.Event<P>): Conn<S, P> {
    if c.phase.Syncing? then c.(queued := c.queued + [e])
    else if e.version <= c.last then c
    else if e.version != c.last + 1 then c.(catchup := true)
    else SendEvent(cfg, c, e)
  }

  function DeliverAll<S, P>(cfg: Config<S, P>, c: Conn<S, P>, events: seq<CommitStore.Event<P>>): Conn<S, P>
    decreases |events|
  {
    if events == [] then c else DeliverAll(cfg, Deliver(cfg, c, events[0]), events[1..])
  }

  /** `synchronize` up to its first `await`. */
  function BeginSync<S, P>(c: Conn<S, P>): Conn<S, P> { c.(phase := Syncing, queued := []) }

  function TakeSnapshot<S, P>(cfg: Config<S, P>, c: Conn<S, P>, v: nat, state: S): Conn<S, P> {
    Send(cfg, c, Snapshot(v, state)).(last := v)
  }

  /** One page of `sendEventsAfter`; true means that a gap calls for a new synchronisation. */
  function TakePage<S, P>(cfg: Config<S, P>, c: Conn<S, P>, page: seq<CommitStore.Event<P>>): (Conn<S, P>, bool)
    decreases |page|
  {
    if page == [] then (c, false)
    else if page[0].version <= c.last then TakePage(cfg, c, page[1..])
    else if page[0].version != c.last + 1 then (c, true)
    else TakePage(cfg, SendEvent(cfg, c, page[0]), page[1..])
  }

  function InOrder<P>(events: seq<CommitStore.Event<P>>): seq<CommitStore.Event<P>> {
    SortBy(events, (e: CommitStore.Event<P>) => e.version as real)
  }

  /** `synchronize` after its last `await`. */
  function FinishSync<S, P>(cfg: Config<S, P>, c: Conn<S, P>): Conn<S, P> {
    var live := DeliverAll(cfg, c.(phase := Live), InOrder(c.queued));
    Send(cfg, live.(queued := []), ReadyAt(live.last))
  }

  /** The events of a page that lie beyond the cursor, each moving it. */
  function Beyond<P>(page: seq<CommitStore.Event<P>>, cursor: nat): (news: seq<CommitStore.Event<P>>)
    decreases |page|
  {
    if page == [] then []
    else if page[0].version <= cursor then Beyond(page[1..], cursor)
    else [page[0]] + Beyond(page[1..], page[0].version)
  }

  function CursorAfter<P>(page: seq<CommitStore.Event<P>>, cursor: nat): (c: nat)
    ensures c >= cursor
    ensures forall i :: 0 <= i < |page| ==> page[i].version <= c
    decreases |page|
  {
    if page == [] then cursor
    else if page[0].version <= cursor then
      assert forall i :: 0 < i < |page| ==> page[i] == page[1..][i - 1];
      CursorAfter(page[1..], cursor)
    else
      assert forall i :: 0 < i < |page| ==> page[i] == page[1..][i - 1];
      CursorAfter(page[1..], page[0].version)
  }

  // ---- the objects ----

  class GatewayConnection<S, P> {
    const cfg: Config<S, P>
    var open: bool
    var buffered: nat
    var phase: Phase
    var lastSentVersion: nat
    var queuedEvents: seq<CommitStore.Event<P>>
    var catchup: bool
    var sent: seq<Message<S, P>>

    ghost function View(): Conn<S, P>
      reads this
    {
      Conn(open, buffered, phase, lastSentVersion, queuedEvents, catchup, sent)
    }

    constructor (cfg: Config<S, P>)
      ensures View() == Opened<S, P>() && this.cfg == cfg
    {
      this.cfg := cfg;
      open, buffered, phase, lastSentVersion, queuedEvents, catchup, sent := true, 0, New, 0, [], false, [];
    }

    method SendMessage(m: Message<S, P>)
      modifies this`open, this`buffered, this`sent
      ensures View() == Send(cfg, old(View()), m)
    {
      if !open { return; }
      if buffered > cfg.maxBuffered { open := false; return; }
      sent, buffered := sent + [m], buffered + cfg.size(m);
    }

    method DeliverEvent(e: CommitStore.Event<P>) returns (catchupStarted: bool)
      modifies this
      ensures View() == Deliver(cfg, old(View()), e)
      ensures catchupStarted <==> catchup && !old(catchup)
    {
      if phase.Syncing? { queuedEvents := queuedEvents + [e]; return false; }
      if e.version <= lastSentVersion { return false; }
      if e.version != lastSentVersion + 1 {
        if catchup { return false; }
        catchup := true;
        return true;
      }
      SendMessage(Canonical(e.version, e.patches));
      lastSentVersion := e.version;
      return false;
    }

    method SendSnapshot(v: nat, state: S)
      modifies this
      ensures View() == TakeSnapshot(cfg, old(View()), v, state)
    {
      SendMessage(Snapshot(v, state));
      lastSentVersion := v;
    }

    method SendPage(page: seq<CommitStore.Event<P>>) returns (gap: bool)
      modifies this
      ensures (View(), gap) == TakePage(cfg, old(View()), page)
    {
      for i := 0 to |page|
        invariant TakePage(cfg, View(), page[i..]) == TakePage(cfg, old(View()), page)
      {
        assert page[i..][1..] == page[i + 1..];
        if page[i].version <= lastSentVersion { continue; }
        if page[i].version != lastSentVersion + 1 { return true; }
        SendMessage(Canonical(page[i].version, page[i].patches));
        lastSentVersion := page[i].version;
      }
      return false;
    }

    method Finish() returns (catchupStarted: bool)
      modifies this
      ensures View() == FinishSync(cfg, old(View()))
      ensures catchupStarted <==> catchup && !old(catchup)
    {
      phase := Live;
      catchupStarted := false;
      var events := InOrder(queuedEvents);
      for i := 0 to |events|
        invariant DeliverAll(cfg, View(), events[i..]) == DeliverAll(cfg, old(View()).(phase := Live), events)
        invariant old(catchup) ==> catchup
        invariant catchupStarted <==> catchup && !old(catchup)
      {
        assert events[i..][1..] == events[i + 1..];
        var started := DeliverEvent(events[i]);
        catchupStarted := catchupStarted || started;
      }
      queuedEvents := [];
      SendMessage(ReadyAt(lastSentVersion));
    }
  }

  /** The connections of one document on one gateway, and the newest version this gateway has seen. */
  class RoomHub<S, P> {
    var connections: seq<GatewayConnection<S, P>>
    var cursor: nat

    ghost predicate Valid()
      reads this
    {
      forall i, j :: 0 <= i < j < |connections| ==> connections[i] != connections[j]
    }

    constructor ()
      ensures connections == [] && cursor == 0 && Valid()
    {
      connections, cursor := [], 0;
    }

    method DeliverToAll(e: CommitStore.Event<P>)
      requires Valid()
      modifies connections
      ensures forall i :: 0 <= i < |connections| ==> connections[i].View() == Deliver(connections[i].cfg, old(connections[i].View()), e)
    {
      for i := 0 to |connections|
        invariant forall j :: 0 <= j < |connections| ==>
          connections[j].View() == if j < i then Deliver(connections[j].cfg, old(connections[j].View()), e) else old(connections[j].View())
      {
        var _ := connections[i].DeliverEvent(e);
      }
    }

    /** `onRoomEvent`; true means that the hub has missed events and must catch up. */
    method OnRoomEvent(e: CommitStore.Event<P>) returns (behind: bool)
      requires Valid()
      modifies this`cursor, connections
      ensures behind <==> e.version > old(cursor) + 1
      ensures cursor == if e.version == old(cursor) + 1 then e.version else old(cursor)
      ensures forall i :: 0 <= i < |connections| ==>
        connections[i].View() == if e.version == old(cursor) + 1 then Deliver(connections[i].cfg, old(connections[i].View()), e) else old(connections[i].View())
    {
      if e.version > cursor + 1 { return true; }
      if e.version <= cursor { return false; }
      cursor := e.version;
      DeliverToAll(e);
      return false;
    }

    /** One page of `catchupHub`. */
    method CatchupPage(page: seq<CommitStore.Event<P>>)
      requires Valid()
      modifies this`cursor, connections
      ensures cursor == CursorAfter(page, old(cursor))
      ensures forall i :: 0 <= i < |connections| ==>
        connections[i].View() == DeliverAll(connections[i].cfg, old(connections[i].View()), Beyond(page, old(cursor)))
    {
      for n := 0 to |page|
        invariant CursorAfter(page[n..], cursor) == CursorAfter(page, old(cursor))
        invariant forall i :: 0 <= i < |connections| ==>
          DeliverAll(connections[i].cfg, connections[i].View(), Beyond(page[n..], cursor))
          == DeliverAll(connections[i].cfg, old(connections[i].View()), Beyond(page, old(cursor)))
      {
        assert page[n..][1..] == page[n + 1..];
        if page[n].version <= cursor { continue; }
        assert Beyond(page[n..], cursor) == [page[n]] + Beyond(page[n + 1..], page[n].version);
        cursor := page[n].version;
        DeliverToAll(page[n]);
      }
    }
  }

  /** The hub passes on each version once, in increasing order. */
  lemma {:induction false} BeyondIncreases<P>(page: seq<CommitStore.Event<P>>, cursor: nat)
    ensures forall e :: e in Beyond(page, cursor) ==> cursor < e.version <= CursorAfter(page, cursor) && e in page
    ensures forall i, j :: 0 <= i < j < |Beyond(page, cursor)| ==> Beyond(page, cursor)[i].version < Beyond(page, cursor)[j].version
    decreases |page|
  {
    if page != [] {
      var next := if page[0].version <= cursor then cursor else page[0].version;
      var news, rest := Beyond(page, cursor), Beyond(page[1..], next);
      BeyondIncreases(page[1..], next);
      assert news == if page[0].version <= cursor then rest else [page[0]] + rest;
      forall i, j | 0 <= i < j < |news| ensures news[i].version < news[j].version {
        if news != rest {
          assert news[j] == rest[j - 1] && rest[j - 1] in rest;
          if i > 0 { assert news[i] == rest[i - 1]; }
        }
      }
    }
  }
}
