/** The warm-room cache of `CollaborationServerCore`: one room's entries, its leases and its evictions. */
module RoomCache {
  import opened Results

  /** A managed session; `ready` says that its initialisation has succeeded. */
  datatype Entry = Entry(activeConnections: nat, initializing: bool, evicting: bool, ready: bool, queued: nat)

  /** A lease belongs to one entry; `release` works once. */
  datatype Lease = Lease(entry: nat, released: bool)

  /** Suspended callers: in the sweep that makes room for a new entry, or by the entry they wait for. */
  datatype Caller =
    | AwaitsSweep
    | AwaitsInit(entry: nat)
    | AwaitsEviction(entry: nat)
    | HasSession(entry: nat)

  /** An eviction between its two checks, or after it ended and before the flag is cleared. */
  datatype Eviction = Persisting(entry: nat) | Ended(entry: nat)

  /** Entries ever created; `current` is the one in the map. Every caller wants a lease. */
  datatype Cache = Cache(current: Option<nat>, entries: seq<Entry>, leases: seq<Lease>, callers: seq<Caller>, evictions: seq<Eviction>)

  /** `full` says that the other rooms fill the cache. */
  datatype Action =
    | Acquires(full: bool)
    | InitSucceeds(entry: nat)
    | InitFails(entry: nat)
    | CallerResumes(i: nat, full: bool)
    | SweepFails(i: nat)
    | EvictionFails(i: nat)
    | Releases(i: nat)
    | StartsEviction
    | PersistReturns(i: nat, ok: bool)
    | FlagCleared(i: nat)
    | Queues(entry: nat)
    | Dequeues(entry: nat)

  function Without<T>(s: seq<T>, i: nat): seq<T>
    requires i < |s|
  {
    s[..i] + s[i + 1..]
  }

  /** `session` from the top of its loop to its next await: the map is looked up once. */
  function Asked(c: Cache, full: bool): Cache {
    if c.current.Some? && c.current.value < |c.entries| then
      var e := c.current.value;
      if c.entries[e].evicting then c.(callers := c.callers + [AwaitsEviction(e)])
      else c.(callers := c.callers + [AwaitsInit(e)])
    else if full then c.(callers := c.callers + [AwaitsSweep])
    else Created(c)
  }

  /** A new entry goes into the map, whatever the map holds by now. */
  function Created(c: Cache): Cache {
    c.(current := Some(|c.entries|), entries := c.entries + [Entry(0, true, false, false, 0)], callers := c.callers + [AwaitsInit(|c.entries|)])
  }

  /** A failed initialisation rejects everybody who waited for it and takes the entry out of the map. */
  function OthersThan(callers: seq<Caller>, e: nat): seq<Caller> {
    if callers == [] then []
    else (if callers[0] == AwaitsInit(e) then [] else [callers[0]]) + OthersThan(callers[1..], e)
  }

  function Busy(e: Entry): bool { e.initializing || e.activeConnections > 0 || e.queued > 0 }

  predicate CanResume(c: Cache, caller: Caller) {
    match caller
    case AwaitsSweep => true
    case AwaitsInit(e) => e < |c.entries| && c.entries[e].ready
    case AwaitsEviction(e) => e < |c.entries| && (!c.entries[e].evicting || c.current != Some(e))
    case HasSession(e) => e < |c.entries|
  }

  predicate Enabled(c: Cache, a: Action) {
    match a
    case Acquires(_) => true
    case InitSucceeds(e) => e < |c.entries| && !c.entries[e].ready
    case InitFails(e) => e < |c.entries| && !c.entries[e].ready
    case CallerResumes(i, _) => i < |c.callers| && CanResume(c, c.callers[i])
    case SweepFails(i) => i < |c.callers| && c.callers[i].AwaitsSweep?
    case EvictionFails(i) => i < |c.callers| && c.callers[i].AwaitsEviction?
    case Releases(i) => i < |c.leases| && c.leases[i].entry < |c.entries|
    case StartsEviction => c.current.Some? && c.current.value < |c.entries| && !c.entries[c.current.value].evicting
    case PersistReturns(i, _) => i < |c.evictions| && c.evictions[i].Persisting? && c.evictions[i].entry < |c.entries|
    case FlagCleared(i) => i < |c.evictions| && c.evictions[i].Ended? && c.evictions[i].entry < |c.entries|
    case Queues(e) => e < |c.entries|
    case Dequeues(e) => e < |c.entries| && c.entries[e].queued > 0
  }

  function Left(c: Cache, i: nat): Cache
    requires i < |c.callers|
  {
    c.(callers := Without(c.callers, i))
  }

  function Resumed(c: Cache, i: nat, full: bool): Cache
    requires i < |c.callers| && CanResume(c, c.callers[i])
  {
    match c.callers[i]
    case AwaitsSweep => Created(Left(c, i))
    case AwaitsInit(e) =>
      c.(entries := c.entries[e := c.entries[e].(initializing := false)], callers := c.callers[i := HasSession(e)])
    case AwaitsEviction(_) => Asked(Left(c, i), full)
    case HasSession(e) => if c.current != Some(e) then Asked(Left(c, i), full) else Leased(Left(c, i), e)
  }

  function Leased(c: Cache, e: nat): Cache
    requires e < |c.entries|
  {
    c.(entries := c.entries[e := c.entries[e].(activeConnections := c.entries[e].activeConnections + 1)], leases := c.leases + [Lease(e, false)])
  }

  function Released(c: Cache, i: nat): Cache
    requires i < |c.leases| && c.leases[i].entry < |c.entries|
  {
    var l := c.leases[i];
    if l.released then c
    else
      var marked := c.(leases := c.leases[i := l.(released := true)]);
      if c.current != Some(l.entry) then marked
      else
        var n := c.entries[l.entry].activeConnections;
        marked.(entries := c.entries[l.entry := c.entries[l.entry].(activeConnections := if n > 0 then n - 1 else 0)])
  }

  /** `evict`: a busy room's eviction ends at once, but its flag stays up until the promise settles. */
  function EvictionStarted(c: Cache): Cache
    requires c.current.Some? && c.current.value < |c.entries|
  {
    var e := c.current.value;
    c.(entries := c.entries[e := c.entries[e].(evicting := true)],
       evictions := c.evictions + [if Busy(c.entries[e]) then Ended(e) else Persisting(e)])
  }

  function Persisted(c: Cache, i: nat, ok: bool): Cache
    requires i < |c.evictions| && c.evictions[i].entry < |c.entries|
  {
    var e := c.evictions[i].entry;
    var ended := c.(evictions := c.evictions[i := Ended(e)]);
    if !ok || c.current != Some(e) || Busy(c.entries[e]) then ended else ended.(current := None)
  }

  function Cleared(c: Cache, i: nat): Cache
    requires i < |c.evictions| && c.evictions[i].entry < |c.entries|
  {
    var e := c.evictions[i].entry;
    var done := c.(evictions := Without(c.evictions, i));
    if c.current == Some(e) then done.(entries := c.entries[e := c.entries[e].(evicting := false)]) else done
  }

  function Next(c: Cache, a: Action): Cache
    requires Enabled(c, a)
  {
    match a
    case Acquires(full) => Asked(c, full)
    case InitSucceeds(e) => c.(entries := c.entries[e := c.entries[e].(ready := true)])
    case InitFails(e) => c.(callers := OthersThan(c.callers, e), current := if c.current == Some(e) then None else c.current)
    case CallerResumes(i, full) => Resumed(c, i, full)
    case SweepFails(i) => Left(c, i)
    case EvictionFails(i) => Left(c, i)
    case Releases(i) => Released(c, i)
    case StartsEviction => EvictionStarted(c)
    case PersistReturns(i, ok) => Persisted(c, i, ok)
    case FlagCleared(i) => Cleared(c, i)
    case Queues(e) => c.(entries := c.entries[e := c.entries[e].(queued := c.entries[e].queued + 1)])
    case Dequeues(e) => c.(entries := c.entries[e := c.entries[e].(queued := c.entries[e].queued - 1)])
  }

  // ---- invariant ----

  /** The leases on `e` that were not released. */
  function Outstanding(leases: seq<Lease>, e: nat): nat {
    if leases == [] then 0 else (if leases[0] == Lease(e, false) then 1 else 0) + Outstanding(leases[1..], e)
  }

  ghost predicate EntryOK(c: Cache, e: nat)
    requires e < |c.entries|
  {
    && c.entries[e].activeConnections == Outstanding(c.leases, e)
    && (c.entries[e].activeConnections > 0 ==> c.current == Some(e) && c.entries[e].ready)
  }

  ghost predicate CallerOK(c: Cache, caller: Caller) {
    match caller
    case AwaitsSweep => true
    case AwaitsInit(e) => e < |c.entries|
    case AwaitsEviction(e) => e < |c.entries|
    case HasSession(e) => e < |c.entries| && c.entries[e].ready
  }

  ghost predicate CacheOK(c: Cache) {
    && (c.current.Some? ==> c.current.value < |c.entries|)
    && (forall e :: 0 <= e < |c.entries| ==> EntryOK(c, e))
    && (forall i :: 0 <= i < |c.leases| ==> c.leases[i].entry < |c.entries|)
    && (forall i :: 0 <= i < |c.callers| ==> CallerOK(c, c.callers[i]))
    && (forall i :: 0 <= i < |c.evictions| ==> c.evictions[i].entry < |c.entries|)
  }

  /** Somebody holds a lease on the entry in the map. */
  predicate Held(c: Cache) {
    c.current.Some? && c.current.value < |c.entries| && c.entries[c.current.value].activeConnections > 0
  }

  /** A caller comes back from its sweep and replaces an entry that came into the map, and was leased, meanwhile. */
  predicate Overwrites(c: Cache, a: Action) {
    a.CallerResumes? && a.i < |c.callers| && c.callers[a.i].AwaitsSweep? && Held(c)
  }

  lemma {:induction false} OutstandingAppend(leases: seq<Lease>, l: Lease, e: nat)
    ensures Outstanding(leases + [l], e) == Outstanding(leases, e) + if l == Lease(e, false) then 1 else 0
  {
    if leases == [] { assert leases + [l] == [l]; }
    else {
      assert (leases + [l])[1..] == leases[1..] + [l];
      OutstandingAppend(leases[1..], l, e);
    }
  }

  lemma {:induction false} OutstandingMarked(leases: seq<Lease>, i: nat, e: nat)
    requires i < |leases| && !leases[i].released
    ensures Outstanding(leases, e)
         == Outstanding(leases[i := leases[i].(released := true)], e) + if leases[i].entry == e then 1 else 0
  {
    var marked := leases[i := leases[i].(released := true)];
    if i > 0 {
      assert marked[1..] == leases[1..][i - 1 := leases[i].(released := true)];
      OutstandingMarked(leases[1..], i - 1, e);
    } else {
      assert marked[1..] == leases[1..];
    }
  }

  lemma {:induction false} OutstandingNone(leases: seq<Lease>, e: nat)
    requires forall i :: 0 <= i < |leases| ==> leases[i].entry < e
    ensures Outstanding(leases, e) == 0
  {
    if leases != [] { OutstandingNone(leases[1..], e); }
  }

  /** Creating an entry is right exactly when the one in the map, if any, is not leased. */
  lemma {:induction false} CreatedOK(c: Cache)
    requires CacheOK(c)
    ensures CacheOK(Created(c)) <==> !Held(c)
  {
    var d := Created(c);
    OutstandingNone(c.leases, |c.entries|);
    if Held(c) {
      assert !EntryOK(d, c.current.value);
    } else {
      forall e | 0 <= e < |d.entries| ensures EntryOK(d, e) {
        if e < |c.entries| { assert EntryOK(c, e); }
      }
      forall i | 0 <= i < |d.callers| ensures CallerOK(d, d.callers[i]) {
        if i < |c.callers| { assert CallerOK(c, c.callers[i]); }
      }
    }
  }

  lemma {:induction false} AskedOK(c: Cache, full: bool)
    requires CacheOK(c)
    ensures CacheOK(Asked(c, full))
  {
    CreatedOK(c);
    var d := Asked(c, full);
    if d != Created(c) {
      forall e | 0 <= e < |d.entries| ensures EntryOK(d, e) { assert EntryOK(c, e); }
      forall i | 0 <= i < |d.callers| ensures CallerOK(d, d.callers[i]) {
        if i < |c.callers| { assert CallerOK(c, c.callers[i]); }
      }
    }
  }

  lemma {:induction false} LeftOK(c: Cache, i: nat)
    requires CacheOK(c) && i < |c.callers|
    ensures CacheOK(Left(c, i)) && (Held(Left(c, i)) <==> Held(c))
  {
    var d := Left(c, i);
    forall e | 0 <= e < |d.entries| ensures EntryOK(d, e) { assert EntryOK(c, e); }
    forall x | 0 <= x < |d.callers| ensures CallerOK(d, d.callers[x]) {
      assert d.callers[x] == c.callers[if x < i then x else x + 1];
      assert CallerOK(c, d.callers[x]);
    }
  }

  lemma {:induction false} OthersThanAre(callers: seq<Caller>, e: nat)
    ensures forall c :: c in OthersThan(callers, e) ==> c in callers
  {
    if callers != [] { OthersThanAre(callers[1..], e); }
  }

  lemma {:induction false} LeasedOK(c: Cache, e: nat)
    requires CacheOK(c) && c.current == Some(e) && c.entries[e].ready
    ensures CacheOK(Leased(c, e))
  {
    var d := Leased(c, e);
    forall x | 0 <= x < |d.entries| ensures EntryOK(d, x) {
      assert EntryOK(c, x);
      OutstandingAppend(c.leases, Lease(e, false), x);
    }
    SameEntriesReady(c, d);
  }

  /** Callers stay right while no entry disappears or loses its session. */
  lemma {:induction false} SameEntriesReady(c: Cache, d: Cache)
    requires CacheOK(c) && |c.entries| <= |d.entries|
    requires forall e :: 0 <= e < |c.entries| && c.entries[e].ready ==> d.entries[e].ready
    ensures forall i :: 0 <= i < |c.callers| ==> CallerOK(d, c.callers[i])
  {
    forall i | 0 <= i < |c.callers| ensures CallerOK(d, c.callers[i]) { assert CallerOK(c, c.callers[i]); }
  }

  lemma {:induction false} InitialisedOK(c: Cache, i: nat)
    requires CacheOK(c) && i < |c.callers| && CanResume(c, c.callers[i]) && c.callers[i].AwaitsInit?
    ensures CacheOK(Resumed(c, i, false))
  {
    var e, d := c.callers[i].entry, Resumed(c, i, false);
    forall x | 0 <= x < |d.entries| ensures EntryOK(d, x) { assert EntryOK(c, x); }
    SameEntriesReady(c, d);
  }

  lemma {:induction false} ResumedOK(c: Cache, i: nat, full: bool)
    requires CacheOK(c) && Enabled(c, CallerResumes(i, full))
    ensures CacheOK(Resumed(c, i, full)) <==> !Overwrites(c, CallerResumes(i, full))
  {
    LeftOK(c, i);
    assert CallerOK(c, c.callers[i]);
    match c.callers[i]
    case AwaitsSweep => CreatedOK(Left(c, i));
    case AwaitsInit(_) => InitialisedOK(c, i);
    case AwaitsEviction(_) => AskedOK(Left(c, i), full);
    case HasSession(e) => if c.current == Some(e) { LeasedOK(Left(c, i), e); } else { AskedOK(Left(c, i), full); }
  }

  lemma {:induction false} ReleasedOK(c: Cache, i: nat)
    requires CacheOK(c) && Enabled(c, Releases(i))
    ensures CacheOK(Released(c, i))
  {
    var d := Released(c, i);
    if !c.leases[i].released {
      forall x | 0 <= x < |d.entries| ensures EntryOK(d, x) {
        assert EntryOK(c, x);
        OutstandingMarked(c.leases, i, x);
      }
      SameEntriesReady(c, d);
    }
  }

  lemma {:induction false} InitFailsOK(c: Cache, e: nat)
    requires CacheOK(c) && Enabled(c, InitFails(e))
    ensures CacheOK(Next(c, InitFails(e)))
  {
    var d := Next(c, InitFails(e));
    OthersThanAre(c.callers, e);
    forall i | 0 <= i < |d.callers| ensures CallerOK(d, d.callers[i]) {
      assert d.callers[i] in c.callers;
      var k :| 0 <= k < |c.callers| && c.callers[k] == d.callers[i];
      assert CallerOK(c, c.callers[k]);
    }
    forall x | 0 <= x < |d.entries| ensures EntryOK(d, x) { assert EntryOK(c, x); }
  }

  /** The second check of an eviction lets only a room without leases go. */
  lemma {:induction false} PersistedOK(c: Cache, i: nat, ok: bool)
    requires CacheOK(c) && Enabled(c, PersistReturns(i, ok))
    ensures CacheOK(Persisted(c, i, ok))
  {
    var d := Persisted(c, i, ok);
    forall x | 0 <= x < |d.entries| ensures EntryOK(d, x) { assert EntryOK(c, x); }
    forall x | 0 <= x < |d.callers| ensures CallerOK(d, d.callers[x]) { assert CallerOK(c, c.callers[x]); }
  }

  /** Steps on flags and counters of one entry that leave leases and callers alone. */
  lemma {:induction false} FlagsOK(c: Cache, d: Cache)
    requires CacheOK(c) && |d.entries| == |c.entries| && d.current == c.current && d.leases == c.leases && d.callers == c.callers
    requires forall e :: 0 <= e < |c.entries| ==> d.entries[e].activeConnections == c.entries[e].activeConnections && (c.entries[e].ready ==> d.entries[e].ready)
    requires forall i :: 0 <= i < |d.evictions| ==> d.evictions[i].entry < |d.entries|
    ensures CacheOK(d)
  {
    forall x | 0 <= x < |d.entries| ensures EntryOK(d, x) { assert EntryOK(c, x); }
    SameEntriesReady(c, d);
  }

  /** Of all steps only the return from a sweep onto a leased entry breaks the accounts. */
  lemma {:induction false} StepOK(c: Cache, a: Action)
    requires CacheOK(c) && Enabled(c, a)
    ensures CacheOK(Next(c, a)) <==> !Overwrites(c, a)
  {
    match a
    case Acquires(full) => AskedOK(c, full);
    case CallerResumes(i, full) => ResumedOK(c, i, full);
    case SweepFails(i) => LeftOK(c, i);
    case EvictionFails(i) => LeftOK(c, i);
    case Releases(i) => ReleasedOK(c, i);
    case InitFails(e) => InitFailsOK(c, e);
    case PersistReturns(i, ok) => PersistedOK(c, i, ok);
    case _ => FlagsOK(c, Next(c, a));
  }

  ghost predicate Run(caches: seq<Cache>, actions: seq<Action>) {
    && |caches| == |actions| + 1 && caches[0] == Cache(None, [], [], [], [])
    && forall n {:trigger actions[n]} :: 0 <= n < |actions| ==> Enabled(caches[n], actions[n]) && caches[n + 1] == Next(caches[n], actions[n])
  }

  /** A session somebody holds a lease on is the one in the map. */
  ghost predicate Protected(c: Cache) {
    forall i :: 0 <= i < |c.leases| && !c.leases[i].released ==> c.current == Some(c.leases[i].entry)
  }

  lemma {:induction false} AccountsProtect(c: Cache)
    requires CacheOK(c)
    ensures Protected(c)
  {
    forall i | 0 <= i < |c.leases| && !c.leases[i].released ensures c.current == Some(c.leases[i].entry) {
      OutstandingMarked(c.leases, i, c.leases[i].entry);
      assert EntryOK(c, c.leases[i].entry);
    }
  }

  lemma {:induction false} OutstandingSome(leases: seq<Lease>, e: nat)
    requires Outstanding(leases, e) > 0
    ensures exists i :: 0 <= i < |leases| && leases[i] == Lease(e, false)
  {
    if leases[0] != Lease(e, false) {
      OutstandingSome(leases[1..], e);
      var i :| 0 <= i < |leases[1..]| && leases[1..][i] == Lease(e, false);
      assert leases[i + 1] == Lease(e, false);
    }
  }

  /** The overwritten entry is leased and no longer in the map. */
  lemma {:induction false} OverwritingUnprotects(c: Cache, a: Action)
    requires CacheOK(c) && Enabled(c, a) && Overwrites(c, a)
    ensures !Protected(Next(c, a))
  {
    var e := c.current.value;
    assert EntryOK(c, e);
    OutstandingSome(c.leases, e);
    var i :| 0 <= i < |c.leases| && c.leases[i] == Lease(e, false);
    assert Next(c, a).leases[i] == Lease(e, false);
  }

  /**
   * Leases protect the live session, in every state of a run and with exact counts, if and only if no caller of the
   * run came back from a sweep onto an entry that was leased: the map is not looked up again before the insertion.
   */
  lemma {:induction false} LeasesProtect(caches: seq<Cache>, actions: seq<Action>, n: nat)
    requires Run(caches, actions) && n <= |actions|
    ensures (forall k :: 0 <= k <= n ==> Protected(caches[k])) <==> forall k {:trigger actions[k]} :: 0 <= k < n ==> !Overwrites(caches[k], actions[k])
    ensures (forall k {:trigger actions[k]} :: 0 <= k < n ==> !Overwrites(caches[k], actions[k])) ==> CacheOK(caches[n])
  {
    if n == 0 { AccountsProtect(caches[0]); return; }
    LeasesProtect(caches, actions, n - 1);
    var c, a := caches[n - 1], actions[n - 1];
    if forall k {:trigger actions[k]} :: 0 <= k < n - 1 ==> !Overwrites(caches[k], actions[k]) {
      StepOK(c, a);
      if Overwrites(c, a) { OverwritingUnprotects(c, a); } else { AccountsProtect(caches[n]); }
    }
  }

  // ---- conditions on the callers ----

  predicate Sweeping(c: Cache) { AwaitsSweep in c.callers }

  /** The step makes somebody look the room up: a new caller, or one that has to ask again. */
  predicate Asks(c: Cache, a: Action) {
    a.Acquires? ||
    (a.CallerResumes? && a.i < |c.callers| &&
      (c.callers[a.i].AwaitsEviction? || (c.callers[a.i].HasSession? && c.current != Some(c.callers[a.i].entry))))
  }

  ghost predicate OneSweep(c: Cache) {
    && (Sweeping(c) ==> c.current.None?) && (c.current.Some? ==> c.current.value < |c.entries|)
    && forall i, j :: 0 <= i < j < |c.callers| && c.callers[i].AwaitsSweep? ==> !c.callers[j].AwaitsSweep?
  }

  lemma {:induction false} OneSweepLeft(c: Cache, i: nat)
    requires OneSweep(c) && i < |c.callers|
    ensures OneSweep(Left(c, i)) && (c.callers[i].AwaitsSweep? ==> !Sweeping(Left(c, i)))
    ensures !Sweeping(c) ==> !Sweeping(Left(c, i))
  {
    var d := Left(c, i);
    assert forall x :: 0 <= x < |d.callers| ==> d.callers[x] == c.callers[if x < i then x else x + 1];
    if Sweeping(d) {
      var x :| 0 <= x < |d.callers| && d.callers[x] == AwaitsSweep;
      assert c.callers[if x < i then x else x + 1] in c.callers;
    }
  }

  lemma {:induction false} OneSweepAsked(c: Cache, full: bool)
    requires OneSweep(c) && !Sweeping(c)
    ensures OneSweep(Asked(c, full))
  {
    forall i | 0 <= i < |c.callers| ensures !c.callers[i].AwaitsSweep? { assert c.callers[i] in c.callers; }
  }

  lemma {:induction false} OneSweepFails(c: Cache, e: nat)
    requires OneSweep(c)
    ensures OneSweep(c.(callers := OthersThan(c.callers, e), current := if c.current == Some(e) then None else c.current))
  {
    OthersThanAre(c.callers, e);
    SweepsStayApart(c.callers, e);
  }

  lemma {:induction false} SweepsStayApart(callers: seq<Caller>, e: nat)
    requires forall i, j :: 0 <= i < j < |callers| && callers[i].AwaitsSweep? ==> !callers[j].AwaitsSweep?
    ensures forall i, j :: 0 <= i < j < |OthersThan(callers, e)| && OthersThan(callers, e)[i].AwaitsSweep? ==> !OthersThan(callers, e)[j].AwaitsSweep?
  {
    if callers != [] {
      SweepsStayApart(callers[1..], e);
      OthersThanAre(callers[1..], e);
      var rest := OthersThan(callers[1..], e);
      forall j | 0 <= j < |rest| && callers[0].AwaitsSweep? ensures !rest[j].AwaitsSweep? {
        assert rest[j] in rest;
        var k :| 0 <= k < |callers[1..]| && callers[1..][k] == rest[j];
        assert callers[k + 1] == rest[j];
      }
    }
  }

  lemma {:induction false} OneSweepStep(c: Cache, a: Action)
    requires OneSweep(c) && Enabled(c, a) && (Asks(c, a) ==> !Sweeping(c))
    ensures OneSweep(Next(c, a)) && !Overwrites(c, a)
  {
    match a
    case Acquires(full) => OneSweepAsked(c, full);
    case CallerResumes(i, full) =>
      assert c.callers[i] in c.callers;
      OneSweepLeft(c, i);
      if Asks(c, a) { OneSweepAsked(Left(c, i), full); }
      else if c.callers[i].AwaitsSweep? { assert !Sweeping(Left(c, i)); OneSweepAsked(Left(c, i).(current := None), false); }
      else if c.callers[i].AwaitsInit? { OneSweepInit(c, i); }
    case SweepFails(i) => OneSweepLeft(c, i);
    case InitFails(e) => OneSweepFails(c, e);
    case _ =>
  }

  lemma {:induction false} OneSweepInit(c: Cache, i: nat)
    requires OneSweep(c) && i < |c.callers| && c.callers[i].AwaitsInit? && CanResume(c, c.callers[i])
    ensures OneSweep(Resumed(c, i, false))
  {
    var d := Resumed(c, i, false);
    if Sweeping(d) {
      var x :| 0 <= x < |d.callers| && d.callers[x] == AwaitsSweep;
      assert c.callers[x] in c.callers;
    }
  }

  /** While nobody asks for a room that another caller is making space for, its leases protect it. */
  lemma {:induction false} ApartCallsProtect(caches: seq<Cache>, actions: seq<Action>, n: nat)
    requires Run(caches, actions) && n <= |actions|
    requires forall k {:trigger actions[k]} :: 0 <= k < n && Asks(caches[k], actions[k]) ==> !Sweeping(caches[k])
    ensures Protected(caches[n]) && CacheOK(caches[n])
  {
    NoOverwriting(caches, actions, n);
    LeasesProtect(caches, actions, n);
  }

  lemma {:induction false} NoOverwriting(caches: seq<Cache>, actions: seq<Action>, n: nat)
    requires Run(caches, actions) && n <= |actions|
    requires forall k {:trigger actions[k]} :: 0 <= k < n && Asks(caches[k], actions[k]) ==> !Sweeping(caches[k])
    ensures OneSweep(caches[n]) && forall k {:trigger actions[k]} :: 0 <= k < n ==> !Overwrites(caches[k], actions[k])
  {
    if n > 0 {
      NoOverwriting(caches, actions, n - 1);
      OneSweepStep(caches[n - 1], actions[n - 1]);
    }
  }

  function Overlap(): seq<Action> {
    [Acquires(true), Acquires(true), CallerResumes(0, true), InitSucceeds(0), CallerResumes(1, true), CallerResumes(1, true), CallerResumes(0, true)]
  }

  function Stages(): seq<Cache> {
    var start := Entry(0, true, false, false, 0);
    var used := Entry(0, false, false, true, 0);
    var leased := used.(activeConnections := 1);
    [Cache(None, [], [], [], []),
     Cache(None, [], [], [AwaitsSweep], []),
     Cache(None, [], [], [AwaitsSweep, AwaitsSweep], []),
     Cache(Some(0), [start], [], [AwaitsSweep, AwaitsInit(0)], []),
     Cache(Some(0), [start.(ready := true)], [], [AwaitsSweep, AwaitsInit(0)], []),
     Cache(Some(0), [used], [], [AwaitsSweep, HasSession(0)], []),
     Cache(Some(0), [leased], [Lease(0, false)], [AwaitsSweep], []),
     Cache(Some(1), [leased, start], [Lease(0, false)], [AwaitsInit(1)], [])]
  }

  lemma {:induction false} StagesFollow(k: nat)
    requires k < 7
    ensures Enabled(Stages()[k], Overlap()[k]) && Stages()[k + 1] == Next(Stages()[k], Overlap()[k])
  {
    if k == 0 || k == 1 { }
    else if k == 2 || k == 3 { }
    else if k == 4 || k == 5 { }
    else { }
  }

  /**
   * Two callers ask for the room on a full cache. The first returns from its sweep, creates the room and leases it;
   * the second returns later, and its new entry replaces the leased one, whose release is then ignored.
   */
  lemma {:induction false} SecondSweepReplacesLeased()
    ensures Run(Stages(), Overlap())
    ensures var c := Stages()[7];
      !Protected(c) && |c.leases| == 1 && c.leases[0] == Lease(0, false) && c.current == Some(1) && Released(c, 0).entries == c.entries
  {
    forall k {:trigger Overlap()[k]} | 0 <= k < 7 ensures Enabled(Stages()[k], Overlap()[k]) && Stages()[k + 1] == Next(Stages()[k], Overlap()[k]) {
      StagesFollow(k);
    }
    var c := Stages()[7];
    assert !c.leases[0].released && c.current != Some(c.leases[0].entry);
  }

  // ---- the object ----

  /** The synchronous parts of `acquireRoom`, `release`, `evict` and `finishEviction` on one room. */
  class Room {
    var current: Option<nat>
    var entries: seq<Entry>
    var leases: seq<Lease>
    var callers: seq<Caller>
    var evictions: seq<Eviction>

    ghost function View(): Cache
      reads this
    {
      Cache(current, entries, leases, callers, evictions)
    }

    constructor ()
      ensures View() == Cache(None, [], [], [], [])
    {
      current, entries, leases, callers, evictions := None, [], [], [], [];
    }

    method AskForSession(full: bool)
      requires CacheOK(View())
      modifies this
      ensures View() == Asked(old(View()), full) && CacheOK(View())
    {
      AskedOK(View(), full);
      if current.Some? {
        var e := current.value;
        callers := callers + [if entries[e].evicting then AwaitsEviction(e) else AwaitsInit(e)];
        return;
      }
      if full { callers := callers + [AwaitsSweep]; return; }
      Create();
    }

    method Create()
      modifies this
      ensures View() == Created(old(View()))
    {
      current := Some(|entries|);
      callers := callers + [AwaitsInit(|entries|)];
      entries := entries + [Entry(0, true, false, false, 0)];
    }

    /** After the awaited sweep the entry is inserted without a second lookup. */
    method ReturnFromSweep(i: nat)
      requires CacheOK(View()) && i < |callers| && callers[i].AwaitsSweep?
      modifies this
      ensures View() == Created(Left(old(View()), i))
      ensures CacheOK(View()) <==> !Held(old(View()))
    {
      LeftOK(View(), i);
      callers := callers[..i] + callers[i + 1..];
      CreatedOK(View());
      Create();
    }

    /** The end of `acquireRoom`: the session found may have left the map in the meantime. */
    method TakeLease(i: nat, full: bool)
      requires CacheOK(View()) && Enabled(View(), CallerResumes(i, full)) && callers[i].HasSession?
      modifies this
      ensures View() == Resumed(old(View()), i, full) && CacheOK(View())
    {
      ResumedOK(View(), i, full);
      LeftOK(View(), i);
      var e := callers[i].entry;
      callers := callers[..i] + callers[i + 1..];
      if current != Some(e) { AskForSession(full); return; }
      entries := entries[e := entries[e].(activeConnections := entries[e].activeConnections + 1)];
      leases := leases + [Lease(e, false)];
    }

    method Release(i: nat)
      requires CacheOK(View()) && i < |leases|
      modifies this
      ensures View() == Released(old(View()), i) && CacheOK(View())
    {
      ReleasedOK(View(), i);
      var l := leases[i];
      if l.released { return; }
      leases := leases[i := l.(released := true)];
      if current != Some(l.entry) { return; }
      var n := entries[l.entry].activeConnections;
      entries := entries[l.entry := entries[l.entry].(activeConnections := if n > 0 then n - 1 else 0)];
    }

    /** The second half of `finishEviction`, after the snapshot was saved. */
    method FinishEviction(i: nat, ok: bool) returns (evicted: bool)
      requires CacheOK(View()) && Enabled(View(), PersistReturns(i, ok))
      modifies this
      ensures View() == Persisted(old(View()), i, ok) && CacheOK(View())
      ensures evicted ==> forall k :: 0 <= k < |leases| ==> leases[k].released || leases[k].entry != evictions[i].entry
    {
      StepOK(View(), PersistReturns(i, ok));
      var e := evictions[i].entry;
      evictions := evictions[i := Ended(e)];
      if !ok || current != Some(e) || Busy(entries[e]) { return false; }
      assert EntryOK(old(View()), e);
      NoneOutstanding(old(View()), e);
      current := None;
      return true;
    }
  }

  lemma {:induction false} NoneOutstanding(c: Cache, e: nat)
    requires e < |c.entries| && EntryOK(c, e) && c.entries[e].activeConnections == 0
    ensures forall k :: 0 <= k < |c.leases| ==> c.leases[k].released || c.leases[k].entry != e
  {
    forall k | 0 <= k < |c.leases| && !c.leases[k].released ensures c.leases[k].entry != e {
      OutstandingMarked(c.leases, k, e);
    }
  }
}
