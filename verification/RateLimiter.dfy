/** `TokenBucketLimiter`: one bucket of tokens a key, refilled over time, the number of buckets bounded. */
module RateLimiter {
  import opened Distinct

  const LIMIT := 10000
  const STALE := 300000

  /** Times are milliseconds. */
  datatype Bucket = Bucket(tokens: real, updatedAt: int, lastSeenAt: int)

  /** A `Map` iterates in insertion order: the buckets are listed in it. */
  datatype Entry = Entry(key: string, bucket: Bucket)

  datatype Call = Call(key: string, rate: real, burst: real, now: int)

  function Keys(entries: seq<Entry>): seq<string> {
    seq(|entries|, i requires 0 <= i < |entries| => entries[i].key)
  }

  function Min(a: real, b: real): real { if a <= b then a else b }

  /** Tokens refilled in `ms` milliseconds, one at a time; `RefillIsRate` gives the closed form. */
  function Refill(rate: real, ms: int): real
    decreases if ms >= 0 then ms else -ms
  {
    if ms == 0 then 0.0
    else if ms > 0 then Refill(rate, ms - 1) + rate / 1000.0
    else Refill(rate, ms + 1) - rate / 1000.0
  }

  lemma {:induction false} RefillIsRate(rate: real, ms: int)
    ensures Refill(rate, ms) == ms as real / 1000.0 * rate
    decreases if ms >= 0 then ms else -ms
  {
    if ms > 0 { RefillIsRate(rate, ms - 1); }
    if ms < 0 { RefillIsRate(rate, ms + 1); }
  }

  lemma {:induction false} RefillAdds(rate: real, a: int, b: nat)
    ensures Refill(rate, a + b) == Refill(rate, a) + Refill(rate, b)
    decreases b
  {
    if b > 0 { RefillAdds(rate, a, b - 1); }
  }

  lemma {:induction false} RefillRises(rate: real, ms: nat)
    requires rate >= 0.0
    ensures Refill(rate, ms) >= 0.0
  {
    if ms > 0 { RefillRises(rate, ms - 1); }
  }

  function Refilled(b: Bucket, rate: real, burst: real, now: int): real {
    Min(burst, b.tokens + Refill(rate, now - b.updatedAt))
  }

  function Taken(b: Bucket, rate: real, burst: real, now: int): (Bucket, bool) {
    var tokens := Refilled(b, rate, burst, now);
    if tokens < 1.0 then (Bucket(tokens, now, now), false) else (Bucket(tokens - 1.0, now, now), true)
  }

  // ---- pruning ----

  function Recent(entries: seq<Entry>, now: int): seq<Entry> {
    if entries == [] then []
    else (if now - entries[0].bucket.lastSeenAt > STALE then [] else [entries[0]]) + Recent(entries[1..], now)
  }

  /** The first of the entries seen longest ago. */
  function Oldest(entries: seq<Entry>): (i: nat)
    requires entries != []
    ensures i < |entries|
    ensures forall k :: 0 <= k < |entries| ==> entries[i].bucket.lastSeenAt <= entries[k].bucket.lastSeenAt
    ensures forall k :: 0 <= k < i ==> entries[i].bucket.lastSeenAt < entries[k].bucket.lastSeenAt
  {
    if |entries| == 1 then 0
    else
      var i := Oldest(entries[..|entries| - 1]);
      assert forall k :: 0 <= k < |entries| - 1 ==> entries[..|entries| - 1][k] == entries[k];
      if entries[|entries| - 1].bucket.lastSeenAt < entries[i].bucket.lastSeenAt then |entries| - 1 else i
  }

  function Removed(entries: seq<Entry>, i: nat): (r: seq<Entry>)
    requires i < |entries|
    ensures |r| == |entries| - 1
  {
    entries[..i] + entries[i + 1..]
  }

  function Trimmed(entries: seq<Entry>): (r: seq<Entry>)
    ensures |r| <= LIMIT
    decreases |entries|
  {
    if |entries| <= LIMIT then entries else Trimmed(Removed(entries, Oldest(entries)))
  }

  function Pruned(entries: seq<Entry>, now: int): (r: seq<Entry>)
    ensures |r| <= LIMIT
  {
    if |entries| <= LIMIT then entries else Trimmed(Recent(entries, now))
  }

  function Find(entries: seq<Entry>, key: string): int { IndexOf(Keys(entries), key) }

  /** The bucket of a key, if it has one. */
  function Stored(entries: seq<Entry>, c: Call): Bucket {
    if Find(entries, c.key) >= 0 then entries[Find(entries, c.key)].bucket else Bucket(c.burst, c.now, c.now)
  }

  function Opened(entries: seq<Entry>, c: Call): seq<Entry> {
    if Find(entries, c.key) >= 0 then entries
    else Pruned(entries + [Entry(c.key, Bucket(c.burst, c.now, c.now))], c.now)
  }

  function Put(entries: seq<Entry>, key: string, b: Bucket): seq<Entry> {
    if Find(entries, key) >= 0 then entries[Find(entries, key) := Entry(key, b)] else entries
  }

  function Allowed(entries: seq<Entry>, c: Call): (seq<Entry>, bool) {
    var (b, ok) := Taken(Stored(entries, c), c.rate, c.burst, c.now);
    (Put(Opened(entries, c), c.key, b), ok)
  }

  class TokenBucketLimiter {
    var buckets: seq<Entry>

    constructor ()
      ensures buckets == []
    {
      buckets := [];
    }

    method DropStale(now: int)
      modifies this
      ensures buckets == Recent(old(buckets), now)
    {
      var kept: seq<Entry> := [];
      for i := 0 to |buckets|
        invariant buckets == old(buckets) && kept + Recent(buckets[i..], now) == Recent(buckets, now)
      {
        assert buckets[i..][1..] == buckets[i + 1..];
        if !(now - buckets[i].bucket.lastSeenAt > STALE) { kept := kept + [buckets[i]]; }
      }
      assert buckets[|buckets|..] == [];
      buckets := kept;
    }

    method DropOldest()
      requires buckets != []
      modifies this
      ensures buckets == Removed(old(buckets), Oldest(old(buckets)))
    {
      var oldest := 0;
      for k := 1 to |buckets|
        invariant buckets == old(buckets) && oldest < k && oldest == Oldest(buckets[..k])
      {
        assert buckets[..k + 1][..k] == buckets[..k];
        if buckets[k].bucket.lastSeenAt < buckets[oldest].bucket.lastSeenAt { oldest := k; }
      }
      assert buckets[..|buckets|] == buckets;
      buckets := buckets[..oldest] + buckets[oldest + 1..];
    }

    method Prune(now: int)
      modifies this
      ensures buckets == Pruned(old(buckets), now)
    {
      if |buckets| <= LIMIT { return; }
      DropStale(now);
      while |buckets| > LIMIT
        invariant Trimmed(buckets) == Trimmed(Recent(old(buckets), now))
        decreases |buckets|
      {
        DropOldest();
      }
    }

    /** The keys are digests, never the empty string. */
    method Allow(key: string, rate: real, burst: real, now: int) returns (ok: bool)
      requires key != ""
      modifies this
      ensures (buckets, ok) == Allowed(old(buckets), Call(key, rate, burst, now))
    {
      var i := Find(buckets, key);
      var bucket := Bucket(burst, now, now);
      if i >= 0 { bucket := buckets[i].bucket; }
      else {
        buckets := buckets + [Entry(key, bucket)];
        Prune(now);
      }
      RefillIsRate(rate, now - bucket.updatedAt);
      var tokens := Min(burst, bucket.tokens + (now - bucket.updatedAt) as real / 1000.0 * rate);
      ok := tokens >= 1.0;
      var at := Find(buckets, key);
      if at >= 0 { buckets := buckets[at := Entry(key, Bucket(if ok then tokens - 1.0 else tokens, now, now))]; }
    }
  }

  // ---- which buckets go ----

  lemma {:induction false} RecentMembers(entries: seq<Entry>, now: int)
    ensures forall e :: e in Recent(entries, now) <==> e in entries && now - e.bucket.lastSeenAt <= STALE
    ensures |Recent(entries, now)| <= |entries|
    ensures entries != [] && now - entries[|entries| - 1].bucket.lastSeenAt <= STALE ==>
      Recent(entries, now) != [] && Recent(entries, now)[|Recent(entries, now)| - 1] == entries[|entries| - 1]
  {
    if entries != [] {
      assert entries == [entries[0]] + entries[1..];
      RecentMembers(entries[1..], now);
    }
  }

  /** Trimming keeps the last entry, if none was seen later than it. */
  lemma {:induction false} TrimmedKeepsLast(entries: seq<Entry>)
    requires entries != [] && forall i :: 0 <= i < |entries| ==> entries[i].bucket.lastSeenAt <= entries[|entries| - 1].bucket.lastSeenAt
    ensures Trimmed(entries) != [] && Trimmed(entries)[|Trimmed(entries)| - 1] == entries[|entries| - 1]
    ensures forall e :: e in Trimmed(entries) ==> e in entries
    decreases |entries|
  {
    if |entries| > LIMIT {
      var i := Oldest(entries);
      var rest := Removed(entries, i);
      assert i < |entries| - 1;
      assert rest[|rest| - 1] == entries[|entries| - 1];
      forall k | 0 <= k < |rest| ensures rest[k] in entries { assert rest[k] == entries[if k < i then k else k + 1]; }
      TrimmedKeepsLast(rest);
    }
  }

  /** Under a clock that does not run backwards the bucket just inserted survives, and at most 10,000 remain. */
  lemma {:induction false} InsertedSurvives(entries: seq<Entry>, c: Call)
    requires forall i :: 0 <= i < |entries| ==> entries[i].bucket.lastSeenAt <= c.now
    requires Find(entries, c.key) < 0
    ensures Opened(entries, c) != [] && Opened(entries, c)[|Opened(entries, c)| - 1] == Entry(c.key, Bucket(c.burst, c.now, c.now))
    ensures |Opened(entries, c)| <= LIMIT && forall e :: e in Opened(entries, c) ==> e in entries || e == Entry(c.key, Bucket(c.burst, c.now, c.now))
  {
    var added := entries + [Entry(c.key, Bucket(c.burst, c.now, c.now))];
    if |added| > LIMIT {
      RecentMembers(added, c.now);
      var recent := Recent(added, c.now);
      forall i | 0 <= i < |recent| ensures recent[i].bucket.lastSeenAt <= c.now { assert recent[i] in added; }
      TrimmedKeepsLast(recent);
    }
  }

  // ---- the rate over a window ----

  /** Tokens that `key` could draw on at time t. */
  function Available(entries: seq<Entry>, key: string, rate: real, burst: real, t: int): real {
    if Find(entries, key) >= 0 then Refilled(entries[Find(entries, key)].bucket, rate, burst, t) else burst
  }

  ghost predicate Clocked(entries: seq<Entry>, t: int) {
    && NoDup(Keys(entries))
    && forall i :: 0 <= i < |entries| ==> entries[i].bucket.updatedAt <= t && entries[i].bucket.lastSeenAt <= t
  }

  function Grants(entries: seq<Entry>, calls: seq<Call>, key: string): nat
    decreases |calls|
  {
    if calls == [] then 0
    else
      var (next, ok) := Allowed(entries, calls[0]);
      Granted(calls[0], key, ok) + Grants(next, calls[1..], key)
  }

  function Granted(c: Call, key: string, ok: bool): nat { if c.key == key && ok then 1 else 0 }

  function AfterCalls(entries: seq<Entry>, calls: seq<Call>): seq<Entry>
    decreases |calls|
  {
    if calls == [] then entries else AfterCalls(Allowed(entries, calls[0]).0, calls[1..])
  }

  /** Once `key` has a bucket in this run, no call prunes it. */
  ghost predicate Unpruned(entries: seq<Entry>, calls: seq<Call>, key: string)
    decreases |calls|
  {
    calls != [] ==>
      var next := Allowed(entries, calls[0]).0;
      (Find(entries, key) >= 0 ==> Find(next, key) >= 0) && Unpruned(next, calls[1..], key)
  }

  /** The clock does not run backwards, and `key` is always asked about with the same rate and burst. */
  ghost predicate Steady(calls: seq<Call>, key: string, rate: real, burst: real, t: int)
    decreases |calls|
  {
    calls != [] ==>
      && calls[0].now >= t && (calls[0].key == key ==> calls[0].rate == rate && calls[0].burst == burst)
      && Steady(calls[1..], key, rate, burst, calls[0].now)
  }

  function EndOf(calls: seq<Call>, t: int): int { if calls == [] then t else calls[|calls| - 1].now }

  lemma {:induction false} FindAt(entries: seq<Entry>, i: nat)
    requires NoDup(Keys(entries)) && i < |entries|
    ensures Find(entries, entries[i].key) == i
  {
    IndexOfAt(Keys(entries), i);
  }

  /** Pruning leaves distinct keys, each with the bucket it had. */
  lemma {:induction false} TrimmedDistinct(entries: seq<Entry>)
    requires NoDup(Keys(entries))
    ensures NoDup(Keys(Trimmed(entries))) && forall e :: e in Trimmed(entries) ==> e in entries
    decreases |entries|
  {
    if |entries| > LIMIT {
      var i := Oldest(entries);
      var rest := Removed(entries, i);
      forall j, k | 0 <= j < k < |rest| ensures Keys(rest)[j] != Keys(rest)[k] {
        assert Keys(entries)[if j < i then j else j + 1] != Keys(entries)[if k < i then k else k + 1];
      }
      forall k | 0 <= k < |rest| ensures rest[k] in entries { assert rest[k] == entries[if k < i then k else k + 1]; }
      TrimmedDistinct(rest);
    }
  }

  lemma {:induction false} DistinctCons(e: Entry, rest: seq<Entry>)
    ensures NoDup(Keys([e] + rest)) <==> NoDup(Keys(rest)) && forall x :: x in rest ==> x.key != e.key
  {
    var all := [e] + rest;
    assert Keys(all) == [e.key] + Keys(rest);
    if NoDup(Keys(all)) {
      forall j, k | 0 <= j < k < |rest| ensures Keys(rest)[j] != Keys(rest)[k] { assert Keys(all)[j + 1] != Keys(all)[k + 1]; }
      forall x | x in rest ensures x.key != e.key {
        var n :| 0 <= n < |rest| && rest[n] == x;
        assert Keys(all)[0] != Keys(all)[n + 1];
      }
    }
  }

  lemma {:induction false} RecentDistinct(entries: seq<Entry>, now: int)
    requires NoDup(Keys(entries))
    ensures NoDup(Keys(Recent(entries, now)))
  {
    if entries != [] {
      var rest := entries[1..];
      assert entries == [entries[0]] + rest;
      DistinctCons(entries[0], rest);
      RecentDistinct(rest, now);
      RecentMembers(rest, now);
      DistinctCons(entries[0], Recent(rest, now));
      assert Recent(entries, now) == Recent(rest, now) || Recent(entries, now) == [entries[0]] + Recent(rest, now);
    }
  }

  lemma {:induction false} OpenedDistinct(entries: seq<Entry>, c: Call)
    requires NoDup(Keys(entries))
    ensures NoDup(Keys(Opened(entries, c)))
    ensures forall e :: e in Opened(entries, c) ==> e in entries || e == Entry(c.key, Bucket(c.burst, c.now, c.now))
  {
    if Find(entries, c.key) < 0 {
      var added := entries + [Entry(c.key, Bucket(c.burst, c.now, c.now))];
      forall j, k | 0 <= j < k < |added| ensures Keys(added)[j] != Keys(added)[k] {
        assert Keys(entries)[j] in Keys(entries);
        if k < |entries| { assert Keys(entries)[j] != Keys(entries)[k]; }
      }
      RecentDistinct(added, c.now);
      RecentMembers(added, c.now);
      TrimmedDistinct(Recent(added, c.now));
    }
  }

  lemma {:induction false} PutSame(entries: seq<Entry>, key: string, b: Bucket)
    requires NoDup(Keys(entries))
    ensures Keys(Put(entries, key, b)) == Keys(entries) && |Put(entries, key, b)| == |entries|
    ensures forall i :: 0 <= i < |entries| ==> Put(entries, key, b)[i] == if entries[i].key == key then Entry(key, b) else entries[i]
  {
    forall i | 0 <= i < |entries| && entries[i].key == key ensures i == Find(entries, key) { FindAt(entries, i); }
    if Find(entries, key) < 0 {
      forall i | 0 <= i < |entries| ensures entries[i].key != key { assert Keys(entries)[i] in Keys(entries); }
    }
  }

  lemma {:induction false} AllowedClocked(entries: seq<Entry>, c: Call, t: int)
    requires Clocked(entries, t) && t <= c.now
    ensures Clocked(Allowed(entries, c).0, c.now)
  {
    OpenedDistinct(entries, c);
    var open := Opened(entries, c);
    PutSame(open, c.key, Taken(Stored(entries, c), c.rate, c.burst, c.now).0);
    forall i | 0 <= i < |open| ensures open[i].bucket.updatedAt <= c.now && open[i].bucket.lastSeenAt <= c.now {
      assert open[i] in open;
    }
  }

  /** A call by another key leaves what this key can draw on as it is, unless it prunes the bucket. */
  lemma {:induction false} OtherCall(entries: seq<Entry>, c: Call, t: int, key: string, rate: real, burst: real)
    requires Clocked(entries, t) && t <= c.now && c.key != key
    requires Find(entries, key) >= 0 ==> Find(Allowed(entries, c).0, key) >= 0
    ensures Available(Allowed(entries, c).0, key, rate, burst, c.now) == Available(entries, key, rate, burst, c.now)
  {
    var open, next := Opened(entries, c), Allowed(entries, c).0;
    OpenedDistinct(entries, c);
    PutSame(open, c.key, Taken(Stored(entries, c), c.rate, c.burst, c.now).0);
    var i := Find(next, key);
    if i >= 0 {
      assert next[i].key == key;
      assert next[i] == open[i] && open[i] in open;
      var n :| 0 <= n < |entries| && entries[n] == open[i];
      FindAt(entries, n);
    }
  }

  /** A call by the key itself takes one token exactly when it is granted. */
  lemma {:induction false} OwnCall(entries: seq<Entry>, c: Call, t: int)
    requires Clocked(entries, t) && t <= c.now
    ensures var (next, ok) := Allowed(entries, c);
      && Available(next, c.key, c.rate, c.burst, c.now) == Available(entries, c.key, c.rate, c.burst, c.now) - (if ok then 1.0 else 0.0)
      && (ok <==> Available(entries, c.key, c.rate, c.burst, c.now) >= 1.0)
      && Find(next, c.key) >= 0
  {
    var open, b := Opened(entries, c), Taken(Stored(entries, c), c.rate, c.burst, c.now).0;
    OpenedDistinct(entries, c);
    if Find(entries, c.key) < 0 {
      InsertedSurvives(entries, c);
      FindAt(open, |open| - 1);
    }
    PutSame(open, c.key, b);
    FindAt(Put(open, c.key, b), Find(open, c.key));
  }

  /** One call: what it grants and leaves is covered by what there was and what was refilled up to it. */
  lemma {:induction false} CallBounded(entries: seq<Entry>, c: Call, key: string, rate: real, burst: real, t: int)
    requires Clocked(entries, t) && t <= c.now && rate >= 0.0 && burst >= 0.0 && Available(entries, key, rate, burst, t) >= 0.0
    requires c.key == key ==> c.rate == rate && c.burst == burst
    requires Find(entries, key) >= 0 ==> Find(Allowed(entries, c).0, key) >= 0
    ensures var (next, ok) := Allowed(entries, c);
      && Available(next, key, rate, burst, c.now) >= 0.0
      && Available(next, key, rate, burst, c.now) + Granted(c, key, ok) as real
         <= Available(entries, key, rate, burst, t) + Refill(rate, c.now - t)
  {
    AvailableGrows(entries, key, rate, burst, t, c.now);
    if c.key == key { OwnCall(entries, c, t); } else { OtherCall(entries, c, t, key, rate, burst); }
  }

  lemma {:induction false} EndsLater(calls: seq<Call>, key: string, rate: real, burst: real, t: int)
    requires Steady(calls, key, rate, burst, t) && calls != []
    ensures EndOf(calls, t) == EndOf(calls[1..], calls[0].now) >= calls[0].now >= t
    decreases |calls|
  {
    if |calls| > 1 { EndsLater(calls[1..], key, rate, burst, calls[0].now); }
  }

  /** What is refilled from one call to the next, added up. */
  function Refills(rate: real, calls: seq<Call>, t: int): real
    decreases |calls|
  {
    if calls == [] then 0.0 else Refill(rate, calls[0].now - t) + Refills(rate, calls[1..], calls[0].now)
  }

  lemma {:induction false} RefillsTelescope(calls: seq<Call>, key: string, rate: real, burst: real, t: int)
    requires Steady(calls, key, rate, burst, t)
    ensures Refills(rate, calls, t) == Refill(rate, EndOf(calls, t) - t)
    decreases |calls|
  {
    if calls != [] {
      RefillsTelescope(calls[1..], key, rate, burst, calls[0].now);
      EndsLater(calls, key, rate, burst, t);
      RefillAdds(rate, calls[0].now - t, EndOf(calls, t) - calls[0].now);
    }
  }

  lemma {:induction false} GrantsSplit(entries: seq<Entry>, calls: seq<Call>, key: string)
    requires calls != []
    ensures var (next, ok) := Allowed(entries, calls[0]);
      Grants(entries, calls, key) == Granted(calls[0], key, ok) + Grants(next, calls[1..], key)
  {
  }

  lemma {:induction false} RestIsSteady(entries: seq<Entry>, calls: seq<Call>, key: string, rate: real, burst: real, t: int)
    requires Steady(calls, key, rate, burst, t) && Unpruned(entries, calls, key) && calls != []
    ensures var c, next := calls[0], Allowed(entries, calls[0]).0;
      && c.now >= t && (c.key == key ==> c.rate == rate && c.burst == burst)
      && (Find(entries, key) >= 0 ==> Find(next, key) >= 0)
      && Steady(calls[1..], key, rate, burst, c.now) && Unpruned(next, calls[1..], key)
  {
  }

  lemma {:induction false} Balance(all: nat, one: nat, others: nat, had: real, left: real, first: real, later: real)
    requires all == one + others && left + one as real <= had + first && others as real <= left + later
    ensures all as real <= had + (first + later)
  {
  }

  lemma {:induction false} GrantsUnderRefills(entries: seq<Entry>, calls: seq<Call>, key: string, rate: real, burst: real, t: int)
    requires Clocked(entries, t) && Steady(calls, key, rate, burst, t) && Unpruned(entries, calls, key)
    requires rate >= 0.0 && burst >= 0.0 && Available(entries, key, rate, burst, t) >= 0.0
    ensures Grants(entries, calls, key) as real <= Available(entries, key, rate, burst, t) + Refills(rate, calls, t)
    decreases |calls|
  {
    if calls != [] {
      var c := calls[0];
      var (next, ok) := Allowed(entries, c);
      RestIsSteady(entries, calls, key, rate, burst, t);
      AllowedClocked(entries, c, t);
      CallBounded(entries, c, key, rate, burst, t);
      GrantsUnderRefills(next, calls[1..], key, rate, burst, c.now);
      GrantsSplit(entries, calls, key);
      Balance(Grants(entries, calls, key), Granted(c, key, ok), Grants(next, calls[1..], key),
              Available(entries, key, rate, burst, t), Available(next, key, rate, burst, c.now), Refill(rate, c.now - t), Refills(rate, calls[1..], c.now));
    }
  }

  /** Between two moments at most the tokens at the first, and those refilled since, are given out. */
  lemma {:induction false} GrantsBounded(entries: seq<Entry>, calls: seq<Call>, key: string, rate: real, burst: real, t: int)
    requires Clocked(entries, t) && Steady(calls, key, rate, burst, t) && Unpruned(entries, calls, key)
    requires rate >= 0.0 && burst >= 0.0 && Available(entries, key, rate, burst, t) >= 0.0
    ensures Grants(entries, calls, key) as real <= Available(entries, key, rate, burst, t) + Refill(rate, EndOf(calls, t) - t)
  {
    GrantsUnderRefills(entries, calls, key, rate, burst, t);
    RefillsTelescope(calls, key, rate, burst, t);
  }

  lemma {:induction false} AvailableGrows(entries: seq<Entry>, key: string, rate: real, burst: real, t: int, u: int)
    requires t <= u && rate >= 0.0
    ensures Available(entries, key, rate, burst, u) <= Available(entries, key, rate, burst, t) + Refill(rate, u - t)
    ensures Available(entries, key, rate, burst, u) >= Available(entries, key, rate, burst, t)
  {
    RefillRises(rate, u - t);
    if Find(entries, key) >= 0 {
      var b := entries[Find(entries, key)].bucket;
      RefillAdds(rate, t - b.updatedAt, u - t);
      assert t - b.updatedAt + (u - t) == u - b.updatedAt;
    }
  }

  /** The state is right at every point of a run. */
  lemma {:induction false} RunsStayClocked(entries: seq<Entry>, calls: seq<Call>, key: string, rate: real, burst: real, t: int)
    requires Clocked(entries, t) && Steady(calls, key, rate, burst, t) && rate >= 0.0 && burst >= 0.0
    requires Available(entries, key, rate, burst, t) >= 0.0
    ensures Clocked(AfterCalls(entries, calls), EndOf(calls, t))
    ensures Available(AfterCalls(entries, calls), key, rate, burst, EndOf(calls, t)) >= 0.0
    decreases |calls|
  {
    if calls != [] {
      var c := calls[0];
      var next := Allowed(entries, c).0;
      AllowedClocked(entries, c, t);
      AvailableGrows(entries, key, rate, burst, t, c.now);
      if c.key == key { OwnCall(entries, c, t); }
      else if Find(entries, key) >= 0 ==> Find(next, key) >= 0 { OtherCall(entries, c, t, key, rate, burst); }
      RunsStayClocked(next, calls[1..], key, rate, burst, c.now);
      assert EndOf(calls, t) == EndOf(calls[1..], c.now);
    }
  }

  lemma {:induction false} SteadySplits(before: seq<Call>, window: seq<Call>, key: string, rate: real, burst: real, t: int)
    requires Steady(before + window, key, rate, burst, t)
    ensures Steady(before, key, rate, burst, t) && Steady(window, key, rate, burst, EndOf(before, t))
    decreases |before|
  {
    if before == [] { assert before + window == window; }
    else {
      assert (before + window)[1..] == before[1..] + window;
      SteadySplits(before[1..], window, key, rate, burst, before[0].now);
    }
  }

  /**
   * In any window of any run, starting anywhere, a key whose bucket is not pruned meanwhile gets at most burst plus
   * what is refilled in the window's T milliseconds.
   */
  lemma {:induction false} WindowBound(before: seq<Call>, window: seq<Call>, key: string, rate: real, burst: real, t: int)
    requires Steady(before + window, key, rate, burst, t) && rate >= 0.0 && burst >= 0.0
    requires window != [] && Unpruned(AfterCalls([], before), window, key)
    ensures Grants(AfterCalls([], before), window, key) as real
         <= burst + Refill(rate, window[|window| - 1].now - window[0].now)
  {
    SteadySplits(before, window, key, rate, burst, t);
    RunsStayClocked([], before, key, rate, burst, t);
    WindowFrom(AfterCalls([], before), window, key, rate, burst, EndOf(before, t));
  }

  lemma {:induction false} WindowFrom(entries: seq<Entry>, window: seq<Call>, key: string, rate: real, burst: real, t: int)
    requires Clocked(entries, t) && Steady(window, key, rate, burst, t) && rate >= 0.0 && burst >= 0.0
    requires window != [] && Unpruned(entries, window, key) && Available(entries, key, rate, burst, t) >= 0.0
    ensures Grants(entries, window, key) as real <= burst + Refill(rate, window[|window| - 1].now - window[0].now)
  {
    var first := window[0].now;
    AvailableGrows(entries, key, rate, burst, t, first);
    GrantsBounded(entries, window, key, rate, burst, first);
  }

  /** After every call at most 10,000 buckets remain. */
  lemma {:induction false} SizeBound(entries: seq<Entry>, c: Call)
    requires |entries| <= LIMIT && NoDup(Keys(entries))
    ensures |Allowed(entries, c).0| <= LIMIT
  {
    OpenedDistinct(entries, c);
    PutSame(Opened(entries, c), c.key, Taken(Stored(entries, c), c.rate, c.burst, c.now).0);
  }
}
