/** `AuthoritativeOperationPipeline.prepare`: the decision between resolving, rejecting and resynchronising an operation. */
module Pipeline {
  import opened Results
  import opened Ordering
  import opened CommitStore

  type Versioned = (nat, Operation)

  datatype Stage = Authenticate | Authorize | SchemaValidate | Normalize | BeforeResolve | InvariantCheck | BeforeCommit

  /** What a strategy and a version policy are shown. */
  datatype Context<+S> = Context(current: nat, state: S, op: Operation, concurrent: seq<Versioned>, complete: bool)

  datatype Decision = Resolve | DecideReject(code: string) | DecideResync(reason: string)
  datatype Resolution<+P> = Accept(patches: P) | Reject(code: string) | AskResync(reason: string) | Fails(message: string)

  datatype Prepared<+S, +P> =
    | Ready(resolvedAt: nat, patches: P, next: S)
    | Refused(version: nat, code: string)
    | Resync(version: nat, reason: string)

  /** The domain's part; a hook returns the message of the error it throws. */
  datatype Pack<!S, !P> = Pack(
    schema: string,
    hook: (Stage, Operation, S) -> Option<string>,
    policy: Option<(Context<S>, bool) -> Decision>,
    supports: Operation -> bool,
    resolve: Context<S> -> Resolution<P>,
    apply: (S, P) -> Result<S>,
    invariants: seq<(S, Operation) -> Option<string>>)

  function VersionOf(entry: Versioned): real { entry.0 as real }

  function Sorted(committed: seq<Versioned>): seq<Versioned> {
    SortBy(committed, (e: Versioned) => VersionOf(e))
  }

  function After(entries: seq<Versioned>, base: nat): seq<Versioned> {
    if entries == [] then []
    else (if entries[0].0 > base then [entries[0]] else []) + After(entries[1..], base)
  }

  function Earliest(sorted: seq<Versioned>, current: nat): nat {
    if sorted == [] then current + 1 else sorted[0].0
  }

  function ContextOf<S>(op: Operation, state: S, current: nat, committed: seq<Versioned>): Context<S> {
    var sorted := Sorted(committed);
    Context(current, state, op, After(sorted, op.baseVersion), op.baseVersion >= Earliest(sorted, current) - 1)
  }

  function Decide<S, P>(pack: Pack<S, P>, maxGap: nat, c: Context<S>): Decision
    requires c.op.baseVersion <= c.current
  {
    var exceeded := c.current - c.op.baseVersion > maxGap;
    if c.op.baseVersion == c.current then Resolve
    else if pack.policy.Some? then pack.policy.value(c, exceeded)
    else if exceeded || !c.complete then DecideResync("client is outside the recoverable operation history")
    else Resolve
  }

  function FirstViolation<S>(invariants: seq<(S, Operation) -> Option<string>>, state: S, op: Operation): Option<string> {
    if invariants == [] then None
    else
      var verdict := invariants[0](state, op);
      if verdict.Some? then verdict else FirstViolation(invariants[1..], state, op)
  }

  function Resolved<S, P>(pack: Pack<S, P>, c: Context<S>): Prepared<S, P> {
    if pack.hook(BeforeResolve, c.op, c.state).Some? then Refused(c.current, "strategyFailure")
    else if !pack.supports(c.op) then Refused(c.current, "invalidOperation")
    else
      match pack.resolve(c)
      case Reject(code) => Refused(c.current, code)
      case AskResync(reason) => Resync(c.current, reason)
      case Fails(_) => Refused(c.current, "strategyFailure")
      case Accept(patches) =>
        if pack.hook(InvariantCheck, c.op, c.state).Some? then Refused(c.current, "strategyFailure")
        else
          match pack.apply(c.state, patches)
          case Err(_) => Refused(c.current, "strategyFailure")
          case Ok(next) =>
            if FirstViolation(pack.invariants, next, c.op).Some? then Refused(c.current, "invariantViolation")
            else if pack.hook(BeforeCommit, c.op, next).Some? then Refused(c.current, "strategyFailure")
            else Ready(c.current, patches, next)
  }

  function Prepare<S, P>(pack: Pack<S, P>, maxGap: nat, op: Operation, state: S, current: nat, committed: seq<Versioned>): Prepared<S, P> {
    if pack.hook(Authenticate, op, state).Some? || pack.hook(Authorize, op, state).Some? then Refused(current, "strategyFailure")
    else if op.schemaVersion != pack.schema then Resync(current, "schema is not supported")
    else if pack.hook(SchemaValidate, op, state).Some? || pack.hook(Normalize, op, state).Some? then Refused(current, "strategyFailure")
    else if op.baseVersion > current then Resync(current, "submitted version is ahead of canonical version")
    else
      var c := ContextOf(op, state, current, committed);
      match Decide(pack, maxGap, c)
      case DecideReject(code) => Refused(current, code)
      case DecideResync(reason) => Resync(current, reason)
      case Resolve => Resolved(pack, c)
  }

  // ---- what the context means ----

  /** `recent` is the last part of `log`, up to version `v`, with the right version on each entry. */
  ghost predicate SuffixOf(recent: seq<Versioned>, log: seq<Operation>, v: nat) {
    && |recent| <= v <= |log|
    && forall i :: 0 <= i < |recent| ==> recent[i] == (v - |recent| + 1 + i, log[v - |recent| + i])
  }

  /** Exactly the operations committed in (base, v]. */
  function Between(log: seq<Operation>, base: nat, v: nat): seq<Versioned>
    requires base <= v <= |log|
  {
    seq(v - base, i requires 0 <= i < v - base => (base + 1 + i, log[base + i]))
  }

  lemma {:induction false} SortedAlready(entries: seq<Versioned>)
    requires forall i, j :: 0 <= i < j < |entries| ==> entries[i].0 < entries[j].0
    ensures Sorted(entries) == entries
  {
    SortUnique(entries, (e: Versioned) => VersionOf(e), entries);
  }

  lemma {:induction false} AfterSuffix(entries: seq<Versioned>, base: nat, first: nat)
    requires forall i :: 0 <= i < |entries| ==> entries[i].0 == first + i
    ensures After(entries, base) == if base < first then entries else if base - first + 1 <= |entries| then entries[base - first + 1..] else []
    decreases |entries|
  {
    if entries != [] { AfterSuffix(entries[1..], base, first + 1); }
  }

  /** `historyComplete` is true exactly when `concurrentOperations` are all the operations since the base version. */
  lemma {:induction false} HistoryCompleteIsExact<S>(op: Operation, state: S, log: seq<Operation>, v: nat, recent: seq<Versioned>)
    requires SuffixOf(recent, log, v) && op.baseVersion <= v
    ensures var c := ContextOf(op, state, v, recent);
      && (c.complete <==> c.concurrent == Between(log, op.baseVersion, v))
      && (c.complete <==> v - op.baseVersion <= |recent|)
  {
    SortedAlready(recent);
    AfterSuffix(recent, op.baseVersion, v - |recent| + 1);
  }

  /** Under the default policy an operation behind an incomplete or too long history never reaches the strategy. */
  lemma {:induction false} StrategyNeedsHistory<S, P>(pack: Pack<S, P>, other: Pack<S, P>, maxGap: nat, op: Operation, state: S, log: seq<Operation>, v: nat, recent: seq<Versioned>)
    requires pack.policy.None? && other == pack.(resolve := other.resolve, supports := other.supports, apply := other.apply)
    requires SuffixOf(recent, log, v) && op.baseVersion <= v
    requires v - op.baseVersion > |recent| || v - op.baseVersion > maxGap
    ensures Prepare(pack, maxGap, op, state, v, recent) == Prepare(other, maxGap, op, state, v, recent)
    ensures !Prepare(pack, maxGap, op, state, v, recent).Ready?
  {
    HistoryCompleteIsExact(op, state, log, v, recent);
  }

  lemma {:induction false} NoViolation<S>(invariants: seq<(S, Operation) -> Option<string>>, state: S, op: Operation)
    requires FirstViolation(invariants, state, op).None?
    ensures forall i :: 0 <= i < |invariants| ==> invariants[i](state, op).None?
    decreases |invariants|
  {
    if invariants != [] {
      NoViolation(invariants[1..], state, op);
      forall i | 0 <= i < |invariants| ensures invariants[i](state, op).None? {
        if i > 0 { assert invariants[i] == invariants[1..][i - 1]; }
      }
    }
  }

  /** A prepared operation was resolved against the current state, with its exact history under the default policy. */
  lemma {:induction false} PreparedIsSound<S, P>(pack: Pack<S, P>, maxGap: nat, op: Operation, state: S, log: seq<Operation>, v: nat, recent: seq<Versioned>)
    requires SuffixOf(recent, log, v) && Prepare(pack, maxGap, op, state, v, recent).Ready?
    ensures var p := Prepare(pack, maxGap, op, state, v, recent);
      && op.schemaVersion == pack.schema && op.baseVersion <= v && p.resolvedAt == v
      && pack.apply(state, p.patches) == Ok(p.next)
      && (forall i :: 0 <= i < |pack.invariants| ==> pack.invariants[i](p.next, op).None?)
      && (pack.policy.None? ==> pack.resolve(Context(v, state, op, Between(log, op.baseVersion, v), true)) == Accept(p.patches))
  {
    HistoryCompleteIsExact(op, state, log, v, recent);
    NoViolation(pack.invariants, Prepare(pack, maxGap, op, state, v, recent).next, op);
  }
}
