/** A worker's warm room: what it holds, and how the replies of the store change it. */
module RoomWorker {
  import opened Results
  import opened CommitStore
  import opened Pipeline

  const HISTORY := 500

  /** `era` counts the migrations before the state was loaded; the worker itself does not know it. */
  datatype Image<+S> = Image(schema: string, version: nat, state: S, recent: seq<(nat, Operation)>, era: nat)

  function Fold<S, P>(apply: (S, P) -> S, state: S, rows: seq<(nat, WalRow<P>)>): S
    decreases |rows|
  {
    if rows == [] then state else Fold(apply, apply(state, rows[0].1.patches), rows[1..])
  }

  function Operations<P>(rows: seq<(nat, WalRow<P>)>): seq<(nat, Operation)> {
    seq(|rows|, i requires 0 <= i < |rows| => (rows[i].0, rows[i].1.op))
  }

  /** `slice(-500)`. */
  function LastOf<T>(s: seq<T>, n: nat): seq<T> {
    if |s| <= n then s else s[|s| - n..]
  }

  /** `reload`: everything but the schema version comes from the store. */
  function Reloaded<S, P>(apply: (S, P) -> S, image: Image<S>, loaded: Loaded<S, P>, era: nat): Image<S> {
    Image(image.schema, loaded.version, Fold(apply, loaded.state, loaded.wal),
          LastOf(Operations(loaded.wal), HISTORY), era)
  }

  /** Activation reads the schema version from the store as well. */
  function Activated<S, P>(apply: (S, P) -> S, loaded: Loaded<S, P>, era: nat): Image<S> {
    Image(loaded.schema, loaded.version, Fold(apply, loaded.state, loaded.wal),
          LastOf(Operations(loaded.wal), HISTORY), era)
  }

  /** After the store has committed `op` at `version`. */
  function Advanced<S>(image: Image<S>, next: S, op: Operation, version: nat): Image<S> {
    var recent := image.recent + [(version, op)];
    image.(version := version, state := next, recent := if |recent| > HISTORY then recent[1..] else recent)
  }

  datatype Reply<+P> =
    | Answer(result: OperationResult<P>)
    | Invalid(version: nat)
    | ResyncRequired(version: nat)
    | RetryLater(version: nat, reason: string)
    | Failed

  /** The store's answers to the calls that one `process` makes, whatever happened to the tables in between. */
  datatype Answers<+S, +P> = Answers(
    prior: Option<ReceiptRow<P>>,
    outcomes: seq<CommitOutcome<P>>,
    loads: seq<Loaded<S, P>>,
    recorded: ReceiptOutcome,
    again: Option<ReceiptRow<P>>)

  // ---- one attempt of `process` ----

  function PreparedBy<S, P>(pack: Pack<S, P>, maxGap: nat, op: Operation, image: Image<S>): Prepared<S, P> {
    Prepare(pack, maxGap, op, image.state, image.version, image.recent)
  }

  function Requests<P, S>(epoch: nat, instance: string, op: Operation, fingerprint: string, p: Prepared<S, P>): seq<CommitRequest<P>> {
    if p.Ready? then [CommitRequest(epoch, instance, p.resolvedAt, op, p.patches, fingerprint)] else []
  }

  predicate Retries<S, P>(p: Prepared<S, P>, outcome: CommitOutcome<P>) { p.Ready? && outcome.VersionConflict? }

  /** The room after an attempt: moved on by its own commit, reloaded after a conflict, untouched otherwise. */
  function AfterAttempt<S, P>(apply: (S, P) -> S, image: Image<S>, op: Operation, p: Prepared<S, P>, outcome: CommitOutcome<P>, loaded: Loaded<S, P>, era: nat): Image<S> {
    if Retries(p, outcome) then Reloaded(apply, image, loaded, era)
    else if p.Ready? && outcome.Committed? then Advanced(image, p.next, op, outcome.result.version)
    else image
  }

  /** The reply of an attempt that is not retried, and whether the room stays in the worker's map. */
  function Concluded<S, P>(image: Image<S>, op: Operation, fingerprint: string, p: Prepared<S, P>, outcome: CommitOutcome<P>, a: Answers<S, P>): (Reply<P>, bool) {
    match p
    case Resync(version, _) => (ResyncRequired(version), true)
    case Refused(version, code) =>
      (match a.recorded
       case Stored => (Answer(Rejected(op.operationId, version, code)), true)
       case ReceiptFenced => (RetryLater(image.version, "ownerChanging"), false)
       case ReceiptThrew => (Failed, true)
       case Exists =>
         if a.again.Some? && a.again.value.fingerprint == fingerprint then (Answer(a.again.value.result), true)
         else (Invalid(image.version), true))
    case Ready(_, _, _) =>
      (match outcome
       case Committed(result) => (Answer(result), true)
       case Duplicate(result) => (Answer(result), true)
       case Collision(version) => (Invalid(version), true)
       case Fenced(version) => (RetryLater(version, "ownerChanging"), false)
       case Threw(_) => (Failed, true)
       case VersionConflict(_) => (Failed, true))
  }

  /** Every answer a client gets is the store's: a commit, a duplicate, a receipt, or a rejection it has stored. */
  lemma {:induction false} AnswersComeFromTheStore<S, P>(image: Image<S>, op: Operation, fingerprint: string, p: Prepared<S, P>, outcome: CommitOutcome<P>, a: Answers<S, P>)
    requires Concluded(image, op, fingerprint, p, outcome, a).0.Answer?
    ensures var result := Concluded(image, op, fingerprint, p, outcome, a).0.result;
      || (p.Ready? && (outcome == Committed(result) || outcome == Duplicate(result)))
      || (p.Refused? && a.recorded == Stored && result == Rejected(op.operationId, p.version, p.code))
      || (p.Refused? && a.recorded == Exists && a.again.Some? && a.again.value.fingerprint == fingerprint && a.again.value.result == result)
  {
  }

  /** `WarmRoom`, updated in place by the replies to its one outstanding request. */
  class WarmRoom<S, P> {
    const instance: string
    const epoch: nat
    const apply: (S, P) -> S
    var schemaVersion: string
    var version: nat
    var state: S
    var recentOperations: seq<(nat, Operation)>
    ghost var era: nat

    ghost function Held(): Image<S>
      reads this
    {
      Image(schemaVersion, version, state, recentOperations, era)
    }

    constructor (instance: string, epoch: nat, apply: (S, P) -> S, loaded: Loaded<S, P>, ghost era: nat)
      ensures Held() == Activated(apply, loaded, era)
      ensures this.instance == instance && this.epoch == epoch && this.apply == apply
    {
      this.instance, this.epoch, this.apply, this.era := instance, epoch, apply, era;
      schemaVersion, version := loaded.schema, loaded.version;
      recentOperations := LastOf(Operations(loaded.wal), HISTORY);
      state := loaded.state;
      new;
      Replay(loaded);
    }

    method Replay(loaded: Loaded<S, P>)
      modifies this`state
      ensures state == Fold(apply, loaded.state, loaded.wal)
    {
      state := loaded.state;
      for i := 0 to |loaded.wal|
        invariant Fold(apply, state, loaded.wal[i..]) == Fold(apply, loaded.state, loaded.wal)
      {
        assert loaded.wal[i..][1..] == loaded.wal[i + 1..];
        state := apply(state, loaded.wal[i].1.patches);
      }
    }

    method Committed(next: S, op: Operation, committedAt: nat)
      modifies this
      ensures Held() == Advanced(old(Held()), next, op, committedAt)
    {
      state, version := next, committedAt;
      recentOperations := recentOperations + [(version, op)];
      if |recentOperations| > HISTORY { recentOperations := recentOperations[1..]; }
    }

    method Reload(loaded: Loaded<S, P>, ghost now: nat)
      modifies this
      ensures Held() == Reloaded(apply, old(Held()), loaded, now)
    {
      Replay(loaded);
      version := loaded.version;
      recentOperations := LastOf(Operations(loaded.wal), HISTORY);
      era := now;
    }

    /** A successful migration: new state and schema, empty history. */
    method Migrated(schema: string, migrated: S, ghost now: nat)
      modifies this
      ensures Held() == Image(schema, old(version), migrated, [], now)
    {
      schemaVersion, state, recentOperations, era := schema, migrated, [], now;
    }

    /** `persistRejection`; `kept` is false when the room is dropped. */
    method PersistRejection(op: Operation, fingerprint: string, p: Prepared<S, P>, outcome: CommitOutcome<P>, a: Answers<S, P>) returns (reply: Reply<P>, kept: bool)
      requires p.Refused?
      ensures (reply, kept) == Concluded(Held(), op, fingerprint, p, outcome, a)
    {
      match a.recorded
      case ReceiptThrew => return Failed, true;
      case ReceiptFenced => return RetryLater(version, "ownerChanging"), false;
      case Exists =>
        if a.again.Some? && a.again.value.fingerprint == fingerprint { return Answer(a.again.value.result), true; }
        return Invalid(version), true;
      case Stored => return Answer(Rejected(op.operationId, p.version, p.code)), true;
    }

    method Attempt(pack: Pack<S, P>, maxGap: nat, op: Operation, fingerprint: string, a: Answers<S, P>, i: nat, ghost now: nat)
      returns (reply: Reply<P>, sent: seq<CommitRequest<P>>, kept: bool, again: bool)
      requires i < |a.outcomes| == |a.loads|
      modifies this
      ensures var p := PreparedBy(pack, maxGap, op, old(Held()));
        && sent == Requests(epoch, instance, op, fingerprint, p)
        && again == Retries(p, a.outcomes[i])
        && Held() == AfterAttempt(apply, old(Held()), op, p, a.outcomes[i], a.loads[i], now)
        && (!again ==> (reply, kept) == Concluded(old(Held()), op, fingerprint, p, a.outcomes[i], a))
    {
      var prepared := Prepare(pack, maxGap, op, state, version, recentOperations);
      sent, kept, again, reply := [], true, false, Failed;
      if prepared.Refused? {
        reply, kept := PersistRejection(op, fingerprint, prepared, a.outcomes[i], a);
      } else if prepared.Resync? {
        reply := ResyncRequired(prepared.version);
      } else {
        sent := [CommitRequest(epoch, instance, prepared.resolvedAt, op, prepared.patches, fingerprint)];
        match a.outcomes[i]
        case Committed(result) => Committed(prepared.next, op, result.version); reply := Answer(result);
        case Duplicate(result) => reply := Answer(result);
        case Collision(at) => reply := Invalid(at);
        case Fenced(at) => reply, kept := RetryLater(at, "ownerChanging"), false;
        case Threw(_) => reply := Failed;
        case VersionConflict(_) => Reload(a.loads[i], now); again := true;
      }
    }

    /** `process`: at most two attempts, each prepared against the room as it then is. */
    method Process(pack: Pack<S, P>, maxGap: nat, op: Operation, fingerprint: string, a: Answers<S, P>, ghost eras: seq<nat>)
      returns (reply: Reply<P>, sent: seq<CommitRequest<P>>, kept: bool)
      requires |a.outcomes| == |a.loads| == |eras| == 2
      modifies this
      ensures a.prior.Some? ==>
        && sent == [] && kept && Held() == old(Held())
        && reply == if a.prior.value.fingerprint == fingerprint then Answer(a.prior.value.result) else Invalid(old(version))
      ensures a.prior.None? ==>
        var first := PreparedBy(pack, maxGap, op, old(Held()));
        var between := AfterAttempt(apply, old(Held()), op, first, a.outcomes[0], a.loads[0], eras[0]);
        var second := PreparedBy(pack, maxGap, op, between);
        if !Retries(first, a.outcomes[0])
        then Held() == between && sent == Requests(epoch, instance, op, fingerprint, first)
             && (reply, kept) == Concluded(old(Held()), op, fingerprint, first, a.outcomes[0], a)
        else Held() == AfterAttempt(apply, between, op, second, a.outcomes[1], a.loads[1], eras[1])
             && sent == Requests(epoch, instance, op, fingerprint, first) + Requests(epoch, instance, op, fingerprint, second)
             && (reply, kept) == if Retries(second, a.outcomes[1]) then (RetryLater(Held().version, "temporarilyUnavailable"), true)
                                 else Concluded(between, op, fingerprint, second, a.outcomes[1], a)
    {
      sent, kept := [], true;
      if a.prior.Some? {
        if a.prior.value.fingerprint != fingerprint { return Invalid(version), sent, true; }
        return Answer(a.prior.value.result), sent, true;
      }
      ghost var before := Held();
      ghost var between := AfterAttempt(apply, before, op, PreparedBy(pack, maxGap, op, before), a.outcomes[0], a.loads[0], eras[0]);
      for attempt := 0 to 2
        invariant attempt > 0 ==> Retries(PreparedBy(pack, maxGap, op, before), a.outcomes[0])
        invariant Held() == if attempt == 0 then before else if attempt == 1 then between
          else AfterAttempt(apply, between, op, PreparedBy(pack, maxGap, op, between), a.outcomes[1], a.loads[1], eras[1])
        invariant sent == (if attempt == 0 then [] else Requests(epoch, instance, op, fingerprint, PreparedBy(pack, maxGap, op, before)))
          + (if attempt < 2 then [] else Requests(epoch, instance, op, fingerprint, PreparedBy(pack, maxGap, op, between)))
        invariant attempt == 2 ==> Retries(PreparedBy(pack, maxGap, op, between), a.outcomes[1])
      {
        var more, again;
        reply, more, kept, again := Attempt(pack, maxGap, op, fingerprint, a, attempt, eras[attempt]);
        sent := sent + more;
        if !again { return; }
      }
      return RetryLater(version, "temporarilyUnavailable"), sent, true;
    }
  }
}
