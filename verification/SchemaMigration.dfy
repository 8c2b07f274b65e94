/** `migrateDomainState`: the walk along the single chain of migrations to the pack's schema. */
module SchemaMigration {
  import opened Results
  import opened Distinct

  /** `run` returns nothing when the migration throws or yields something that is not an object. */
  datatype Migration<!S> = Migration(from: string, to: string, run: S -> Option<S>)

  datatype Step = Step(from: string, to: string)

  datatype Migrated<+S> = Migrated(state: S, schema: string, applied: seq<Step>)

  /** `validateMigrationGraph`: versions are named, no migration targets itself, and at most one starts anywhere. */
  ghost predicate ValidGraph<S>(migrations: seq<Migration<S>>) {
    && (forall i :: 0 <= i < |migrations| ==> migrations[i].from != "" && migrations[i].to != "" && migrations[i].from != migrations[i].to)
    && (forall i, j :: 0 <= i < j < |migrations| ==> migrations[i].from != migrations[j].from)
  }

  method ValidateMigrationGraph<S>(migrations: seq<Migration<S>>) returns (valid: bool)
    ensures valid <==> ValidGraph(migrations)
  {
    var outgoing: set<string> := {};
    for i := 0 to |migrations|
      invariant ValidGraph(migrations[..i])
      invariant forall f :: f in outgoing <==> exists k :: 0 <= k < i && migrations[k].from == f
    {
      var m := migrations[i];
      if m.from == "" || m.to == "" || m.from == m.to { return false; }
      if m.from in outgoing {
        var k :| 0 <= k < i && migrations[k].from == m.from;
        return false;
      }
      outgoing := outgoing + {m.from};
      assert forall k :: 0 <= k < i ==> migrations[..i + 1][k] == migrations[..i][k];
    }
    assert migrations[..|migrations|] == migrations;
    return true;
  }

  /** The position of the migration that starts at a version, or -1. */
  function Outgoing<S>(migrations: seq<Migration<S>>, from: string): (i: int)
    ensures -1 <= i < |migrations|
    ensures i >= 0 ==> migrations[i].from == from
    ensures i < 0 ==> forall k :: 0 <= k < |migrations| ==> migrations[k].from != from
  {
    if migrations == [] then -1
    else if migrations[0].from == from then 0
    else
      var i := Outgoing(migrations[1..], from);
      assert forall k :: 0 < k < |migrations| ==> migrations[k] == migrations[1..][k - 1];
      if i < 0 then -1 else i + 1
  }

  // ---- chains ----

  /** `steps` leads from `from` to `to`, each step being the migration that starts where the last one ended. */
  ghost predicate Chain<S>(migrations: seq<Migration<S>>, from: string, to: string, steps: seq<Step>)
    decreases |steps|
  {
    if steps == [] then from == to
    else
      && from != to
      && Outgoing(migrations, from) >= 0
      && steps[0] == Step(from, migrations[Outgoing(migrations, from)].to)
      && Chain(migrations, steps[0].to, to, steps[1..])
  }

  /** The composition of the chain's functions, unless one of them fails. */
  function Composed<S>(migrations: seq<Migration<S>>, steps: seq<Step>, state: S): Option<S>
    decreases |steps|
  {
    if steps == [] then Some(state)
    else if Outgoing(migrations, steps[0].from) < 0 then None
    else
      var next := migrations[Outgoing(migrations, steps[0].from)].run(state);
      if next.None? then None else Composed(migrations, steps[1..], next.value)
  }

  lemma {:induction false} ChainUnique<S>(migrations: seq<Migration<S>>, from: string, to: string, a: seq<Step>, b: seq<Step>)
    requires Chain(migrations, from, to, a) && Chain(migrations, from, to, b)
    ensures a == b
    decreases |a|
  {
    if a != [] {
      ChainUnique(migrations, a[0].to, to, a[1..], b[1..]);
      assert a == [a[0]] + a[1..] && b == [b[0]] + b[1..];
    }
  }

  lemma {:induction false} ChainAppend<S>(migrations: seq<Migration<S>>, from: string, mid: string, to: string, a: seq<Step>, b: seq<Step>)
    requires Chain(migrations, from, mid, a) && Chain(migrations, mid, to, b)
    requires forall i :: 0 <= i < |a| ==> a[i].from != to
    ensures Chain(migrations, from, to, a + b)
    decreases |a|
  {
    if a == [] { assert a + b == b; }
    else {
      ChainAppend(migrations, a[0].to, mid, to, a[1..], b);
      assert (a + b)[0] == a[0] && (a + b)[1..] == a[1..] + b;
    }
  }

  lemma {:induction false} ComposedAppend<S>(migrations: seq<Migration<S>>, a: seq<Step>, b: seq<Step>, state: S)
    ensures Composed(migrations, a + b, state)
         == if Composed(migrations, a, state).None? then None else Composed(migrations, b, Composed(migrations, a, state).value)
    decreases |a|
  {
    if a == [] { assert a + b == b; }
    else {
      assert (a + b)[0] == a[0] && (a + b)[1..] == a[1..] + b;
      var i := Outgoing(migrations, a[0].from);
      if i >= 0 && migrations[i].run(state).Some? { ComposedAppend(migrations, a[1..], b, migrations[i].run(state).value); }
    }
  }

  /** Every suffix of a chain is a chain from where it starts. */
  lemma {:induction false} ChainSuffix<S>(migrations: seq<Migration<S>>, from: string, to: string, steps: seq<Step>, i: nat)
    requires Chain(migrations, from, to, steps) && i < |steps|
    ensures Chain(migrations, steps[i].from, to, steps[i..]) && steps[i].from != to
    ensures i + 1 < |steps| ==> steps[i].to == steps[i + 1].from
    ensures i + 1 == |steps| ==> steps[i].to == to
    decreases i
  {
    if i > 0 {
      ChainSuffix(migrations, steps[0].to, to, steps[1..], i - 1);
      assert steps[1..][i - 1..] == steps[i..];
    } else {
      assert steps[0..] == steps;
    }
  }

  /** A chain never comes back to a version that it has left. */
  lemma {:induction false} ChainNoRepeat<S>(migrations: seq<Migration<S>>, from: string, to: string, steps: seq<Step>)
    requires Chain(migrations, from, to, steps)
    ensures forall i, j :: 0 <= i < j < |steps| ==> steps[i].from != steps[j].from
  {
    forall i, j | 0 <= i < j < |steps| ensures steps[i].from != steps[j].from {
      ChainSuffix(migrations, from, to, steps, i);
      ChainSuffix(migrations, from, to, steps, j);
      if steps[i].from == steps[j].from { ChainUnique(migrations, steps[i].from, to, steps[i..], steps[j..]); }
    }
  }

  // ---- the walk ----

  function Froms(steps: seq<Step>): seq<string> { seq(|steps|, i requires 0 <= i < |steps| => steps[i].from) }

  function Sources<S>(migrations: seq<Migration<S>>): seq<string> { seq(|migrations|, i requires 0 <= i < |migrations| => migrations[i].from) }

  /** The walk so far: linked steps from `from` to `at`, none starting at the target or twice at one version. */
  ghost predicate Walked<S>(migrations: seq<Migration<S>>, from: string, to: string, steps: seq<Step>, at: string)
    decreases |steps|
  {
    if steps == [] then from == at
    else
      && from != to && Outgoing(migrations, from) >= 0
      && steps[0] == Step(from, migrations[Outgoing(migrations, from)].to)
      && Walked(migrations, steps[0].to, to, steps[1..], at)
  }

  lemma {:induction false} WalkedFurther<S>(migrations: seq<Migration<S>>, from: string, to: string, steps: seq<Step>, at: string)
    requires Walked(migrations, from, to, steps, at) && at != to && Outgoing(migrations, at) >= 0
    ensures Walked(migrations, from, to, steps + [Step(at, migrations[Outgoing(migrations, at)].to)], migrations[Outgoing(migrations, at)].to)
    decreases |steps|
  {
    var more := steps + [Step(at, migrations[Outgoing(migrations, at)].to)];
    if steps == [] { assert more[1..] == []; }
    else {
      assert more[0] == steps[0] && more[1..] == steps[1..] + [Step(at, migrations[Outgoing(migrations, at)].to)];
      WalkedFurther(migrations, steps[0].to, to, steps[1..], at);
    }
  }

  lemma {:induction false} WalkedIsChain<S>(migrations: seq<Migration<S>>, from: string, to: string, steps: seq<Step>)
    requires Walked(migrations, from, to, steps, to)
    ensures Chain(migrations, from, to, steps)
    decreases |steps|
  {
    if steps != [] { WalkedIsChain(migrations, steps[0].to, to, steps[1..]); }
  }

  /** A chain to the target, if there is one, goes on from wherever the walk is. */
  lemma {:induction false} WalkFollowsChain<S>(migrations: seq<Migration<S>>, from: string, to: string, steps: seq<Step>, at: string, chain: seq<Step>)
    requires Walked(migrations, from, to, steps, at) && Chain(migrations, from, to, chain)
    ensures |steps| <= |chain| && chain[..|steps|] == steps && Chain(migrations, at, to, chain[|steps|..])
    decreases |steps|
  {
    if steps == [] { assert chain[0..] == chain; }
    else {
      WalkFollowsChain(migrations, steps[0].to, to, steps[1..], at, chain[1..]);
      assert chain == [chain[0]] + chain[1..] && steps == [steps[0]] + steps[1..];
      assert chain[1..][|steps| - 1..] == chain[|steps|..];
    }
  }

  lemma {:induction false} WalkedSources<S>(migrations: seq<Migration<S>>, from: string, to: string, steps: seq<Step>, at: string)
    requires Walked(migrations, from, to, steps, at)
    ensures forall f :: f in Froms(steps) ==> f in Sources(migrations)
    decreases |steps|
  {
    if steps != [] {
      WalkedSources(migrations, steps[0].to, to, steps[1..], at);
      assert Froms(steps) == [steps[0].from] + Froms(steps[1..]);
      assert Sources(migrations)[Outgoing(migrations, from)] == from;
    }
  }

  /** A walk that has returned to a version it left will go round for ever: no chain reaches the target. */
  lemma {:induction false} CycleHasNoChain<S>(migrations: seq<Migration<S>>, from: string, to: string, steps: seq<Step>, at: string)
    requires Walked(migrations, from, to, steps, at) && at in Froms(steps)
    ensures forall chain :: !Chain(migrations, from, to, chain)
  {
    if chain :| Chain(migrations, from, to, chain) {
      WalkFollowsChain(migrations, from, to, steps, at, chain);
      var i :| 0 <= i < |steps| && Froms(steps)[i] == at;
      assert chain[..|steps|][i] == chain[i];
      ChainSuffix(migrations, from, to, chain, i);
      ChainUnique(migrations, at, to, chain[i..], chain[|steps|..]);
    }
  }

  /**
   * It terminates on every graph, and succeeds exactly when the one chain from the stored version reaches the pack's
   * schema and none of its functions fails; then it returns their composition and the chain itself.
   */
  method MigrateDomainState<S>(migrations: seq<Migration<S>>, target: string, from: string, state: S) returns (r: Result<Migrated<S>>)
    ensures r.Ok? ==> ValidGraph(migrations) && Chain(migrations, from, target, r.value.applied)
                      && r.value.schema == target && Composed(migrations, r.value.applied, state) == Some(r.value.state)
    ensures r.Err? ==> !ValidGraph(migrations) || forall chain :: Chain(migrations, from, target, chain) ==> Composed(migrations, chain, state).None?
  {
    var valid := ValidateMigrationGraph(migrations);
    if !valid { return Err("schema migration graph is invalid"); }
    if from == target { return Ok(Migrated(state, from, [])); }
    var applied: seq<Step> := [];
    var visited: set<string> := {};
    var current, currentState := from, state;
    while current != target
      invariant Walked(migrations, from, target, applied, current)
      invariant Composed(migrations, applied, state) == Some(currentState)
      invariant NoDup(Froms(applied)) && forall v :: v in visited <==> v in Froms(applied)
      invariant |applied| <= |migrations|
      decreases |migrations| - |applied|
    {
      if current in visited {
        CycleHasNoChain(migrations, from, target, applied, current);
        return Err("schema migration cycle detected");
      }
      var i := Outgoing(migrations, current);
      if i < 0 || migrations[i].run(currentState).None? {
        StuckHere(migrations, from, target, applied, current, state, currentState);
        return Err(if i < 0 then "no schema migration" else "schema migration failed");
      }
      var step := Step(current, migrations[i].to);
      WalkedFurther(migrations, from, target, applied, current);
      ComposedAppend(migrations, applied, [step], state);
      assert Composed(migrations, [step][1..], migrations[i].run(currentState).value) == migrations[i].run(currentState);
      assert Froms(applied + [step]) == Froms(applied) + [current];
      visited := visited + {current};
      currentState := migrations[i].run(currentState).value;
      applied := applied + [step];
      current := migrations[i].to;
      WalkedSources(migrations, from, target, applied, current);
      Pigeonhole(Froms(applied), Sources(migrations));
    }
    WalkedIsChain(migrations, from, target, applied);
    return Ok(Migrated(currentState, current, applied));
  }

  lemma {:induction false} StuckHere<S>(migrations: seq<Migration<S>>, from: string, target: string, applied: seq<Step>, current: string, state: S, currentState: S)
    requires Walked(migrations, from, target, applied, current) && current != target
    requires Composed(migrations, applied, state) == Some(currentState)
    requires Outgoing(migrations, current) < 0 || migrations[Outgoing(migrations, current)].run(currentState).None?
    ensures forall chain :: Chain(migrations, from, target, chain) ==> Composed(migrations, chain, state).None?
  {
    forall chain | Chain(migrations, from, target, chain) ensures Composed(migrations, chain, state).None? {
      WalkFollowsChain(migrations, from, target, applied, current, chain);
      var rest := chain[|applied|..];
      assert chain == applied + rest;
      ComposedAppend(migrations, applied, rest, state);
    }
  }

  /**
   * Migrating to a version on the way and from there to the target gives the state of one migration in one go, and
   * the applied steps one after the other.
   */
  lemma {:induction false} MigrationSplits<S>(migrations: seq<Migration<S>>, from: string, mid: string, to: string, whole: seq<Step>, state: S, i: nat)
    requires Chain(migrations, from, to, whole) && i < |whole| && whole[i].from == mid
    ensures Chain(migrations, from, mid, whole[..i]) && Chain(migrations, mid, to, whole[i..])
    ensures Composed(migrations, whole, state)
         == if Composed(migrations, whole[..i], state).None? then None else Composed(migrations, whole[i..], Composed(migrations, whole[..i], state).value)
  {
    ChainSuffix(migrations, from, to, whole, i);
    ChainPrefix(migrations, from, to, whole, i);
    assert whole == whole[..i] + whole[i..];
    ComposedAppend(migrations, whole[..i], whole[i..], state);
  }

  lemma {:induction false} ChainPrefix<S>(migrations: seq<Migration<S>>, from: string, to: string, whole: seq<Step>, i: nat)
    requires Chain(migrations, from, to, whole) && i < |whole|
    ensures Chain(migrations, from, whole[i].from, whole[..i])
    decreases i
  {
    if i > 0 {
      ChainNoRepeat(migrations, from, to, whole);
      assert whole[0].from != whole[i].from;
      ChainPrefix(migrations, whole[0].to, to, whole[1..], i - 1);
      assert whole[..i][0] == whole[0] && whole[..i][1..] == whole[1..][..i - 1];
    }
  }
}
