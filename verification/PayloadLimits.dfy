/** The bounds on the shape of a payload that every operation has to meet before it is looked at. */
module PayloadLimits {
  import opened Results
  import opened Json
  import opened Strings

  datatype Limits = Limits(maxDepth: nat, maxNodes: nat, maxCollectionLength: nat)

  const Default := Limits(32, 10_000, 1000)

  /** The items of a list, or the values of an object. */
  function Children(j: Json): (r: seq<Json>)
    ensures forall i :: 0 <= i < |r| ==> r[i] < j
  {
    match j
    case Arr(items) => items
    case Obj(m) =>
      var keys := SortedKeys(m.Keys);
      assert forall k | k in m :: m[k] < j;
      assert forall i | 0 <= i < |keys| :: keys[i] in keys;
      seq(|keys|, i requires 0 <= i < |keys| => m[keys[i]])
    case _ => []
  }

  function Nodes(j: Json): (n: nat)
    ensures n > 0
    decreases j, |Children(j)| + 1
  {
    1 + NodesFrom(j, 0)
  }

  /** The nodes of the children from index `i` on. */
  function NodesFrom(j: Json, i: nat): nat
    requires i <= |Children(j)|
    decreases j, |Children(j)| - i
  {
    if i == |Children(j)| then 0 else Nodes(Children(j)[i]) + NodesFrom(j, i + 1)
  }

  /** Nothing lies deeper than the bound, seen from a value at `depth`, and no collection is longer. */
  predicate Within(limits: Limits, j: Json, depth: nat)
    decreases j, |Children(j)| + 1
  {
    depth <= limits.maxDepth && |Children(j)| <= limits.maxCollectionLength && WithinFrom(limits, j, depth, 0)
  }

  predicate WithinFrom(limits: Limits, j: Json, depth: nat, i: nat)
    requires i <= |Children(j)|
    decreases j, |Children(j)| - i
  {
    i < |Children(j)| ==> Within(limits, Children(j)[i], depth + 1) && WithinFrom(limits, j, depth, i + 1)
  }

  predicate Bounded(limits: Limits, j: Json) {
    Within(limits, j, 0) && Nodes(j) <= limits.maxNodes
  }

  // ---- the worklist ----

  datatype Pending = Pending(value: Json, depth: nat)

  ghost function NodesIn(pending: seq<Pending>): nat {
    if pending == [] then 0 else NodesIn(pending[..|pending| - 1]) + Nodes(pending[|pending| - 1].value)
  }

  ghost predicate AllWithin(limits: Limits, pending: seq<Pending>) {
    forall p | p in pending :: Within(limits, p.value, p.depth)
  }

  lemma {:induction false} Push(limits: Limits, pending: seq<Pending>, p: Pending)
    ensures NodesIn(pending + [p]) == NodesIn(pending) + Nodes(p.value)
    ensures AllWithin(limits, pending + [p]) <==> AllWithin(limits, pending) && Within(limits, p.value, p.depth)
  {
    assert (pending + [p])[..|pending|] == pending;
    if AllWithin(limits, pending + [p]) {
      assert p in pending + [p];
      forall q | q in pending ensures Within(limits, q.value, q.depth) { assert q in pending + [p]; }
    }
  }

  /** What is still on the stack, with the nodes counted so far, decides about the whole value. */
  ghost predicate Left(limits: Limits, value: Json, nodes: nat, pending: seq<Pending>) {
    nodes + NodesIn(pending) == Nodes(value) && (AllWithin(limits, pending) <==> Within(limits, value, 0))
  }

  /** The same when the children of `current` up to index `i` are on the stack again. */
  ghost predicate LeftFrom(limits: Limits, value: Json, nodes: nat, pending: seq<Pending>, current: Pending, i: nat) {
    && i <= |Children(current.value)|
    && nodes + NodesIn(pending) + NodesFrom(current.value, i) == Nodes(value)
    && (AllWithin(limits, pending) && WithinFrom(limits, current.value, current.depth, i) <==> Within(limits, value, 0))
  }

  lemma {:induction false} Start(limits: Limits, value: Json)
    ensures Left(limits, value, 0, [Pending(value, 0)])
  {
    Push(limits, [], Pending(value, 0));
    assert [] + [Pending(value, 0)] == [Pending(value, 0)];
  }

  /** Taking a value off the stack: it is within the bounds itself, or the whole value is not. */
  lemma {:induction false} Pop(limits: Limits, value: Json, nodes: nat, rest: seq<Pending>, current: Pending)
    requires nodes > 0 && Left(limits, value, nodes - 1, rest + [current])
    ensures nodes <= Nodes(value)
    ensures if current.depth > limits.maxDepth || |Children(current.value)| > limits.maxCollectionLength then !Within(limits, value, 0)
            else LeftFrom(limits, value, nodes, rest, current, 0)
  {
    Push(limits, rest, current);
  }

  lemma {:induction false} PushChild(limits: Limits, value: Json, nodes: nat, pending: seq<Pending>, current: Pending, i: nat)
    requires LeftFrom(limits, value, nodes, pending, current, i) && i < |Children(current.value)|
    ensures LeftFrom(limits, value, nodes, pending + [Pending(Children(current.value)[i], current.depth + 1)], current, i + 1)
  {
    Push(limits, pending, Pending(Children(current.value)[i], current.depth + 1));
  }

  /** `assertJsonComplexity`: one value after the other is taken from a stack, and it stops at the first one out of bounds. */
  method AssertJsonComplexity(value: Json, limits: Limits) returns (r: Result<()>)
    ensures r.Ok? <==> Bounded(limits, value)
  {
    var pending := [Pending(value, 0)];
    var nodes := 0;
    Start(limits, value);
    while pending != []
      invariant nodes <= limits.maxNodes && Left(limits, value, nodes, pending)
      decreases Nodes(value) - nodes
    {
      var current := pending[|pending| - 1];
      assert pending == pending[..|pending| - 1] + [current];
      pending := pending[..|pending| - 1];
      nodes := nodes + 1;
      Pop(limits, value, nodes, pending, current);
      if nodes > limits.maxNodes { return Err("JSON value exceeds its nodes"); }
      if current.depth > limits.maxDepth { return Err("JSON value exceeds its depth"); }
      var children := Children(current.value);
      if |children| > limits.maxCollectionLength { return Err("JSON collection exceeds its entries"); }
      for i := 0 to |children|
        invariant LeftFrom(limits, value, nodes, pending, current, i)
      {
        PushChild(limits, value, nodes, pending, current, i);
        pending := pending + [Pending(children[i], current.depth + 1)];
      }
    }
    return Ok(());
  }

  // ---- small objects ----

  lemma {:induction false} SortedSize(keys: set<string>)
    ensures |SortedKeys(keys)| == |keys|
  {
    if keys != {} {
      LeastExists(keys);
      var k :| Least(k, keys);
      SortedSize(keys - {k});
    }
  }

  lemma {:induction false} LeafNodes(j: Json, i: nat)
    requires i <= |Children(j)| && forall c | c in Children(j) :: c.Str?
    ensures NodesFrom(j, i) == |Children(j)| - i
    ensures WithinFrom(Default, j, 0, i)
    decreases |Children(j)| - i
  {
    if i < |Children(j)| {
      var c := Children(j)[i];
      assert c in Children(j) && Children(c) == [] && Nodes(c) == 1;
      LeafNodes(j, i + 1);
    }
  }

  /** An object of a few strings is within the bounds. */
  lemma {:induction false} SmallBounded(m: Fields)
    requires |m.Keys| <= 4 && forall k | k in m :: m[k].Str?
    ensures Bounded(Default, Obj(m))
  {
    SortedSize(m.Keys);
    forall c | c in Children(Obj(m)) ensures c.Str? {
      var i :| 0 <= i < |Children(Obj(m))| && Children(Obj(m))[i] == c;
      assert SortedKeys(m.Keys)[i] in m.Keys;
    }
    LeafNodes(Obj(m), 0);
  }
}
