/** The graph example: its commands, the patches they compile to, and the invariant its pack checks. */
module GraphDomain {
  import opened Results
  import opened Json
  import opened JsonPatch
  import opened EntityPatches
  import JsonPointer

  datatype Node = Node(id: string, x: real, y: real, caption: string, tone: string)
  datatype Edge = Edge(id: string, source: string, target: string, caption: Option<string>)
  datatype Graph = Graph(id: string, revision: nat, nodes: seq<Node>, edges: seq<Edge>)

  datatype Command =
    | NodeAdd(node: Node)
    | NodeRename(nodeId: string, caption: string)
    | NodeMove(nodeId: string, x: real, y: real)
    | NodeDelete(nodeId: string)
    | EdgeAdd(edge: Edge)
    | EdgeDelete(edgeId: string)

  // ---- JSON form ----

  function Position(x: real, y: real): Json { Obj(map["x" := Num(x), "y" := Num(y)]) }

  function NodeFields(n: Node): Fields {
    map["id" := Str(n.id), "position" := Position(n.x, n.y), "label" := Str(n.caption), "tone" := Str(n.tone)]
  }

  function EdgeFields(e: Edge): Fields {
    map["id" := Str(e.id), "source" := Str(e.source), "target" := Str(e.target)]
    + (if e.caption.Some? then map["label" := Str(e.caption.value)] else map[])
  }

  function Nodes(): Encoding<Node> { Encoding((n: Node) => n.id, (n: Node) => NodeFields(n)) }
  function Edges(): Encoding<Edge> { Encoding((e: Edge) => e.id, (e: Edge) => EdgeFields(e)) }

  function Encode(g: Graph): Fields {
    map["id" := Str(g.id), "revision" := Num(g.revision as real),
        "nodes" := Arr(EncodeAll(Nodes(), g.nodes)), "edges" := Arr(EncodeAll(Edges(), g.edges))]
  }

  // ---- the domain ----

  function WithoutIncident(edges: seq<Edge>, nodeId: string): seq<Edge> {
    if edges == [] then []
    else (if edges[0].source == nodeId || edges[0].target == nodeId then [] else [edges[0]]) + WithoutIncident(edges[1..], nodeId)
  }

  function Renaming(caption: string): Node -> Node { (n: Node) => n.(caption := caption) }
  function Moving(x: real, y: real): Node -> Node { (n: Node) => n.(x := x, y := y) }

  function ApplyCommand(g: Graph, c: Command): Result<Graph> {
    var next := g.(revision := g.revision + 1);
    match c
    case NodeAdd(node) =>
      if Has(Nodes(), g.nodes, node.id) then Err("node already exists") else Ok(next.(nodes := g.nodes + [node]))
    case NodeRename(id, caption) =>
      if !Has(Nodes(), g.nodes, id) then Err("node does not exist")
      else Ok(next.(nodes := Update(Nodes(), g.nodes, id, Renaming(caption))))
    case NodeMove(id, x, y) =>
      if !Has(Nodes(), g.nodes, id) then Err("node does not exist")
      else Ok(next.(nodes := Update(Nodes(), g.nodes, id, Moving(x, y))))
    case NodeDelete(id) =>
      if !Has(Nodes(), g.nodes, id) then Err("node does not exist")
      else Ok(next.(nodes := Dropped(Nodes(), g.nodes, id), edges := WithoutIncident(g.edges, id)))
    case EdgeAdd(edge) =>
      if Has(Edges(), g.edges, edge.id) then Err("edge already exists")
      else if !Has(Nodes(), g.nodes, edge.source) || !Has(Nodes(), g.nodes, edge.target) then Err("edge endpoints must exist")
      else Ok(next.(edges := g.edges + [edge]))
    case EdgeDelete(id) =>
      if !Has(Edges(), g.edges, id) then Err("edge does not exist")
      else Ok(next.(edges := Dropped(Edges(), g.edges, id)))
  }

  // ---- the compiler ----

  function IncidentIds(edges: seq<Edge>, nodeId: string): seq<string> {
    if edges == [] then []
    else (if edges[0].source == nodeId || edges[0].target == nodeId then [edges[0].id] else []) + IncidentIds(edges[1..], nodeId)
  }

  function BuildPatches(g: Graph, c: Command): Result<seq<CanonicalPatch>> {
    var next :- ApplyCommand(g, c);
    Ok(match c
       case NodeAdd(node) => [EntityUpsert("nodes", node.id, NodeFields(node))]
       case NodeRename(id, caption) => [EntityUpsert("nodes", id, map["id" := Str(id), "label" := Str(caption)])]
       case NodeMove(id, x, y) => [EntityUpsert("nodes", id, map["id" := Str(id), "position" := Position(x, y)])]
       case NodeDelete(id) => [EntityDelete("nodes", id)] + Deletes("edges", IncidentIds(g.edges, id))
       case EdgeAdd(edge) => [EntityUpsert("edges", edge.id, EdgeFields(edge))]
       case EdgeDelete(id) => [EntityDelete("edges", id)])
  }

  /** The strategy: the compiled patches and the new revision. */
  function Resolve(g: Graph, version: nat, c: Command): Result<seq<CanonicalPatch>> {
    var patches :- BuildPatches(g, c);
    Ok(patches + [Revision(version)])
  }

  // ---- the invariant ----

  predicate EndpointsExist(g: Graph) {
    forall i :: 0 <= i < |g.edges| ==> Has(Nodes(), g.nodes, g.edges[i].source) && Has(Nodes(), g.nodes, g.edges[i].target)
  }

  /** What `graph.valid-references` accepts; coordinates are finite numbers by their type. */
  ghost predicate ValidReferences(g: Graph) {
    UniqueIds(Nodes(), g.nodes) && UniqueIds(Edges(), g.edges) && EndpointsExist(g)
  }

  /** Ids that the patch applier accepts. */
  predicate Addressable(g: Graph) { GoodIds(Nodes(), g.nodes) && GoodIds(Edges(), g.edges) }

  /** Whether a command introduces an id that no patch can address: an empty one, or one of over 512 characters. */
  predicate NewIdGood(c: Command) {
    match c
    case NodeAdd(node) => GoodId(node.id)
    case EdgeAdd(edge) => GoodId(edge.id)
    case _ => true
  }

  // ---- the compiler commutes with the domain ----

  lemma {:induction false} Encodings()
    ensures KeepsId(Nodes()) && KeepsId(Edges())
    ensures JsonPointer.SafeName("nodes") && JsonPointer.SafeName("edges")
  {
  }

  lemma {:induction false} EncodeParts(g: Graph, nodes: seq<Node>, edges: seq<Edge>, revision: nat)
    ensures Encode(g)["nodes" := Arr(EncodeAll(Nodes(), nodes))] == Encode(g.(nodes := nodes))
    ensures Encode(g)["edges" := Arr(EncodeAll(Edges(), edges))] == Encode(g.(edges := edges))
    ensures Encode(g)["revision" := Num(revision as real)] == Encode(g.(revision := revision))
  {
  }

  lemma {:induction false} RenameMerges(id: string, caption: string)
    ensures forall n: Node :: n.id == id ==> NodeFields(Renaming(caption)(n)) == NodeFields(n) + map["id" := Str(id), "label" := Str(caption)]
  {
  }

  lemma {:induction false} MoveMerges(id: string, x: real, y: real)
    ensures forall n: Node :: n.id == id ==> NodeFields(Moving(x, y)(n)) == NodeFields(n) + map["id" := Str(id), "position" := Position(x, y)]
  {
  }

  /** Deleting the incident edges one by one, by id, is filtering them out. */
  lemma {:induction false} IncidentRemoved(edges: seq<Edge>, nodeId: string)
    requires UniqueIds(Edges(), edges)
    ensures RemoveAll(Edges(), edges, IncidentIds(edges, nodeId)) == WithoutIncident(edges, nodeId)
  {
    if edges != [] {
      var e, rest := edges[0], edges[1..];
      assert edges == [e] + rest;
      UniqueTail(edges);
      IncidentRemoved(rest, nodeId);
      if e.source == nodeId || e.target == nodeId { HeadRemoved(e, rest, nodeId); }
      else { HeadStays(e, rest, nodeId); }
    }
  }

  lemma {:induction false} UniqueTail(edges: seq<Edge>)
    requires UniqueIds(Edges(), edges) && edges != []
    ensures UniqueIds(Edges(), edges[1..])
    ensures forall i :: 0 <= i < |edges[1..]| ==> edges[1..][i].id != edges[0].id
  {
    assert forall i :: 0 <= i < |edges[1..]| ==> edges[1..][i] == edges[i + 1];
    forall i | 0 <= i < |edges[1..]| ensures edges[1..][i].id != edges[0].id { assert Edges().id(edges[0]) != Edges().id(edges[i + 1]); }
  }

  lemma {:induction false} HeadRemoved(e: Edge, rest: seq<Edge>, nodeId: string)
    requires (e.source == nodeId || e.target == nodeId) && forall i :: 0 <= i < |rest| ==> rest[i].id != e.id
    ensures RemoveAll(Edges(), [e] + rest, IncidentIds([e] + rest, nodeId)) == RemoveAll(Edges(), rest, IncidentIds(rest, nodeId))
    ensures WithoutIncident([e] + rest, nodeId) == WithoutIncident(rest, nodeId)
  {
    var all, ids := [e] + rest, IncidentIds(rest, nodeId);
    assert all[1..] == rest;
    NothingRemoved(rest, e.id);
    assert IncidentIds(all, nodeId) == [e.id] + ids && ([e.id] + ids)[1..] == ids;
    assert Dropped(Edges(), all, e.id) == rest;
  }

  lemma {:induction false} HeadStays(e: Edge, rest: seq<Edge>, nodeId: string)
    requires e.source != nodeId && e.target != nodeId && forall i :: 0 <= i < |rest| ==> rest[i].id != e.id
    ensures RemoveAll(Edges(), [e] + rest, IncidentIds([e] + rest, nodeId)) == [e] + RemoveAll(Edges(), rest, IncidentIds(rest, nodeId))
    ensures WithoutIncident([e] + rest, nodeId) == [e] + WithoutIncident(rest, nodeId)
  {
    var all, ids := [e] + rest, IncidentIds(rest, nodeId);
    assert all[1..] == rest;
    IncidentAre(rest, nodeId);
    assert IncidentIds(all, nodeId) == ids && e.id !in ids;
    RemoveAllSwaps(Edges(), [e], rest, ids);
    KeptAlone(e, ids);
  }

  lemma {:induction false} NothingRemoved(edges: seq<Edge>, id: string)
    requires forall i :: 0 <= i < |edges| ==> edges[i].id != id
    ensures Dropped(Edges(), edges, id) == edges
  {
    if edges != [] { NothingRemoved(edges[1..], id); }
  }

  lemma {:induction false} KeptAlone(e: Edge, ids: seq<string>)
    requires e.id !in ids
    ensures RemoveAll(Edges(), [e], ids) == [e]
    decreases |ids|
  {
    if ids != [] {
      assert [e][1..] == [];
      assert Dropped(Edges(), [e], ids[0]) == [e];
      KeptAlone(e, ids[1..]);
    }
  }

  lemma {:induction false} IncidentAre(edges: seq<Edge>, nodeId: string)
    ensures forall id :: id in IncidentIds(edges, nodeId) ==>
      exists i :: 0 <= i < |edges| && edges[i].id == id && (edges[i].source == nodeId || edges[i].target == nodeId)
  {
    if edges != [] {
      IncidentAre(edges[1..], nodeId);
      forall id | id in IncidentIds(edges, nodeId)
        ensures exists i :: 0 <= i < |edges| && edges[i].id == id && (edges[i].source == nodeId || edges[i].target == nodeId)
      {
        if id in IncidentIds(edges[1..], nodeId) {
          var i :| 0 <= i < |edges[1..]| && edges[1..][i].id == id && (edges[1..][i].source == nodeId || edges[1..][i].target == nodeId);
          assert edges[i + 1].id == id;
        } else {
          assert edges[0].id == id;
        }
      }
    }
  }

  /** The patches without the revision leave everything as the command does, except the revision. */
  lemma {:induction false} PatchesCommute(g: Graph, c: Command)
    requires ValidReferences(g) && Addressable(g) && ApplyCommand(g, c).Ok?
    ensures var applied := ApplyAll(Encode(g), BuildPatches(g, c).value);
      if NewIdGood(c) then applied == Ok(Encode(ApplyCommand(g, c).value.(revision := g.revision))) else applied.Err?
  {
    Encodings();
    if c.NodeDelete? { DeletePatchesCommute(g, c); }
    else if c.NodeRename? || c.NodeMove? { UpdatePatchesCommute(g, c); }
    else if c.EdgeDelete? { EdgeDeleteCommutes(g, c); }
    else { AddPatchesCommute(g, c); }
  }

  lemma {:induction false} AddPatchesCommute(g: Graph, c: Command)
    requires (c.NodeAdd? || c.EdgeAdd?) && ApplyCommand(g, c).Ok?
    ensures var applied := ApplyAll(Encode(g), BuildPatches(g, c).value);
      if NewIdGood(c) then applied == Ok(Encode(ApplyCommand(g, c).value.(revision := g.revision))) else applied.Err?
  {
    Encodings();
    ApplyOne(Encode(g), BuildPatches(g, c).value[0]);
    if c.NodeAdd? {
      UpsertApplies(Nodes(), Encode(g), "nodes", g.nodes, c.node.id, NodeFields(c.node));
      AppendCommutes(Nodes(), g.nodes, c.node);
      EncodeParts(g, g.nodes + [c.node], g.edges, 0);
    } else {
      UpsertApplies(Edges(), Encode(g), "edges", g.edges, c.edge.id, EdgeFields(c.edge));
      AppendCommutes(Edges(), g.edges, c.edge);
      EncodeParts(g, g.nodes, g.edges + [c.edge], 0);
    }
  }

  lemma {:induction false} UpdatePatchesCommute(g: Graph, c: Command)
    requires ValidReferences(g) && Addressable(g) && (c.NodeRename? || c.NodeMove?) && ApplyCommand(g, c).Ok?
    ensures ApplyAll(Encode(g), BuildPatches(g, c).value) == Ok(Encode(ApplyCommand(g, c).value.(revision := g.revision)))
  {
    Encodings();
    var i :| 0 <= i < |g.nodes| && Nodes().id(g.nodes[i]) == c.nodeId;
    assert GoodId(Nodes().id(g.nodes[i]));
    ApplyOne(Encode(g), BuildPatches(g, c).value[0]);
    EncodeParts(g, ApplyCommand(g, c).value.nodes, g.edges, 0);
    UpsertApplies(Nodes(), Encode(g), "nodes", g.nodes, c.nodeId, BuildPatches(g, c).value[0].fields);
    if c.NodeRename? {
      RenameMerges(c.nodeId, c.caption);
      MergeCommutes(Nodes(), g.nodes, c.nodeId, map["id" := Str(c.nodeId), "label" := Str(c.caption)], Renaming(c.caption));
    } else {
      MoveMerges(c.nodeId, c.x, c.y);
      MergeCommutes(Nodes(), g.nodes, c.nodeId, map["id" := Str(c.nodeId), "position" := Position(c.x, c.y)], Moving(c.x, c.y));
    }
  }

  lemma {:induction false} EdgeDeleteCommutes(g: Graph, c: Command)
    requires Addressable(g) && c.EdgeDelete? && ApplyCommand(g, c).Ok?
    ensures ApplyAll(Encode(g), BuildPatches(g, c).value) == Ok(Encode(ApplyCommand(g, c).value.(revision := g.revision)))
  {
    Encodings();
    var i :| 0 <= i < |g.edges| && Edges().id(g.edges[i]) == c.edgeId;
    assert GoodId(Edges().id(g.edges[i]));
    ApplyOne(Encode(g), BuildPatches(g, c).value[0]);
    DeleteApplies(Edges(), Encode(g), "edges", g.edges, c.edgeId);
    EncodeParts(g, g.nodes, Dropped(Edges(), g.edges, c.edgeId), 0);
  }

  lemma {:induction false} IncidentGood(g: Graph, nodeId: string)
    requires Addressable(g)
    ensures forall k :: 0 <= k < |IncidentIds(g.edges, nodeId)| ==> GoodId(IncidentIds(g.edges, nodeId)[k])
  {
    var ids := IncidentIds(g.edges, nodeId);
    IncidentAre(g.edges, nodeId);
    forall k | 0 <= k < |ids| ensures GoodId(ids[k]) {
      assert ids[k] in ids;
      var m :| 0 <= m < |g.edges| && g.edges[m].id == ids[k];
      assert GoodId(Edges().id(g.edges[m]));
    }
  }

  lemma {:induction false} NodeDeleteApplies(g: Graph, nodeId: string)
    requires Addressable(g) && Has(Nodes(), g.nodes, nodeId)
    ensures ApplyAll(Encode(g), [EntityDelete("nodes", nodeId)]) == Ok(Encode(g.(nodes := Dropped(Nodes(), g.nodes, nodeId))))
  {
    Encodings();
    var i :| 0 <= i < |g.nodes| && Nodes().id(g.nodes[i]) == nodeId;
    assert GoodId(Nodes().id(g.nodes[i]));
    ApplyOne(Encode(g), EntityDelete("nodes", nodeId));
    DeleteApplies(Nodes(), Encode(g), "nodes", g.nodes, nodeId);
    EncodeParts(g, Dropped(Nodes(), g.nodes, nodeId), g.edges, 0);
  }

  lemma {:induction false} EdgeDeletesApply(g: Graph, edges: seq<Edge>, nodeId: string)
    requires UniqueIds(Edges(), g.edges) && g.edges == edges
    requires forall k :: 0 <= k < |IncidentIds(edges, nodeId)| ==> GoodId(IncidentIds(edges, nodeId)[k])
    ensures ApplyAll(Encode(g), Deletes("edges", IncidentIds(edges, nodeId))) == Ok(Encode(g.(edges := WithoutIncident(edges, nodeId))))
  {
    Encodings();
    DeletesApply(Edges(), Encode(g), "edges", edges, IncidentIds(edges, nodeId));
    IncidentRemoved(edges, nodeId);
    EncodeParts(g, g.nodes, WithoutIncident(edges, nodeId), 0);
  }

  lemma {:induction false} DeletePatchesCommute(g: Graph, c: Command)
    requires ValidReferences(g) && Addressable(g) && c.NodeDelete? && ApplyCommand(g, c).Ok?
    ensures ApplyAll(Encode(g), BuildPatches(g, c).value) == Ok(Encode(ApplyCommand(g, c).value.(revision := g.revision)))
  {
    IncidentGood(g, c.nodeId);
    NodeDeleteApplies(g, c.nodeId);
    EdgeDeletesApply(g.(nodes := Dropped(Nodes(), g.nodes, c.nodeId)), g.edges, c.nodeId);
    ApplyAllAppend(Encode(g), [EntityDelete("nodes", c.nodeId)], Deletes("edges", IncidentIds(g.edges, c.nodeId)));
  }

  /**
   * On a graph that its pack accepts and whose revision is the canonical version, applying the strategy's patches is
   * applying the command, unless the command's new id is one that no patch can address.
   */
  lemma {:induction false} CompilerCommutes(g: Graph, version: nat, c: Command, next: Graph, patches: seq<CanonicalPatch>)
    requires ValidReferences(g) && Addressable(g) && g.revision == version && ApplyCommand(g, c) == Ok(next)
    requires Resolve(g, version, c) == Ok(patches)
    ensures if NewIdGood(c) then ApplyAll(Encode(g), patches) == Ok(Encode(next)) else ApplyAll(Encode(g), patches).Err?
  {
    var front := patches[..|patches| - 1];
    Resolution(g, version, c, next, patches);
    assert if NewIdGood(c) then ApplyAll(Encode(g), front) == Ok(Encode(next.(revision := version))) else ApplyAll(Encode(g), front).Err? by {
      PatchesCommute(g, c);
    }
    WithRevision(Encode(g), front, next.(revision := version), version);
    assert next.(revision := version).(revision := version + 1) == next;
  }

  lemma {:induction false} Resolution(g: Graph, version: nat, c: Command, next: Graph, patches: seq<CanonicalPatch>)
    requires ApplyCommand(g, c) == Ok(next) && Resolve(g, version, c) == Ok(patches)
    ensures patches != [] && patches[..|patches| - 1] == BuildPatches(g, c).value
    ensures patches == patches[..|patches| - 1] + [Revision(version)] && next.revision == g.revision + 1
  {
  }

  /** The strategy rejects exactly what the domain rejects. */
  lemma {:induction false} ResolveIs(g: Graph, version: nat, c: Command)
    ensures if ApplyCommand(g, c).Ok? then Resolve(g, version, c) == Ok(BuildPatches(g, c).value + [Revision(version)])
            else Resolve(g, version, c).Err?
  {
  }

  lemma {:induction false} CommandRaisesRevision(g: Graph, c: Command)
    ensures BuildPatches(g, c).Ok? <==> ApplyCommand(g, c).Ok?
    ensures ApplyCommand(g, c).Ok? ==>
      var next := ApplyCommand(g, c).value; next == next.(revision := g.revision).(revision := g.revision + 1)
  {
  }

  lemma {:induction false} WithRevision(state: Fields, patches: seq<CanonicalPatch>, mid: Graph, version: nat)
    ensures ApplyAll(state, patches).Err? ==> ApplyAll(state, patches + [Revision(version)]).Err?
    ensures ApplyAll(state, patches) == Ok(Encode(mid)) ==>
      ApplyAll(state, patches + [Revision(version)]) == Ok(Encode(mid.(revision := version + 1)))
  {
    ApplyAllAppend(state, patches, [Revision(version)]);
    RevisionPath();
    ApplyOne(Encode(mid), Revision(version));
    EncodeParts(mid, [], [], version + 1);
  }

  // ---- the invariant is kept ----

  lemma {:induction false} WithoutIncidentAre(edges: seq<Edge>, nodeId: string)
    ensures forall e :: e in WithoutIncident(edges, nodeId) <==> e in edges && e.source != nodeId && e.target != nodeId
  {
    if edges != [] {
      assert edges == [edges[0]] + edges[1..];
      WithoutIncidentAre(edges[1..], nodeId);
    }
  }

  lemma {:induction false} HasIn<T(!new)>(c: Encoding<T>, records: seq<T>, id: string)
    ensures Has(c, records, id) <==> exists r :: r in records && c.id(r) == id
  {
    if Has(c, records, id) {
      var i :| 0 <= i < |records| && c.id(records[i]) == id;
      assert records[i] in records;
    }
  }

  lemma {:induction false} GoodIn<T(!new)>(c: Encoding<T>, records: seq<T>)
    ensures GoodIds(c, records) <==> forall r :: r in records ==> GoodId(c.id(r))
  {
    if GoodIds(c, records) { forall r | r in records ensures GoodId(c.id(r)) { var i :| 0 <= i < |records| && records[i] == r; } }
    else { var i :| 0 <= i < |records| && !GoodId(c.id(records[i])); assert records[i] in records; }
  }

  /** Every node that an edge of the new graph needs is still there. */
  lemma {:induction false} DeleteKeepsEndpoints(g: Graph, nodeId: string)
    requires ValidReferences(g)
    ensures EndpointsExist(g.(nodes := Dropped(Nodes(), g.nodes, nodeId), edges := WithoutIncident(g.edges, nodeId)))
  {
    var nodes, edges := Dropped(Nodes(), g.nodes, nodeId), WithoutIncident(g.edges, nodeId);
    WithoutIncidentAre(g.edges, nodeId);
    forall i | 0 <= i < |edges| ensures Has(Nodes(), nodes, edges[i].source) && Has(Nodes(), nodes, edges[i].target) {
      assert edges[i] in edges;
      var k :| 0 <= k < |g.edges| && g.edges[k] == edges[i];
      StillThere(g.nodes, nodeId, edges[i].source);
      StillThere(g.nodes, nodeId, edges[i].target);
    }
  }

  lemma {:induction false} StillThere(nodes: seq<Node>, removed: string, id: string)
    requires Has(Nodes(), nodes, id) && id != removed
    ensures Has(Nodes(), Dropped(Nodes(), nodes, removed), id)
  {
    var i :| 0 <= i < |nodes| && Nodes().id(nodes[i]) == id;
    RemoveMembers(Nodes(), nodes, removed);
    assert nodes[i] in Dropped(Nodes(), nodes, removed);
    HasIn(Nodes(), Dropped(Nodes(), nodes, removed), id);
  }

  lemma {:induction false} IncidentUnique(edges: seq<Edge>, nodeId: string)
    requires UniqueIds(Edges(), edges)
    ensures UniqueIds(Edges(), WithoutIncident(edges, nodeId))
  {
    IncidentRemoved(edges, nodeId);
    RemoveAllKeeps(Edges(), edges, IncidentIds(edges, nodeId));
  }

  lemma {:induction false} AppendUnique<T(!new)>(c: Encoding<T>, records: seq<T>, r: T)
    requires UniqueIds(c, records) && !Has(c, records, c.id(r))
    ensures UniqueIds(c, records + [r])
    ensures forall id :: Has(c, records, id) ==> Has(c, records + [r], id)
    ensures GoodIds(c, records) && GoodId(c.id(r)) ==> GoodIds(c, records + [r])
  {
    var more := records + [r];
    assert forall i :: 0 <= i < |records| ==> more[i] == records[i];
    forall id | Has(c, records, id) ensures Has(c, more, id) {
      var i :| 0 <= i < |records| && c.id(records[i]) == id;
      assert c.id(more[i]) == id;
    }
  }

  /** A command that the domain accepts never breaks the invariant its pack checks. */
  lemma {:induction false} CommandKeepsInvariant(g: Graph, c: Command)
    requires ValidReferences(g) && Addressable(g) && ApplyCommand(g, c).Ok? && NewIdGood(c)
    ensures ValidReferences(ApplyCommand(g, c).value) && Addressable(ApplyCommand(g, c).value)
  {
    match c
    case NodeAdd(node) => AppendUnique(Nodes(), g.nodes, node);
    case NodeRename(id, caption) => UpdateKeepsIds(Nodes(), g.nodes, id, Renaming(caption));
    case NodeMove(id, x, y) => UpdateKeepsIds(Nodes(), g.nodes, id, Moving(x, y));
    case NodeDelete(id) =>
      RemoveKeeps(Nodes(), g.nodes, id);
      RemoveMembers(Nodes(), g.nodes, id);
      GoodIn(Nodes(), g.nodes);
      GoodIn(Nodes(), Dropped(Nodes(), g.nodes, id));
      IncidentUnique(g.edges, id);
      WithoutIncidentAre(g.edges, id);
      GoodIn(Edges(), g.edges);
      GoodIn(Edges(), WithoutIncident(g.edges, id));
      DeleteKeepsEndpoints(g, id);
    case EdgeAdd(edge) => AppendUnique(Edges(), g.edges, edge);
    case EdgeDelete(id) => EdgeDeleteKeeps(g, id);
  }

  lemma {:induction false} EdgeDeleteKeeps(g: Graph, id: string)
    requires ValidReferences(g) && Addressable(g)
    ensures var next := g.(edges := Dropped(Edges(), g.edges, id)); ValidReferences(next) && Addressable(next)
  {
    var edges := Dropped(Edges(), g.edges, id);
    RemoveKeeps(Edges(), g.edges, id);
    RemoveMembers(Edges(), g.edges, id);
    GoodIn(Edges(), g.edges);
    GoodIn(Edges(), edges);
    forall i | 0 <= i < |edges| ensures Has(Nodes(), g.nodes, edges[i].source) && Has(Nodes(), g.nodes, edges[i].target) {
      assert edges[i] in edges;
      var k :| 0 <= k < |g.edges| && g.edges[k] == edges[i];
    }
  }

  // ---- runs ----

  function InitialGraph(id: string): Graph {
    Graph(id, 0, [Node("build", 180.0, 170.0, "Build", "green"), Node("ship", 520.0, 170.0, "Ship", "amber")],
          [Edge("build-ship", "build", "ship", None)])
  }

  /** One operation: the JSON state and the graph it stands for, after the commit or unchanged. */
  function Commit(state: Fields, g: Graph, version: nat, c: Command): (Fields, Graph, nat) {
    var patches := Resolve(g, version, c);
    if patches.Err? || ApplyAll(state, patches.value).Err? || ApplyCommand(g, c).Err? then (state, g, version)
    else (ApplyAll(state, patches.value).value, ApplyCommand(g, c).value, version + 1)
  }

  function Committed(state: Fields, g: Graph, version: nat, commands: seq<Command>): (Fields, Graph, nat)
    decreases |commands|
  {
    if commands == [] then (state, g, version)
    else
      var (next, h, v) := Commit(state, g, version, commands[0]);
      Committed(next, h, v, commands[1..])
  }

  ghost predicate Consistent(state: Fields, g: Graph, version: nat) {
    state == Encode(g) && g.revision == version && ValidReferences(g) && Addressable(g)
  }

  lemma {:induction false} CommitIsConsistent(state: Fields, g: Graph, version: nat, c: Command)
    requires Consistent(state, g, version)
    ensures var (next, h, v) := Commit(state, g, version, c); Consistent(next, h, v)
  {
    ResolveIs(g, version, c);
    if ApplyCommand(g, c).Ok? {
      CompilerCommutes(g, version, c, ApplyCommand(g, c).value, Resolve(g, version, c).value);
      CommandRaisesRevision(g, c);
      if NewIdGood(c) { CommandKeepsInvariant(g, c); }
    }
  }

  /** Along every run the state is the domain's graph, its revision is the version, and the references are valid. */
  lemma {:induction false} RunsStayConsistent(state: Fields, g: Graph, version: nat, commands: seq<Command>)
    requires Consistent(state, g, version)
    ensures var (next, h, v) := Committed(state, g, version, commands); Consistent(next, h, v)
    decreases |commands|
  {
    if commands != [] {
      CommitIsConsistent(state, g, version, commands[0]);
      var (next, h, v) := Commit(state, g, version, commands[0]);
      RunsStayConsistent(next, h, v, commands[1..]);
    }
  }

  lemma {:induction false} InitialIsValid(id: string)
    ensures Consistent(Encode(InitialGraph(id)), InitialGraph(id), 0)
  {
    var g := InitialGraph(id);
    assert "build"[0] != "ship"[0];
    assert Nodes().id(g.nodes[0]) == "build" && Nodes().id(g.nodes[1]) == "ship";
  }
}
