/** Drafts along runs: all commands of the application, and all patches that any strategy of the pack accepts. */
module DraftRuns {
  import opened Results
  import opened Json
  import opened JsonPatch
  import opened EntityPatches
  import opened DraftDomain

  // ---- renaming, through the property strategy ----

  lemma {:induction false} RenameCommutes(n: Numerals, d: DraftDocument, version: nat, title: string)
    requires d.revision == version
    ensures ApplyAll(Encode(d), [Set("/title", Str(title))] + [Revision(version)]) == Ok(Encode(ApplyCommand(n, d, Rename(title)).value))
  {
    var titled := d.(title := title);
    TitleApplies(d, title);
    WithRevision(Encode(d), [Set("/title", Str(title))], titled, version);
    assert titled.(revision := version + 1) == ApplyCommand(n, d, Rename(title)).value;
  }

  lemma {:induction false} TitleApplies(d: DraftDocument, title: string)
    ensures ApplyAll(Encode(d), [Set("/title", Str(title))]) == Ok(Encode(d.(title := title)))
  {
    PathSet(Encode(d), "title", Str(title));
    assert "/" + "title" == "/title";
    ApplyOne(Encode(d), Set("/title", Str(title)));
    EncodeTitle(d, title);
  }

  lemma {:induction false} EncodeTitle(d: DraftDocument, title: string)
    ensures Encode(d)["title" := Str(title)] == Encode(d.(title := title))
  {
  }

  // ---- moving, through the list-order strategy ----

  /** `rankBetween` on the neighbours' keys: an empty key counts as no neighbour. */
  function RightOf(n: Numerals, order: seq<Section>, i: nat, left: real): real
    requires i <= |order|
  {
    if i < |order| && order[i].orderKey != "" then n.number(order[i].orderKey) else left + 2048.0
  }

  function LeftOf(n: Numerals, order: seq<Section>, i: nat): real
    requires i <= |order|
  {
    if i > 0 && order[i - 1].orderKey != "" then n.number(order[i - 1].orderKey) else 0.0
  }

  function RankAt(n: Numerals, order: seq<Section>, i: nat): real
    requires i <= |order|
  {
    var left := LeftOf(n, order, i);
    var right := RightOf(n, order, i, left);
    if right <= left then left + 0.5 else (left + right) / 2.0
  }

  /** Where the domain itself puts the section. */
  function MiddleAt(n: Numerals, order: seq<Section>, i: nat): real
    requires i <= |order|
  {
    var left := if i > 0 then n.number(order[i - 1].orderKey) else 0.0;
    var right := if i < |order| then n.number(order[i].orderKey) else left + 2048.0;
    (left + right) / 2.0
  }

  function OrderWithout(n: Numerals, d: DraftDocument, id: string): seq<Section> {
    InOrder(n, Dropped(Sections(), d.sections, id))
  }

  function PlaceOf(n: Numerals, d: DraftDocument, c: Command): (i: nat)
    requires c.Move?
    ensures i <= |OrderWithout(n, d, c.sectionId)|
  {
    if c.after != "" then PlaceAfter(OrderWithout(n, d, c.sectionId), c.after) else 0
  }

  /** The strategy's decision: the new key, or the reason for refusing. */
  function Position(n: Numerals, d: DraftDocument, c: Command): Result<string>
    requires c.Move?
  {
    if !Has(Sections(), d.sections, c.sectionId) then Err("entity does not exist")
    else if c.after != "" && !Has(Sections(), OrderWithout(n, d, c.sectionId), c.after) then Err("afterId does not exist")
    else Ok(n.text(RankAt(n, OrderWithout(n, d, c.sectionId), PlaceOf(n, d, c))))
  }

  lemma {:induction false} PlaceAfterFinds(sections: seq<Section>, id: string)
    ensures PlaceAfter(sections, id) > 0 <==> Has(Sections(), sections, id)
  {
    if sections != [] {
      PlaceAfterFinds(sections[1..], id);
      if Has(Sections(), sections[1..], id) {
        var k :| 0 <= k < |sections[1..]| && Sections().id(sections[1..][k]) == id;
        assert Sections().id(sections[k + 1]) == id;
      }
      if Has(Sections(), sections, id) && sections[0].id != id {
        var k :| 0 <= k < |sections| && Sections().id(sections[k]) == id;
        assert Sections().id(sections[1..][k - 1]) == id;
      }
      if sections[0].id == id { assert Sections().id(sections[0]) == id; }
    }
  }

  /** The strategy refuses exactly the moves that the domain refuses. */
  lemma {:induction false} MoveRefusals(n: Numerals, d: DraftDocument, c: Command)
    requires c.Move?
    ensures Position(n, d, c).Ok? <==> ApplyCommand(n, d, c).Ok?
    ensures ApplyCommand(n, d, c).Ok? ==>
      ApplyCommand(n, d, c).value == Moved(d, c.sectionId, n.text(MiddleAt(n, OrderWithout(n, d, c.sectionId), PlaceOf(n, d, c))))
  {
    PlaceAfterFinds(OrderWithout(n, d, c.sectionId), c.after);
  }

  function Moved(d: DraftDocument, id: string, key: string): DraftDocument {
    d.(revision := d.revision + 1, sections := Update(Sections(), d.sections, id, Keyed(key)))
  }

  lemma {:induction false} ReorderIsUpdate(sections: seq<Section>, id: string, key: string)
    ensures Reorder(EncodeAll(Sections(), sections), id, key) == EncodeAll(Sections(), Update(Sections(), sections, id, Keyed(key)))
  {
    if sections != [] {
      var s := sections[0];
      assert EncodeAll(Sections(), sections)[1..] == EncodeAll(Sections(), sections[1..]);
      assert Update(Sections(), sections, id, Keyed(key))[1..] == Update(Sections(), sections[1..], id, Keyed(key));
      ReorderIsUpdate(sections[1..], id, key);
      KeyedFields(s, key);
      assert HasId(Obj(SectionFields(s)), id) <==> s.id == id;
    }
  }

  lemma {:induction false} KeyedFields(s: Section, key: string)
    ensures SectionFields(Keyed(key)(s)) == SectionFields(s)["orderKey" := Str(key)]
  {
  }

  /** What the list-order patch and the revision do to any addressable draft. */
  lemma {:induction false} OrderPatchApplies(d: DraftDocument, version: nat, id: string, key: string)
    requires Addressable(d) && Has(Sections(), d.sections, id) && d.revision == version
    ensures ApplyAll(Encode(d), [ListOrder("sections", id, key)] + [Revision(version)]) == Ok(Encode(Moved(d, id, key)))
  {
    var ordered := d.(sections := Update(Sections(), d.sections, id, Keyed(key)));
    var patch: CanonicalPatch := ListOrder("sections", id, key);
    OrderApplies(d, id, key);
    ApplyOne(Encode(d), patch);
    WithRevision(Encode(d), [patch], ordered, version);
    assert ordered.(revision := version + 1) == Moved(d, id, key);
  }

  lemma {:induction false} OrderApplies(d: DraftDocument, id: string, key: string)
    requires Addressable(d) && Has(Sections(), d.sections, id)
    ensures Apply(Encode(d), ListOrder("sections", id, key)) == Ok(Encode(d.(sections := Update(Sections(), d.sections, id, Keyed(key)))))
  {
    Encodings();
    KnownIdGood(d, id);
    ReorderIsUpdate(d.sections, id, key);
    EncodeParts(d, Update(Sections(), d.sections, id, Keyed(key)), d.completion, 0, d.status);
  }

  /** Different keys give different states. */
  lemma {:induction false} KeysShow(d: DraftDocument, id: string, a: string, b: string)
    requires Has(Sections(), d.sections, id)
    ensures Encode(Moved(d, id, a)) == Encode(Moved(d, id, b)) <==> a == b
  {
    var i :| 0 <= i < |d.sections| && Sections().id(d.sections[i]) == id;
    var x, y := EncodeAll(Sections(), Moved(d, id, a).sections), EncodeAll(Sections(), Moved(d, id, b).sections);
    assert Encode(Moved(d, id, a))["sections"] == Arr(x) && Encode(Moved(d, id, b))["sections"] == Arr(y);
    assert x[i].fields["orderKey"] == Str(a) && y[i].fields["orderKey"] == Str(b);
  }

  /** The next section, if any, has a key, and it lies beyond the one before. */
  predicate RoomAhead(n: Numerals, order: seq<Section>, i: nat)
    requires i <= |order|
  {
    var left := LeftOf(n, order, i);
    i < |order| ==> n.number(order[i].orderKey) == RightOf(n, order, i, left) && left < n.number(order[i].orderKey)
  }

  /** `rankBetween` finds the domain's middle exactly when there is room ahead: it never returns one for equal or falling keys. */
  lemma {:induction false} SameRankWithRoom(n: Numerals, order: seq<Section>, i: nat)
    requires i <= |order| && n.number("") == 0.0
    ensures RankAt(n, order, i) == MiddleAt(n, order, i) <==> RoomAhead(n, order, i)
  {
  }

  /**
   * A move through the list-order strategy gives the domain's draft if and only if there is room ahead of it, as
   * long as printing tells the two keys apart.
   */
  lemma {:induction false} MoveCommutes(n: Numerals, d: DraftDocument, version: nat, c: Command)
    requires c.Move? && Addressable(d) && d.revision == version && ApplyCommand(n, d, c).Ok? && n.number("") == 0.0
    requires var order, i := OrderWithout(n, d, c.sectionId), PlaceOf(n, d, c);
      n.text(RankAt(n, order, i)) == n.text(MiddleAt(n, order, i)) ==> RankAt(n, order, i) == MiddleAt(n, order, i)
    ensures Position(n, d, c).Ok?
    ensures ApplyAll(Encode(d), [ListOrder("sections", c.sectionId, Position(n, d, c).value)] + [Revision(version)]) == Ok(Encode(ApplyCommand(n, d, c).value))
      <==> RoomAhead(n, OrderWithout(n, d, c.sectionId), PlaceOf(n, d, c))
  {
    var order, i := OrderWithout(n, d, c.sectionId), PlaceOf(n, d, c);
    MoveRefusals(n, d, c);
    OrderPatchApplies(d, version, c.sectionId, Position(n, d, c).value);
    KeysShow(d, c.sectionId, Position(n, d, c).value, n.text(MiddleAt(n, order, i)));
    SameRankWithRoom(n, order, i);
  }

  // ---- runs of commands ----

  function InitialDraft(id: string): DraftDocument {
    DraftDocument(id, 0, "Launch checklist", Draft,
      [Section("intro", "Write introduction", "Coordinate the first task together.", "1024", false),
       Section("plan", "Plan milestones", "Assign owners and due dates.", "2048", false)],
      Completion(0, 2, 0), map[])
  }

  /** The draft after a command: a move takes the strategy's key, everything else is the domain's own. */
  function After(n: Numerals, d: DraftDocument, c: Command): Result<DraftDocument> {
    if c.Move? then
      var key :- Position(n, d, c);
      Ok(Moved(d, c.sectionId, key))
    else ApplyCommand(n, d, c)
  }

  /** What the pack's strategies make of any command, with the revision. */
  function Patches(n: Numerals, d: DraftDocument, version: nat, c: Command): Result<seq<CanonicalPatch>> {
    if c.Move? then
      var key :- Position(n, d, c);
      Ok([ListOrder("sections", c.sectionId, key)] + [Revision(version)])
    else if c.Rename? then Ok([Set("/title", Str(c.title))] + [Revision(version)])
    else Resolve(n, d, version, c)
  }

  function Commit(n: Numerals, state: Fields, d: DraftDocument, version: nat, c: Command): (Fields, DraftDocument, nat) {
    var patches := Patches(n, d, version, c);
    if patches.Err? || ApplyAll(state, patches.value).Err? || After(n, d, c).Err? then (state, d, version)
    else (ApplyAll(state, patches.value).value, After(n, d, c).value, version + 1)
  }

  function Committed(n: Numerals, state: Fields, d: DraftDocument, version: nat, commands: seq<Command>): (Fields, DraftDocument, nat)
    decreases |commands|
  {
    if commands == [] then (state, d, version)
    else
      var (next, e, v) := Commit(n, state, d, version, commands[0]);
      Committed(n, next, e, v, commands[1..])
  }

  ghost predicate Consistent(state: Fields, d: DraftDocument, version: nat) {
    state == Encode(d) && d.revision == version && Valid(d) && Addressable(d)
  }

  lemma {:induction false} MoveKeepsInvariants(d: DraftDocument, id: string, key: string)
    requires Valid(d) && Addressable(d)
    ensures Valid(Moved(d, id, key)) && Addressable(Moved(d, id, key))
  {
    UpdateKeepsIds(Sections(), d.sections, id, Keyed(key));
    SameCount(d.sections, Moved(d, id, key).sections);
  }

  lemma {:induction false} CommitIsConsistent(n: Numerals, state: Fields, d: DraftDocument, version: nat, c: Command)
    requires Consistent(state, d, version)
    ensures var (next, e, v) := Commit(n, state, d, version, c); Consistent(next, e, v)
  {
    if c.Move? {
      if Position(n, d, c).Ok? {
        OrderPatchApplies(d, version, c.sectionId, Position(n, d, c).value);
        MoveKeepsInvariants(d, c.sectionId, Position(n, d, c).value);
      }
    } else if c.Rename? {
      RenameCommutes(n, d, version, c.title);
    } else {
      OwnCommandIsConsistent(n, state, d, version, c);
    }
  }

  lemma {:induction false} OwnCommandIsConsistent(n: Numerals, state: Fields, d: DraftDocument, version: nat, c: Command)
    requires (OnServer(c) || c.SubmitReview?) && Consistent(state, d, version)
    ensures var (next, e, v) := Commit(n, state, d, version, c); Consistent(next, e, v)
  {
    ResolveIs(n, d, version, c);
    if ApplyCommand(n, d, c).Ok? {
      var after, patches := ApplyCommand(n, d, c).value, Resolve(n, d, version, c).value;
      if c.SubmitReview? { SubmitReviewCommutes(n, d, version, c, after, patches); }
      else { SectionCommandsCommute(n, d, version, c, after, patches); }
      if NewIdGood(c) { CommandKeepsInvariants(n, d, c); }
    }
  }

  /**
   * Along every run of the application's commands the state is a draft of the domain, its revision is the version,
   * its ids are unique and its completion matches its sections.
   */
  lemma {:induction false} RunsStayConsistent(n: Numerals, state: Fields, d: DraftDocument, version: nat, commands: seq<Command>)
    requires Consistent(state, d, version)
    ensures var (next, e, v) := Committed(n, state, d, version, commands); Consistent(next, e, v)
    decreases |commands|
  {
    if commands != [] {
      CommitIsConsistent(n, state, d, version, commands[0]);
      var (next, e, v) := Commit(n, state, d, version, commands[0]);
      RunsStayConsistent(n, next, e, v, commands[1..]);
    }
  }

  lemma {:induction false} InitialIsConsistent(id: string)
    ensures Consistent(Encode(InitialDraft(id)), InitialDraft(id), 0)
  {
    var d := InitialDraft(id);
    assert "intro"[0] != "plan"[0];
    assert Sections().id(d.sections[0]) == "intro" && Sections().id(d.sections[1]) == "plan";
    assert d.sections[1..][1..] == [];
    assert CompletedCount(d.sections) == 0;
    assert 100.0 * (0 as real) / 2.0 + 0.5 == 0.5;
  }

  // ---- runs of any patches ----

  /** JavaScript's `String`, on a value or on none. */
  type Show = Option<Json> -> string

  function Truthy(v: Option<Json>): bool {
    match v
    case None => false
    case Some(Null) => false
    case Some(Bool(b)) => b
    case Some(Num(x)) => x != 0.0
    case Some(Str(s)) => s != ""
    case Some(Arr(_)) => true
    case Some(Obj(_)) => true
  }

  /** A property of an item of a list; only objects have any. */
  function Property(item: Json, name: string): Option<Json> { if item.Obj? then Lookup(item.fields, name) else None }

  /** The same member of a JavaScript `Set`: lists and objects are only the same as themselves. */
  predicate Same(a: Option<Json>, b: Option<Json>) { a == b && !(a.Some? && (a.value.Arr? || a.value.Obj?)) }

  function DoneIn(items: seq<Json>): nat {
    if items == [] then 0 else (if Truthy(Property(items[0], "completed")) then 1 else 0) + DoneIn(items[1..])
  }

  function PercentOf(done: nat, total: nat): int { if total == 0 then 0 else (100.0 * done as real / total as real + 0.5).Floor }

  /** `draft.unique-section-id`; reading the id of null throws, which rejects as well. */
  predicate UniqueSections(state: Fields) {
    && "sections" in state && state["sections"].Arr?
    && (forall i :: 0 <= i < |state["sections"].items| ==> !state["sections"].items[i].Null?)
    && forall i, j :: 0 <= i < j < |state["sections"].items| ==>
         !Same(Property(state["sections"].items[i], "id"), Property(state["sections"].items[j], "id"))
  }

  /** `draft.valid-status`. */
  predicate ValidStatus(show: Show, state: Fields) { show(Lookup(state, "status")) in {"draft", "reviewing", "published"} }

  /** `draft.completion-consistent`. */
  predicate CompletionMatches(state: Fields) {
    && "sections" in state && state["sections"].Arr? && "completion" in state && state["completion"].Obj?
    && var items, c := state["sections"].items, state["completion"].fields;
       && Lookup(c, "completed") == Some(Num(DoneIn(items) as real)) && Lookup(c, "total") == Some(Num(|items| as real))
       && Lookup(c, "percent") == Some(Num(PercentOf(DoneIn(items), |items|) as real))
  }

  predicate Passes(show: Show, state: Fields) { UniqueSections(state) && ValidStatus(show, state) && CompletionMatches(state) }

  lemma {:induction false} SameDone(sections: seq<Section>)
    ensures DoneIn(EncodeAll(Sections(), sections)) == CompletedCount(sections)
  {
    if sections != [] {
      assert EncodeAll(Sections(), sections)[1..] == EncodeAll(Sections(), sections[1..]);
      assert Property(Obj(SectionFields(sections[0])), "completed") == Some(Bool(sections[0].completed));
      SameDone(sections[1..]);
    }
  }

  lemma {:induction false} SameCompletion(d: DraftDocument)
    ensures CompletionMatches(Encode(d)) <==> d.completion == Completed(d.sections)
  {
    SameDone(d.sections);
    var c := d.completion;
    assert Encode(d)["completion"] == Obj(CompletionFields(c)) && Encode(d)["sections"] == Arr(EncodeAll(Sections(), d.sections));
    assert Lookup(CompletionFields(c), "completed") == Some(Num(c.completed as real));
    assert Lookup(CompletionFields(c), "total") == Some(Num(c.total as real));
    assert Lookup(CompletionFields(c), "percent") == Some(Num(c.percent as real));
  }

  lemma {:induction false} SameUnique(d: DraftDocument)
    ensures UniqueSections(Encode(d)) <==> UniqueIds(Sections(), d.sections)
  {
    var items := EncodeAll(Sections(), d.sections);
    assert Encode(d)["sections"] == Arr(items);
    forall i | 0 <= i < |items| ensures Property(items[i], "id") == Some(Str(d.sections[i].id)) { }
    if UniqueSections(Encode(d)) {
      forall i, j | 0 <= i < j < |d.sections| ensures Sections().id(d.sections[i]) != Sections().id(d.sections[j]) {
        assert !Same(Property(items[i], "id"), Property(items[j], "id"));
      }
    }
  }

  /** The pack's three checks accept an encoded draft exactly when it is valid. */
  lemma {:induction false} ChecksMeanValid(show: Show, d: DraftDocument)
    requires forall s: string :: show(Some(Str(s))) == s
    ensures Passes(show, Encode(d)) <==> Valid(d)
  {
    SameCompletion(d);
    SameUnique(d);
    assert Lookup(Encode(d), "status") == Some(Str(StatusText(d.status)));
  }

  /** So they never stand in the way of a command that the strategies accept. */
  lemma {:induction false} ChecksNeverReject(show: Show, n: Numerals, state: Fields, d: DraftDocument, version: nat, commands: seq<Command>)
    requires (forall s: string :: show(Some(Str(s))) == s) && Consistent(state, d, version)
    ensures Passes(show, Committed(n, state, d, version, commands).0)
  {
    RunsStayConsistent(n, state, d, version, commands);
    ChecksMeanValid(show, Committed(n, state, d, version, commands).1);
  }

  /** The pipeline's last part, for whatever patches a strategy accepted. */
  function CommitPatches(show: Show, state: Fields, version: nat, patches: seq<CanonicalPatch>): (Fields, nat) {
    var next := ApplyAll(state, patches + [Revision(version)]);
    if next.Ok? && Passes(show, next.value) then (next.value, version + 1) else (state, version)
  }

  function CommittedPatches(show: Show, state: Fields, version: nat, batches: seq<seq<CanonicalPatch>>): (Fields, nat)
    decreases |batches|
  {
    if batches == [] then (state, version)
    else
      var (next, v) := CommitPatches(show, state, version, batches[0]);
      CommittedPatches(show, next, v, batches[1..])
  }

  /** Along every run, whatever the strategies accept: revision is the version. The checks hold because the pipeline makes them. */
  lemma {:induction false} AnyRunStaysConsistent(show: Show, state: Fields, version: nat, batches: seq<seq<CanonicalPatch>>)
    requires Passes(show, state) && Lookup(state, "revision") == Some(Num(version as real))
    ensures var (next, v) := CommittedPatches(show, state, version, batches);
      Passes(show, next) && Lookup(next, "revision") == Some(Num(v as real)) && v >= version
    decreases |batches|
  {
    if batches != [] {
      AnyCommitStaysConsistent(show, state, version, batches[0]);
      var (next, v) := CommitPatches(show, state, version, batches[0]);
      AnyRunStaysConsistent(show, next, v, batches[1..]);
    }
  }

  lemma {:induction false} AnyCommitStaysConsistent(show: Show, state: Fields, version: nat, patches: seq<CanonicalPatch>)
    requires Passes(show, state) && Lookup(state, "revision") == Some(Num(version as real))
    ensures var (next, v) := CommitPatches(show, state, version, patches);
      Passes(show, next) && Lookup(next, "revision") == Some(Num(v as real)) && v >= version
  {
    if ApplyAll(state, patches + [Revision(version)]).Ok? { RevisionFollowsVersion(state, patches, version); }
  }

  /** The initial draft is where such runs begin. */
  lemma {:induction false} InitialPasses(show: Show, id: string)
    requires forall s: string :: show(Some(Str(s))) == s
    ensures Passes(show, Encode(InitialDraft(id))) && Lookup(Encode(InitialDraft(id)), "revision") == Some(Num(0 as real))
  {
    InitialIsConsistent(id);
    ChecksMeanValid(show, InitialDraft(id));
  }
}
