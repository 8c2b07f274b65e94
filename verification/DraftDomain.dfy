/** The draft example: section commands, the linked patches they compile to, and the completion counter. */
module DraftDomain {
  import opened Results
  import opened Json
  import opened JsonPatch
  import opened EntityPatches
  import opened Ordering
  import JsonPointer

  datatype Section = Section(id: string, heading: string, body: string, orderKey: string, completed: bool)
  datatype Completion = Completion(completed: nat, total: nat, percent: int)
  datatype Status = Draft | Reviewing | Published

  datatype DraftDocument = DraftDocument(
    id: string, revision: nat, title: string, status: Status, sections: seq<Section>, completion: Completion, metadata: Fields)

  datatype Command =
    | Rename(title: string)
    | Add(sectionId: string, heading: string, after: string)
    | Edit(sectionId: string, newHeading: Option<string>, newBody: Option<string>)
    | SetCompleted(sectionId: string, completed: bool)
    | Move(sectionId: string, after: string)
    | Delete(sectionId: string)
    | SubmitReview(expectedRevision: int)

  /** `Number` and `String` on order keys. */
  datatype Numerals = Numerals(number: string -> real, text: real -> string)

  // ---- JSON form ----

  function SectionFields(s: Section): Fields {
    map["id" := Str(s.id), "heading" := Str(s.heading), "body" := Str(s.body), "orderKey" := Str(s.orderKey), "completed" := Bool(s.completed)]
  }

  function Sections(): Encoding<Section> { Encoding((s: Section) => s.id, (s: Section) => SectionFields(s)) }

  function CompletionFields(c: Completion): Fields {
    map["completed" := Num(c.completed as real), "total" := Num(c.total as real), "percent" := Num(c.percent as real)]
  }

  function StatusText(s: Status): string {
    match s case Draft => "draft" case Reviewing => "reviewing" case Published => "published"
  }

  function Encode(d: DraftDocument): Fields {
    map["id" := Str(d.id), "revision" := Num(d.revision as real), "title" := Str(d.title), "status" := Str(StatusText(d.status)),
        "sections" := Arr(EncodeAll(Sections(), d.sections)), "completion" := Obj(CompletionFields(d.completion)), "metadata" := Obj(d.metadata)]
  }

  // ---- the domain ----

  function CompletedCount(sections: seq<Section>): (n: nat)
    ensures n <= |sections|
  {
    if sections == [] then 0 else (if sections[0].completed then 1 else 0) + CompletedCount(sections[1..])
  }

  /** `Math.round` of the share in percent, in exact arithmetic. */
  function Completed(sections: seq<Section>): Completion {
    var done, total := CompletedCount(sections), |sections|;
    Completion(done, total, if total == 0 then 0 else (100.0 * done as real / total as real + 0.5).Floor)
  }

  function InOrder(n: Numerals, sections: seq<Section>): seq<Section> {
    SortBy(sections, (s: Section) => n.number(s.orderKey))
  }

  /** One past the position of a section, 0 when there is none: `findIndex(...) + 1`. */
  function PlaceAfter(sections: seq<Section>, id: string): (i: nat)
    ensures i <= |sections|
  {
    if sections == [] then 0
    else if sections[0].id == id then 1
    else var i := PlaceAfter(sections[1..], id); if i == 0 then 0 else i + 1
  }

  function KeyAt(n: Numerals, order: seq<Section>, i: nat): string
    requires i <= |order|
  {
    var left := if i > 0 then n.number(order[i - 1].orderKey) else 0.0;
    var right := if i < |order| then n.number(order[i].orderKey) else left + 2048.0;
    n.text((left + right) / 2.0)
  }

  function Editing(heading: Option<string>, body: Option<string>): Section -> Section {
    (s: Section) => s.(heading := if heading.Some? then heading.value else s.heading, body := if body.Some? then body.value else s.body)
  }

  function Completing(completed: bool): Section -> Section { (s: Section) => s.(completed := completed) }
  function Keyed(key: string): Section -> Section { (s: Section) => s.(orderKey := key) }

  function WithSections(d: DraftDocument, sections: seq<Section>): DraftDocument {
    d.(revision := d.revision + 1, sections := sections, completion := Completed(sections))
  }

  function NewSection(n: Numerals, d: DraftDocument, c: Command): Section
    requires c.Add?
  {
    var order := InOrder(n, d.sections);
    var i := if c.after != "" then PlaceAfter(order, c.after) else 0;
    Section(c.sectionId, c.heading, "", KeyAt(n, order, i), false)
  }

  function ApplyCommand(n: Numerals, d: DraftDocument, c: Command): Result<DraftDocument> {
    match c
    case Rename(title) => Ok(d.(title := title, revision := d.revision + 1))
    case Add(id, _, _) =>
      if Has(Sections(), d.sections, id) then Err("section already exists")
      else Ok(WithSections(d, d.sections + [NewSection(n, d, c)]))
    case Edit(id, heading, body) =>
      if !Has(Sections(), d.sections, id) then Err("section does not exist")
      else Ok(d.(revision := d.revision + 1, sections := Update(Sections(), d.sections, id, Editing(heading, body))))
    case SetCompleted(id, completed) =>
      if !Has(Sections(), d.sections, id) then Err("section does not exist")
      else Ok(WithSections(d, Update(Sections(), d.sections, id, Completing(completed))))
    case Move(id, after) =>
      if !Has(Sections(), d.sections, id) then Err("section does not exist")
      else
        var order := InOrder(n, Dropped(Sections(), d.sections, id));
        var i := if after != "" then PlaceAfter(order, after) else 0;
        if after != "" && i == 0 then Err("after section does not exist")
        else Ok(d.(revision := d.revision + 1, sections := Update(Sections(), d.sections, id, Keyed(KeyAt(n, order, i)))))
    case Delete(id) =>
      if !Has(Sections(), d.sections, id) then Err("section does not exist")
      else Ok(WithSections(d, Dropped(Sections(), d.sections, id)))
    case SubmitReview(expected) =>
      if d.revision != expected then Err("stale revision")
      else if !d.status.Draft? then Err("only a draft can enter review")
      else Ok(d.(revision := d.revision + 1, status := Reviewing))
  }

  // ---- the compilers ----

  predicate OnServer(c: Command) { c.Add? || c.Edit? || c.SetCompleted? || c.Delete? }

  function EditFields(id: string, heading: Option<string>, body: Option<string>): Fields {
    map["id" := Str(id)]
    + (if heading.Some? then map["heading" := Str(heading.value)] else map[])
    + (if body.Some? then map["body" := Str(body.value)] else map[])
  }

  function EntityPatch(n: Numerals, d: DraftDocument, c: Command): CanonicalPatch
    requires OnServer(c)
  {
    match c
    case Add(id, _, _) => EntityUpsert("sections", id, SectionFields(NewSection(n, d, c)))
    case Delete(id) => EntityDelete("sections", id)
    case Edit(id, heading, body) => EntityUpsert("sections", id, EditFields(id, heading, body))
    case SetCompleted(id, completed) => EntityUpsert("sections", id, map["id" := Str(id), "completed" := Bool(completed)])
  }

  function CompletionPatches(c: Completion): seq<CanonicalPatch> {
    [Set("/completion/completed", Num(c.completed as real)), Set("/completion/total", Num(c.total as real)),
     Set("/completion/percent", Num(c.percent as real))]
  }

  function BuildPatches(n: Numerals, d: DraftDocument, c: Command): Result<seq<CanonicalPatch>>
    requires OnServer(c)
  {
    var next :- ApplyCommand(n, d, c);
    Ok([EntityPatch(n, d, c)] + if c.Edit? then [] else CompletionPatches(next.completion))
  }

  /** The strategies of the pack for section commands and for `draft.submitReview`, with the revision appended. */
  function Resolve(n: Numerals, d: DraftDocument, version: nat, c: Command): Result<seq<CanonicalPatch>>
    requires OnServer(c) || c.SubmitReview?
  {
    if c.SubmitReview? then
      var next :- ApplyCommand(n, d, c);
      Ok([Set("/status", Str(StatusText(next.status)))] + [Revision(version)])
    else
      var patches :- BuildPatches(n, d, c);
      Ok(patches + [Revision(version)])
  }

  // ---- the invariants ----

  /** `draft.unique-section-id` and `draft.completion-consistent`; the status is valid by its type. */
  ghost predicate Valid(d: DraftDocument) {
    UniqueIds(Sections(), d.sections) && d.completion == Completed(d.sections)
  }

  predicate Addressable(d: DraftDocument) { GoodIds(Sections(), d.sections) }

  predicate NewIdGood(c: Command) { c.Add? ==> GoodId(c.sectionId) }

  // ---- the compilers commute with the domain ----

  lemma {:induction false} EncodeParts(d: DraftDocument, sections: seq<Section>, completion: Completion, revision: nat, status: Status)
    ensures Encode(d)["sections" := Arr(EncodeAll(Sections(), sections))] == Encode(d.(sections := sections))
    ensures Encode(d)["completion" := Obj(CompletionFields(completion))] == Encode(d.(completion := completion))
    ensures Encode(d)["revision" := Num(revision as real)] == Encode(d.(revision := revision))
    ensures Encode(d)["status" := Str(StatusText(status))] == Encode(d.(status := status))
  {
  }

  lemma {:induction false} Encodings()
    ensures KeepsId(Sections()) && JsonPointer.SafeName("sections")
  {
  }

  lemma {:induction false} EditMerges(id: string, heading: Option<string>, body: Option<string>)
    ensures forall s: Section :: s.id == id ==> SectionFields(Editing(heading, body)(s)) == SectionFields(s) + EditFields(id, heading, body)
  {
  }

  lemma {:induction false} CompleteMerges(id: string, completed: bool)
    ensures forall s: Section :: s.id == id ==> SectionFields(Completing(completed)(s)) == SectionFields(s) + map["id" := Str(id), "completed" := Bool(completed)]
  {
  }

  lemma {:induction false} PathSet(state: Fields, name: string, value: Json)
    requires Plain(name) && JsonPointer.SafeName(name)
    ensures Apply(state, Set("/" + name, value)) == Ok(state[name := value])
  {
    OneSegment(name);
  }

  lemma {:induction false} InnerSet(state: Fields, inner: Fields, name: string, value: Json)
    requires Plain(name) && JsonPointer.SafeName(name) && "completion" in state && state["completion"] == Obj(inner)
    ensures Apply(state, Set("/completion/" + name, value)) == Ok(state["completion" := Obj(inner[name := value])])
  {
    TwoSegments("completion", name);
    assert "/" + "completion" + "/" + name == "/completion/" + name;
    SetInner(state, inner, name, value);
  }

  lemma {:induction false} SetInner(state: Fields, inner: Fields, name: string, value: Json)
    requires "completion" in state && state["completion"] == Obj(inner)
    ensures SetAt(state, ["completion", name], Some(value)) == state["completion" := Obj(inner[name := value])]
  {
    assert ["completion", name][1..] == [name];
    assert SetAt(inner, [name], Some(value)) == inner[name := value];
  }

  lemma {:induction false} CompletionNames()
    ensures "/completion/" + "completed" == "/completion/completed"
    ensures "/completion/" + "total" == "/completion/total"
    ensures "/completion/" + "percent" == "/completion/percent"
  {
  }

  /** The three linked patches replace the completion. */
  lemma {:induction false} CompletionApplies(d: DraftDocument, c: Completion)
    ensures ApplyAll(Encode(d), CompletionPatches(c)) == Ok(Encode(d.(completion := c)))
  {
    CompletionNames();
    var a := d.completion;
    var b := a.(completed := c.completed);
    var e := b.(total := c.total);
    ReplacedOne(d, "completed", Num(c.completed as real), b);
    ReplacedOne(d.(completion := b), "total", Num(c.total as real), e);
    ReplacedOne(d.(completion := e), "percent", Num(c.percent as real), c);
    ThreeInTurn(Encode(d), CompletionPatches(c), Encode(d.(completion := b)), Encode(d.(completion := e)), Encode(d.(completion := c)));
  }

  lemma {:induction false} ReplacedOne(d: DraftDocument, name: string, value: Json, c: Completion)
    requires Plain(name) && JsonPointer.SafeName(name) && CompletionFields(c) == CompletionFields(d.completion)[name := value]
    ensures Apply(Encode(d), Set("/completion/" + name, value)) == Ok(Encode(d.(completion := c)))
  {
    InnerSet(Encode(d), CompletionFields(d.completion), name, value);
    EncodeParts(d, [], c, 0, Draft);
  }

  lemma {:induction false} ThreeInTurn(a: Fields, patches: seq<CanonicalPatch>, b: Fields, c: Fields, d: Fields)
    requires |patches| == 3 && Apply(a, patches[0]) == Ok(b) && Apply(b, patches[1]) == Ok(c) && Apply(c, patches[2]) == Ok(d)
    ensures ApplyAll(a, patches) == Ok(d)
  {
    ApplyOne(c, patches[2]);
    assert patches[1..][1..] == [patches[2]];
  }

  lemma {:induction false} KnownIdGood(d: DraftDocument, id: string)
    requires Addressable(d) && Has(Sections(), d.sections, id)
    ensures GoodId(id)
  {
    var i :| 0 <= i < |d.sections| && Sections().id(d.sections[i]) == id;
    assert GoodId(Sections().id(d.sections[i]));
  }

  /** The entity patch alone changes the sections as the command does. */
  lemma {:induction false} AddCommutes(n: Numerals, d: DraftDocument, c: Command)
    requires c.Add? && !Has(Sections(), d.sections, c.sectionId)
    ensures var applied := Apply(Encode(d), EntityPatch(n, d, c));
      if GoodId(c.sectionId) then applied == Ok(Encode(d.(sections := d.sections + [NewSection(n, d, c)]))) else applied.Err?
  {
    var section := NewSection(n, d, c);
    Encodings();
    EncodeParts(d, d.sections + [section], d.completion, 0, Draft);
    UpsertApplies(Sections(), Encode(d), "sections", d.sections, c.sectionId, SectionFields(section));
    AppendCommutes(Sections(), d.sections, section);
  }

  lemma {:induction false} DeletionCommutes(n: Numerals, d: DraftDocument, c: Command)
    requires c.Delete? && Addressable(d) && Has(Sections(), d.sections, c.sectionId)
    ensures Apply(Encode(d), EntityPatch(n, d, c)) == Ok(Encode(d.(sections := Dropped(Sections(), d.sections, c.sectionId))))
  {
    Encodings();
    KnownIdGood(d, c.sectionId);
    EncodeParts(d, Dropped(Sections(), d.sections, c.sectionId), d.completion, 0, Draft);
    DeleteApplies(Sections(), Encode(d), "sections", d.sections, c.sectionId);
  }

  lemma {:induction false} UpdateCommutes(d: DraftDocument, id: string, fields: Fields, change: Section -> Section)
    requires UniqueIds(Sections(), d.sections) && Addressable(d) && Has(Sections(), d.sections, id)
    requires forall s: Section :: s.id == id ==> SectionFields(change(s)) == SectionFields(s) + fields
    ensures Apply(Encode(d), EntityUpsert("sections", id, fields)) == Ok(Encode(d.(sections := Update(Sections(), d.sections, id, change))))
  {
    Encodings();
    KnownIdGood(d, id);
    EncodeParts(d, Update(Sections(), d.sections, id, change), d.completion, 0, Draft);
    UpsertApplies(Sections(), Encode(d), "sections", d.sections, id, fields);
    MergeCommutes(Sections(), d.sections, id, fields, change);
  }

  lemma {:induction false} EntityCommutes(n: Numerals, d: DraftDocument, c: Command)
    requires OnServer(c) && ApplyCommand(n, d, c).Ok? && UniqueIds(Sections(), d.sections) && Addressable(d)
    ensures var applied := Apply(Encode(d), EntityPatch(n, d, c));
      if NewIdGood(c) then applied == Ok(Encode(d.(sections := ApplyCommand(n, d, c).value.sections))) else applied.Err?
  {
    match c
    case Add(_, _, _) => AddCommutes(n, d, c);
    case Delete(_) => DeletionCommutes(n, d, c);
    case Edit(id, heading, body) =>
      EditMerges(id, heading, body);
      UpdateCommutes(d, id, EditFields(id, heading, body), Editing(heading, body));
    case SetCompleted(id, completed) =>
      CompleteMerges(id, completed);
      UpdateCommutes(d, id, map["id" := Str(id), "completed" := Bool(completed)], Completing(completed));
  }

  /** All patches of a section command, without the revision. */
  lemma {:induction false} PatchesCommute(n: Numerals, d: DraftDocument, c: Command)
    requires OnServer(c) && ApplyCommand(n, d, c).Ok? && UniqueIds(Sections(), d.sections) && Addressable(d)
    ensures var applied := ApplyAll(Encode(d), BuildPatches(n, d, c).value);
      if NewIdGood(c) then applied == Ok(Encode(ApplyCommand(n, d, c).value.(revision := d.revision))) else applied.Err?
  {
    var next := ApplyCommand(n, d, c).value;
    var rest := if c.Edit? then [] else CompletionPatches(next.completion);
    EntityCommutes(n, d, c);
    ApplyAllAppend(Encode(d), [EntityPatch(n, d, c)], rest);
    ApplyOne(Encode(d), EntityPatch(n, d, c));
    CompletionApplies(d.(sections := next.sections), next.completion);
  }

  lemma {:induction false} WithRevision(state: Fields, patches: seq<CanonicalPatch>, mid: DraftDocument, version: nat)
    ensures ApplyAll(state, patches).Err? ==> ApplyAll(state, patches + [Revision(version)]).Err?
    ensures ApplyAll(state, patches) == Ok(Encode(mid)) ==>
      ApplyAll(state, patches + [Revision(version)]) == Ok(Encode(mid.(revision := version + 1)))
  {
    ApplyAllAppend(state, patches, [Revision(version)]);
    RevisionPath();
    ApplyOne(Encode(mid), Revision(version));
    EncodeParts(mid, [], mid.completion, version + 1, Draft);
  }

  /**
   * On a draft that its pack accepts and whose revision is the canonical version, applying the patches of a section
   * command is applying the command, unless the id of a new section is one that no patch can address.
   */
  lemma {:induction false} SectionCommandsCommute(n: Numerals, d: DraftDocument, version: nat, c: Command, next: DraftDocument, patches: seq<CanonicalPatch>)
    requires OnServer(c) && Valid(d) && Addressable(d) && d.revision == version
    requires ApplyCommand(n, d, c) == Ok(next) && Resolve(n, d, version, c) == Ok(patches)
    ensures if NewIdGood(c) then ApplyAll(Encode(d), patches) == Ok(Encode(next)) else ApplyAll(Encode(d), patches).Err?
  {
    var front := patches[..|patches| - 1];
    assert front == BuildPatches(n, d, c).value && patches == front + [Revision(version)] && next.revision == version + 1;
    assert if NewIdGood(c) then ApplyAll(Encode(d), front) == Ok(Encode(next.(revision := version))) else ApplyAll(Encode(d), front).Err? by {
      PatchesCommute(n, d, c);
    }
    WithRevision(Encode(d), front, next.(revision := version), version);
    assert next.(revision := version).(revision := version + 1) == next;
  }

  lemma {:induction false} SubmitReviewCommutes(n: Numerals, d: DraftDocument, version: nat, c: Command, next: DraftDocument, patches: seq<CanonicalPatch>)
    requires c.SubmitReview? && d.revision == version
    requires ApplyCommand(n, d, c) == Ok(next) && Resolve(n, d, version, c) == Ok(patches)
    ensures ApplyAll(Encode(d), patches) == Ok(Encode(next))
  {
    var status: CanonicalPatch := Set("/status", Str(StatusText(Reviewing)));
    assert patches == [status] + [Revision(version)] && next == d.(status := Reviewing, revision := version + 1);
    StatusApplies(d);
    WithRevision(Encode(d), [status], d.(status := Reviewing), version);
    assert d.(status := Reviewing).(revision := version + 1) == next;
  }

  lemma {:induction false} StatusApplies(d: DraftDocument)
    ensures ApplyAll(Encode(d), [Set("/status", Str(StatusText(Reviewing)))]) == Ok(Encode(d.(status := Reviewing)))
  {
    PathSet(Encode(d), "status", Str(StatusText(Reviewing)));
    assert "/" + "status" == "/status";
    ApplyOne(Encode(d), Set("/status", Str(StatusText(Reviewing))));
    EncodeParts(d, [], d.completion, 0, Reviewing);
  }

  /** The strategies reject exactly what the domain rejects. */
  lemma {:induction false} ResolveIs(n: Numerals, d: DraftDocument, version: nat, c: Command)
    requires OnServer(c) || c.SubmitReview?
    ensures Resolve(n, d, version, c).Ok? <==> ApplyCommand(n, d, c).Ok?
  {
  }

  // ---- the invariants are kept ----

  lemma {:induction false} CommandKeepsInvariants(n: Numerals, d: DraftDocument, c: Command)
    requires (OnServer(c) || c.SubmitReview?) && Valid(d) && Addressable(d) && NewIdGood(c) && ApplyCommand(n, d, c).Ok?
    ensures Valid(ApplyCommand(n, d, c).value) && Addressable(ApplyCommand(n, d, c).value)
    ensures ApplyCommand(n, d, c).value.revision == d.revision + 1
  {
    match c
    case Add(id, _, _) => AddKeeps(n, d, c);
    case Delete(id) => DeleteKeeps(d, id);
    case Edit(id, heading, body) =>
      UpdateKeepsIds(Sections(), d.sections, id, Editing(heading, body));
      EditKeepsCompletion(d.sections, id, heading, body);
    case SetCompleted(id, completed) => UpdateKeepsIds(Sections(), d.sections, id, Completing(completed));
    case SubmitReview(_) =>
  }

  lemma {:induction false} AddKeeps(n: Numerals, d: DraftDocument, c: Command)
    requires c.Add? && Valid(d) && Addressable(d) && NewIdGood(c) && !Has(Sections(), d.sections, c.sectionId)
    ensures UniqueIds(Sections(), d.sections + [NewSection(n, d, c)]) && GoodIds(Sections(), d.sections + [NewSection(n, d, c)])
  {
    var more := d.sections + [NewSection(n, d, c)];
    assert forall i :: 0 <= i < |d.sections| ==> more[i] == d.sections[i];
  }

  lemma {:induction false} DeleteKeeps(d: DraftDocument, id: string)
    requires Valid(d) && Addressable(d)
    ensures UniqueIds(Sections(), Dropped(Sections(), d.sections, id)) && GoodIds(Sections(), Dropped(Sections(), d.sections, id))
  {
    RemoveKeeps(Sections(), d.sections, id);
    RemoveMembers(Sections(), d.sections, id);
    var left := Dropped(Sections(), d.sections, id);
    forall i | 0 <= i < |left| ensures GoodId(Sections().id(left[i])) {
      assert left[i] in left;
      var k :| 0 <= k < |d.sections| && d.sections[k] == left[i];
      assert GoodId(Sections().id(d.sections[k]));
    }
  }

  /** Editing text leaves the completion right, although it is not recomputed. */
  lemma {:induction false} EditKeepsCompletion(sections: seq<Section>, id: string, heading: Option<string>, body: Option<string>)
    ensures Completed(Update(Sections(), sections, id, Editing(heading, body))) == Completed(sections)
  {
    SameCount(sections, Update(Sections(), sections, id, Editing(heading, body)));
  }

  lemma {:induction false} SameCount(a: seq<Section>, b: seq<Section>)
    requires |a| == |b| && forall i :: 0 <= i < |a| ==> a[i].completed == b[i].completed
    ensures CompletedCount(a) == CompletedCount(b)
  {
    if a != [] { SameCount(a[1..], b[1..]); }
  }
}
