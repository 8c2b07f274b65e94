/** Order keys of drafts along runs: while only the application's commands write them, moves are the domain's own. */
module DraftKeys {
  import opened Results
  import opened Ordering
  import opened Distinct
  import opened Json
  import opened JsonPatch
  import opened EntityPatches
  import opened DraftDomain
  import opened DraftRuns
  import L = ListOrder

  // ---- numbers that midpoints lead to ----

  /** A whole multiple of 1024 / 2^k for some k. */
  ghost predicate Gridded(x: real) { exists k: nat, n: int :: L.OnGrid(x, k, n) }

  lemma {:induction false} Refined(x: real, k: nat, n: int, j: nat) returns (m: int)
    requires L.OnGrid(x, k, n) && k <= j
    ensures L.OnGrid(x, j, m)
    decreases j
  {
    m := n;
    if k < j {
      m := Refined(x, k, n, j - 1);
      L.GridFiner(x, j - 1, m);
      m := 2 * m;
    }
  }

  lemma {:induction false} MidpointGridded(a: real, b: real)
    requires Gridded(a) && Gridded(b)
    ensures Gridded(a + b) && Gridded((a + b) / 2.0)
  {
    var k, m :| L.OnGrid(a, k, m);
    var j, n :| L.OnGrid(b, j, n);
    var top := if k < j then j else k;
    var m' := Refined(a, k, m, top);
    var n' := Refined(b, j, n, top);
    L.GridAdds(a, b, top, m', n');
    L.GridHalves(a + b, top, m' + n');
  }

  lemma {:induction false} SmallGridded()
    ensures Gridded(0.0) && Gridded(1024.0) && Gridded(2048.0)
  {
    assert L.Doubled(0.0, 0) == 0.0 && L.OnGrid(0.0, 0, 0);
    assert L.Doubled(1024.0, 0) == 1024.0 && L.OnGrid(1024.0, 0, 1);
    assert L.Doubled(2048.0, 0) == 2048.0 && L.OnGrid(2048.0, 0, 2);
  }

  /** `Number` reads back what `String` printed, and reads the texts that the source itself contains. */
  ghost predicate ReadsBack(n: Numerals) {
    && (forall x: real :: Gridded(x) ==> n.number(n.text(x)) == x)
    && n.number("") == 0.0 && n.number("1024") == 1024.0 && n.number("2048") == 2048.0
  }

  // ---- keys that stay apart ----

  ghost predicate KeysApart(n: Numerals, sections: seq<Section>) {
    && (forall s | s in sections :: n.number(s.orderKey) > 0.0 && Gridded(n.number(s.orderKey)))
    && forall s, t | s in sections && t in sections && s.id != t.id :: n.number(s.orderKey) != n.number(t.orderKey)
  }

  ghost predicate Rising(n: Numerals, order: seq<Section>) {
    && (forall i | 0 <= i < |order| :: n.number(order[i].orderKey) > 0.0 && Gridded(n.number(order[i].orderKey)))
    && forall i, j | 0 <= i < j < |order| :: n.number(order[i].orderKey) < n.number(order[j].orderKey)
  }

  lemma {:induction false} OrderRises(n: Numerals, sections: seq<Section>)
    requires UniqueIds(Sections(), sections) && KeysApart(n, sections)
    ensures Rising(n, InOrder(n, sections)) && forall s :: s in InOrder(n, sections) <==> s in sections
  {
    var order := InOrder(n, sections);
    SortPermutes(sections, (s: Section) => n.number(s.orderKey));
    UniqueNoDup(sections);
    Rearranged(sections, order);
    forall i | 0 <= i < |order| ensures n.number(order[i].orderKey) > 0.0 && Gridded(n.number(order[i].orderKey)) { assert order[i] in sections; }
    forall i, j | 0 <= i < j < |order| ensures n.number(order[i].orderKey) < n.number(order[j].orderKey) {
      assert order[i] in sections && order[j] in sections && order[i] != order[j];
      OtherId(sections, order[i], order[j]);
    }
  }

  lemma {:induction false} UniqueNoDup(sections: seq<Section>)
    requires UniqueIds(Sections(), sections)
    ensures NoDup(sections)
  {
    forall i, j | 0 <= i < j < |sections| ensures sections[i] != sections[j] {
      assert Sections().id(sections[i]) != Sections().id(sections[j]);
    }
  }

  lemma {:induction false} OtherId(sections: seq<Section>, a: Section, b: Section)
    requires UniqueIds(Sections(), sections) && a in sections && b in sections && a != b
    ensures a.id != b.id
  {
    var i :| 0 <= i < |sections| && sections[i] == a;
    var j :| 0 <= j < |sections| && sections[j] == b;
    assert Sections().id(sections[if i < j then i else j]) != Sections().id(sections[if i < j then j else i]);
  }

  /** Between rising keys there is room, and the middle is a new key. */
  lemma {:induction false} MiddleFits(n: Numerals, order: seq<Section>, i: nat)
    requires Rising(n, order) && i <= |order| && n.number("") == 0.0
    ensures RoomAhead(n, order, i)
    ensures var x := MiddleAt(n, order, i);
      x > 0.0 && Gridded(x) && forall s | s in order :: n.number(s.orderKey) != x
  {
    var left := if i > 0 then n.number(order[i - 1].orderKey) else 0.0;
    var right := if i < |order| then n.number(order[i].orderKey) else left + 2048.0;
    SmallGridded();
    MidpointGridded(left, 2048.0);
    MidpointGridded(left, right);
    forall s | s in order ensures n.number(s.orderKey) != (left + right) / 2.0 {
      var k :| 0 <= k < |order| && order[k] == s;
      if k + 1 < i { assert n.number(order[k].orderKey) < n.number(order[i - 1].orderKey); }
      if i < k { assert n.number(order[i].orderKey) < n.number(order[k].orderKey); }
    }
  }

  // ---- every command keeps them apart ----

  lemma {:induction false} FewerApart(n: Numerals, a: seq<Section>, b: seq<Section>)
    requires KeysApart(n, a) && forall s | s in b :: s in a
    ensures KeysApart(n, b)
  {
  }

  lemma {:induction false} SameKeysApart(n: Numerals, a: seq<Section>, b: seq<Section>)
    requires KeysApart(n, a) && |a| == |b| && forall i | 0 <= i < |a| :: b[i].id == a[i].id && b[i].orderKey == a[i].orderKey
    ensures KeysApart(n, b)
  {
    forall s | s in b ensures exists t | t in a :: t.id == s.id && t.orderKey == s.orderKey {
      var i :| 0 <= i < |b| && b[i] == s;
      assert a[i] in a;
    }
  }

  lemma {:induction false} OneMoreApart(n: Numerals, a: seq<Section>, b: seq<Section>, id: string, x: real)
    requires KeysApart(n, a) && x > 0.0 && Gridded(x) && forall s | s in a :: n.number(s.orderKey) != x
    requires forall s | s in b :: if s.id == id then n.number(s.orderKey) == x else s in a
    ensures KeysApart(n, b)
  {
  }

  lemma {:induction false} AddApart(n: Numerals, d: DraftDocument, c: Command)
    requires ReadsBack(n) && c.Add? && Valid(d) && KeysApart(n, d.sections) && !Has(Sections(), d.sections, c.sectionId)
    ensures KeysApart(n, d.sections + [NewSection(n, d, c)])
  {
    var x := NewKeyFits(n, d, c);
    forall s | s in d.sections ensures s.id != c.sectionId {
      var k :| 0 <= k < |d.sections| && d.sections[k] == s;
      assert Sections().id(d.sections[k]) != c.sectionId;
    }
    OneMoreApart(n, d.sections, d.sections + [NewSection(n, d, c)], c.sectionId, x);
  }

  lemma {:induction false} NewKeyFits(n: Numerals, d: DraftDocument, c: Command) returns (x: real)
    requires ReadsBack(n) && c.Add? && Valid(d) && KeysApart(n, d.sections)
    ensures x > 0.0 && Gridded(x) && n.number(NewSection(n, d, c).orderKey) == x
    ensures forall s | s in d.sections :: n.number(s.orderKey) != x
  {
    var order := InOrder(n, d.sections);
    var i := if c.after != "" then PlaceAfter(order, c.after) else 0;
    x := MiddleAt(n, order, i);
    OrderRises(n, d.sections);
    MiddleFits(n, order, i);
    assert NewSection(n, d, c).orderKey == n.text(x);
  }

  /** A move finds room among the others, and the middle is a new key. */
  lemma {:induction false} MoveHasRoom(n: Numerals, d: DraftDocument, c: Command)
    requires ReadsBack(n) && c.Move? && Valid(d) && KeysApart(n, d.sections)
    ensures RoomAhead(n, OrderWithout(n, d, c.sectionId), PlaceOf(n, d, c))
    ensures var x, others := MiddleAt(n, OrderWithout(n, d, c.sectionId), PlaceOf(n, d, c)), Dropped(Sections(), d.sections, c.sectionId);
      && x > 0.0 && Gridded(x) && KeysApart(n, others) && (forall s | s in others :: n.number(s.orderKey) != x)
      && forall s :: s in others <==> s in d.sections && s.id != c.sectionId
  {
    var others := Dropped(Sections(), d.sections, c.sectionId);
    RemoveMembers(Sections(), d.sections, c.sectionId);
    RemoveKeeps(Sections(), d.sections, c.sectionId);
    FewerApart(n, d.sections, others);
    OrderRises(n, others);
    MiddleFits(n, OrderWithout(n, d, c.sectionId), PlaceOf(n, d, c));
  }

  /** So the strategy's key is the domain's. */
  lemma {:induction false} MoveApart(n: Numerals, d: DraftDocument, c: Command)
    requires ReadsBack(n) && c.Move? && Valid(d) && KeysApart(n, d.sections) && ApplyCommand(n, d, c).Ok?
    ensures After(n, d, c) == ApplyCommand(n, d, c) && KeysApart(n, ApplyCommand(n, d, c).value.sections)
  {
    var order, i := OrderWithout(n, d, c.sectionId), PlaceOf(n, d, c);
    MoveHasRoom(n, d, c);
    MoveRefusals(n, d, c);
    SameRankWithRoom(n, order, i);
    assert n.number(n.text(MiddleAt(n, order, i))) == MiddleAt(n, order, i);
    MovedApart(n, d, c.sectionId, Dropped(Sections(), d.sections, c.sectionId), MiddleAt(n, order, i));
  }

  lemma {:induction false} MovedApart(n: Numerals, d: DraftDocument, id: string, others: seq<Section>, x: real)
    requires KeysApart(n, others) && x > 0.0 && Gridded(x) && n.number(n.text(x)) == x
    requires forall s :: s in others <==> s in d.sections && s.id != id
    requires forall s | s in others :: n.number(s.orderKey) != x
    ensures KeysApart(n, Moved(d, id, n.text(x)).sections)
  {
    var moved := Moved(d, id, n.text(x)).sections;
    forall s | s in moved ensures if s.id == id then n.number(s.orderKey) == x else s in others {
      var k :| 0 <= k < |moved| && moved[k] == s;
      assert d.sections[k] in d.sections;
    }
    OneMoreApart(n, others, moved, id, x);
  }

  lemma {:induction false} CommandApart(n: Numerals, d: DraftDocument, c: Command)
    requires ReadsBack(n) && Valid(d) && KeysApart(n, d.sections) && ApplyCommand(n, d, c).Ok?
    ensures After(n, d, c) == ApplyCommand(n, d, c) && KeysApart(n, ApplyCommand(n, d, c).value.sections)
  {
    var next := ApplyCommand(n, d, c).value;
    match c
    case Add(_, _, _) => AddApart(n, d, c);
    case Move(_, _) => MoveApart(n, d, c);
    case Delete(id) =>
      RemoveMembers(Sections(), d.sections, id);
      FewerApart(n, d.sections, next.sections);
    case _ => SameKeysApart(n, d.sections, next.sections);
  }

  // ---- runs ----

  /** The domain's own step; a section whose id no patch can address is not added. */
  function Stepped(n: Numerals, d: DraftDocument, c: Command): DraftDocument {
    var next := ApplyCommand(n, d, c);
    if next.Ok? && NewIdGood(c) then next.value else d
  }

  function AllStepped(n: Numerals, d: DraftDocument, commands: seq<Command>): DraftDocument
    decreases |commands|
  {
    if commands == [] then d else AllStepped(n, Stepped(n, d, commands[0]), commands[1..])
  }

  lemma {:induction false} CommitIsTheDomain(n: Numerals, state: Fields, d: DraftDocument, version: nat, c: Command)
    requires ReadsBack(n) && Consistent(state, d, version) && KeysApart(n, d.sections)
    ensures Commit(n, state, d, version, c).1 == Stepped(n, d, c) && KeysApart(n, Stepped(n, d, c).sections)
  {
    if ApplyCommand(n, d, c).Ok? {
      CommandApart(n, d, c);
      if c.Move? { OrderPatchApplies(d, version, c.sectionId, Position(n, d, c).value); }
      else if c.Rename? { RenameCommutes(n, d, version, c.title); }
      else { OwnCommandCommits(n, state, d, version, c); }
    } else if c.Move? {
      MoveRefusals(n, d, c);
    }
  }

  lemma {:induction false} OwnCommandCommits(n: Numerals, state: Fields, d: DraftDocument, version: nat, c: Command)
    requires (OnServer(c) || c.SubmitReview?) && Consistent(state, d, version) && ApplyCommand(n, d, c).Ok?
    ensures Commit(n, state, d, version, c).1 == Stepped(n, d, c)
  {
    ResolveIs(n, d, version, c);
    var after, patches := ApplyCommand(n, d, c).value, Resolve(n, d, version, c).value;
    if c.SubmitReview? { SubmitReviewCommutes(n, d, version, c, after, patches); }
    else { SectionCommandsCommute(n, d, version, c, after, patches); }
  }

  /**
   * Along every run of the application's commands, as far as the pipeline hands them to the strategies, the state is
   * what the domain's own functions give, moves included: order keys stay positive and apart, so there always is room.
   */
  lemma {:induction false} RunsAreTheDomain(n: Numerals, state: Fields, d: DraftDocument, version: nat, commands: seq<Command>)
    requires ReadsBack(n) && Consistent(state, d, version) && KeysApart(n, d.sections)
    ensures var e := AllStepped(n, d, commands);
      Committed(n, state, d, version, commands) == (Encode(e), e, e.revision) && KeysApart(n, e.sections)
    decreases |commands|
  {
    if commands != [] {
      CommitIsTheDomain(n, state, d, version, commands[0]);
      CommitIsConsistent(n, state, d, version, commands[0]);
      var (next, e, v) := Commit(n, state, d, version, commands[0]);
      RunsAreTheDomain(n, next, e, v, commands[1..]);
    }
  }

  lemma {:induction false} InitialApart(n: Numerals, id: string)
    requires ReadsBack(n)
    ensures KeysApart(n, InitialDraft(id).sections)
  {
    SmallGridded();
  }

  // ---- a key that another strategy wrote ----

  /** The initial draft after `entity.restore` has given its first section the key "0". */
  function ZeroKeyed(id: string): DraftDocument {
    var d := InitialDraft(id);
    d.(revision := 1, sections := d.sections[0 := d.sections[0].(orderKey := "0")])
  }

  /** `entity.restore` can do that, and then a move to the front gets a key the domain would not give. */
  lemma {:induction false} RestoredKeyLeavesNoRoom(n: Numerals, id: string)
    requires n.number("") == 0.0 && n.number("0") == 0.0 && n.text(0.5) != n.text(0.0)
    ensures ApplyAll(Encode(InitialDraft(id)), [EntityUpsert("sections", "intro", map["id" := Str("intro"), "orderKey" := Str("0")])] + [Revision(0)])
         == Ok(Encode(ZeroKeyed(id)))
    ensures var d, c := ZeroKeyed(id), Move("plan", "");
      && Valid(d) && Addressable(d) && !RoomAhead(n, OrderWithout(n, d, "plan"), 0)
      && Position(n, d, c) == Ok(n.text(0.5))
      && ApplyCommand(n, d, c) == Ok(Moved(d, "plan", n.text(0.0)))
      && Moved(d, "plan", n.text(0.5)) != Moved(d, "plan", n.text(0.0))
  {
    RestoreApplies(id);
    OneOther(n, id);
  }

  lemma {:induction false} RestoreApplies(id: string)
    ensures ApplyAll(Encode(InitialDraft(id)), [EntityUpsert("sections", "intro", map["id" := Str("intro"), "orderKey" := Str("0")])] + [Revision(0)])
         == Ok(Encode(ZeroKeyed(id)))
    ensures Valid(ZeroKeyed(id)) && Addressable(ZeroKeyed(id))
  {
    var d := InitialDraft(id);
    var fields := map["id" := Str("intro"), "orderKey" := Str("0")];
    var patch: CanonicalPatch := EntityUpsert("sections", "intro", fields);
    InitialIsConsistent(id);
    assert Sections().id(d.sections[0]) == "intro" && "intro"[0] != "plan"[0];
    UpdateCommutes(d, "intro", fields, Keyed("0"));
    var e := d.(sections := Update(Sections(), d.sections, "intro", Keyed("0")));
    ApplyOne(Encode(d), patch);
    WithRevision(Encode(d), [patch], e, 0);
    assert e.(revision := 1) == Moved(d, "intro", "0");
    MoveKeepsInvariants(d, "intro", "0");
    ZeroKeyedIs(id);
  }

  lemma {:induction false} ZeroKeyedIs(id: string)
    ensures ZeroKeyed(id) == Moved(InitialDraft(id), "intro", "0")
  {
    assert "intro"[0] != "plan"[0];
    assert ZeroKeyed(id).sections == Moved(InitialDraft(id), "intro", "0").sections;
  }

  lemma {:induction false} OneOther(n: Numerals, id: string)
    requires n.number("") == 0.0 && n.number("0") == 0.0 && n.text(0.5) != n.text(0.0)
    ensures var d, c := ZeroKeyed(id), Move("plan", "");
      && !RoomAhead(n, OrderWithout(n, d, "plan"), 0)
      && Position(n, d, c) == Ok(n.text(0.5))
      && ApplyCommand(n, d, c) == Ok(Moved(d, "plan", n.text(0.0)))
      && Moved(d, "plan", n.text(0.5)) != Moved(d, "plan", n.text(0.0))
  {
    var d, c := ZeroKeyed(id), Move("plan", "");
    var intro, plan := d.sections[0], d.sections[1];
    assert "intro"[0] != "plan"[0] && d.sections[1..] == [plan] && [plan][1..] == [];
    assert Dropped(Sections(), [plan], "plan") == [];
    assert Dropped(Sections(), d.sections, "plan") == [intro];
    assert [intro][1..] == [];
    SortUnique([intro], (s: Section) => n.number(s.orderKey), [intro]);
    assert OrderWithout(n, d, "plan") == [intro];
    assert Sections().id(d.sections[1]) == "plan";
    assert Moved(d, "plan", n.text(0.5)).sections[1].orderKey == n.text(0.5) && Moved(d, "plan", n.text(0.0)).sections[1].orderKey == n.text(0.0);
  }
}
