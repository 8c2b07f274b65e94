/** The canonical patches of the block pack, and what the shared applier makes of them. */
module BlockPatches {
  import opened Results
  import opened Json
  import opened JsonPatch
  import opened EntityPatches
  import opened Distinct
  import JsonPointer
  import B = BlockSequence

  /** `String` on an order key. */
  type Printing = real -> string

  function RecordFields(text: Printing, r: B.Record): Fields {
    map["id" := Str(r.id), "orderKey" := Str(text(r.orderKey)), "block" := r.block.body]
  }

  function Records(text: Printing): Encoding<B.Record> {
    Encoding((r: B.Record) => r.id, (r: B.Record) => RecordFields(text, r))
  }

  /** The document with these records; `rest` holds its other properties. */
  function Encode(text: Printing, rest: Fields, state: seq<B.Record>): Fields {
    rest["blocks" := Arr(EncodeAll(Records(text), state))]
  }

  /** `resolve`: the patch it accepts a command with, or the reason for rejecting it. */
  function PatchOf(text: Printing, state: seq<B.Record>, c: B.Command): Result<CanonicalPatch> {
    var id := B.TargetId(c);
    var at := IndexOf(B.RecordIds(state), id);
    if id == "" then Err("block id required")
    else match c
      case Insert(b, after) =>
        if at >= 0 then Err("block already exists")
        else (match B.PositionFor(state, id, after)
          case None => Err("after block does not exist")
          case Some(key) => Ok(EntityUpsert("blocks", id, RecordFields(text, B.Record(id, key, b)))))
      case Update(b) =>
        if at < 0 then Err("block does not exist") else Ok(EntityUpsert("blocks", id, RecordFields(text, state[at].(block := b))))
      case Delete(_) => if at < 0 then Err("block does not exist") else Ok(EntityDelete("blocks", id))
      case Move(_, after) =>
        if at < 0 then Err("block does not exist")
        else (match B.PositionFor(state, id, after)
          case None => Err("after block does not exist")
          case Some(key) => Ok(ListOrder("blocks", id, text(key))))
  }

  lemma {:induction false} ValidUnique(text: Printing, state: seq<B.Record>)
    requires B.Valid(state)
    ensures UniqueIds(Records(text), state) && KeepsId(Records(text))
  {
    var s :| B.InOrder(s) && multiset(s) == multiset(state);
    assert NoDup(s);
    Rearranged(s, state);
    forall i, j | 0 <= i < j < |state| ensures state[i].id != state[j].id {
      assert state[i] in s && state[j] in s && state[i] != state[j];
      var m :| 0 <= m < |s| && s[m] == state[i];
      var n :| 0 <= n < |s| && s[n] == state[j];
    }
  }

  lemma {:induction false} DroppedIs(text: Printing, state: seq<B.Record>, id: string)
    ensures Dropped(Records(text), state, id) == B.OtherThan(state, id)
  {
    if state != [] { DroppedIs(text, state[1..], id); }
  }

  /** With unique ids, replacing one record is changing every record with its id. */
  lemma {:induction false} ReplacedIs(text: Printing, state: seq<B.Record>, at: nat, change: B.Record -> B.Record)
    requires UniqueIds(Records(text), state) && at < |state|
    ensures Update(Records(text), state, state[at].id, change) == state[at := change(state[at])]
  {
    forall i | 0 <= i < |state| && i != at ensures Records(text).id(state[i]) != Records(text).id(state[at]) { }
  }

  lemma {:induction false} ReorderIs(text: Printing, state: seq<B.Record>, id: string, key: real)
    ensures Reorder(EncodeAll(Records(text), state), id, text(key))
         == EncodeAll(Records(text), Update(Records(text), state, id, (r: B.Record) => r.(orderKey := key)))
  {
    if state != [] {
      var r, c, change := state[0], Records(text), (r: B.Record) => r.(orderKey := key);
      assert EncodeAll(c, state)[1..] == EncodeAll(c, state[1..]);
      assert Update(c, state, id, change)[1..] == Update(c, state[1..], id, change);
      ReorderIs(text, state[1..], id, key);
      assert RecordFields(text, change(r)) == RecordFields(text, r)["orderKey" := Str(text(key))];
      assert HasId(Obj(RecordFields(text, r)), id) <==> r.id == id;
    }
  }

  lemma {:induction false} InsertCommutes(text: Printing, state: seq<B.Record>, r: B.Record)
    requires KeepsId(Records(text)) && r.id !in B.RecordIds(state)
    ensures Upsert(EncodeAll(Records(text), state), r.id, RecordFields(text, r)) == EncodeAll(Records(text), state + [r])
  {
    forall i | 0 <= i < |state| ensures state[i].id != r.id { assert B.RecordIds(state)[i] == state[i].id; }
    AppendCommutes(Records(text), state, r);
  }

  lemma {:induction false} UpdateCommutes(text: Printing, state: seq<B.Record>, at: nat, b: B.Block)
    requires UniqueIds(Records(text), state) && KeepsId(Records(text)) && at < |state|
    ensures var r := state[at].(block := b);
      Upsert(EncodeAll(Records(text), state), r.id, RecordFields(text, r)) == EncodeAll(Records(text), state[at := r])
  {
    var r := state[at].(block := b);
    var change := (x: B.Record) => x.(orderKey := r.orderKey, block := b);
    forall x: B.Record | x.id == r.id ensures RecordFields(text, change(x)) == RecordFields(text, x) + RecordFields(text, r) { }
    assert Records(text).id(state[at]) == r.id;
    MergeCommutes(Records(text), state, r.id, RecordFields(text, r), change);
    ReplacedIs(text, state, at, change);
  }

  lemma {:induction false} MoveCommutes(text: Printing, state: seq<B.Record>, at: nat, key: real)
    requires UniqueIds(Records(text), state) && at < |state|
    ensures Reorder(EncodeAll(Records(text), state), state[at].id, text(key)) == EncodeAll(Records(text), state[at := state[at].(orderKey := key)])
  {
    ReorderIs(text, state, state[at].id, key);
    ReplacedIs(text, state, at, (r: B.Record) => r.(orderKey := key));
  }

  /** The items after an entity patch. */
  function Items(patch: CanonicalPatch, before: seq<Json>): seq<Json> {
    match patch
    case EntityUpsert(_, id, fields) => Upsert(before, id, fields)
    case EntityDelete(_, id) => WithoutId(before, id)
    case ListOrder(_, id, position) => Reorder(before, id, position)
    case _ => before
  }

  predicate OnBlocks(patch: CanonicalPatch, id: string) {
    !patch.Set? && !patch.Remove? && patch.collection == "blocks" && patch.id == id
  }

  lemma {:induction false} ApplyBlocks(text: Printing, rest: Fields, state: seq<B.Record>, patch: CanonicalPatch, id: string, next: seq<B.Record>)
    requires OnBlocks(patch, id) && Items(patch, EncodeAll(Records(text), state)) == EncodeAll(Records(text), next)
    ensures var applied := Apply(Encode(text, rest, state), patch);
      if GoodId(id) then applied == Ok(Encode(text, rest, next)) else applied.Err?
  {
    assert JsonPointer.SafeName("blocks");
    assert Encode(text, rest, state)["blocks" := Arr(EncodeAll(Records(text), next))] == Encode(text, rest, next);
  }

  /** The pack accepts what `Resolve` accepts, with a patch that gives those records. */
  lemma {:induction false} PatchGives(text: Printing, state: seq<B.Record>, c: B.Command)
    requires B.Valid(state)
    ensures PatchOf(text, state, c).Ok? <==> B.Resolve(state, c).Ok?
    ensures PatchOf(text, state, c).Ok? ==>
      && OnBlocks(PatchOf(text, state, c).value, B.TargetId(c))
      && Items(PatchOf(text, state, c).value, EncodeAll(Records(text), state)) == EncodeAll(Records(text), B.Resolve(state, c).value)
  {
    ValidUnique(text, state);
    if PatchOf(text, state, c).Ok? {
      var id, at := B.TargetId(c), IndexOf(B.RecordIds(state), B.TargetId(c));
      assert at >= 0 ==> B.RecordIds(state)[at] == state[at].id == id;
      match c
      case Insert(b, after) => InsertCommutes(text, state, B.Record(id, B.PositionFor(state, id, after).value, b));
      case Update(b) => UpdateCommutes(text, state, at, b);
      case Delete(_) => DeleteCommutes(Records(text), state, id); DroppedIs(text, state, id);
      case Move(_, after) => MoveCommutes(text, state, at, B.PositionFor(state, id, after).value);
    }
  }

  /**
   * The pack's patch, put through the shared applier, gives exactly the records of `Patched`, and the applier throws
   * exactly where that refuses an id that the pack itself accepted.
   */
  lemma {:induction false} PatchesCommute(text: Printing, rest: Fields, state: seq<B.Record>, c: B.Command)
    requires B.Valid(state)
    ensures PatchOf(text, state, c).Ok? <==> B.Resolve(state, c).Ok?
    ensures PatchOf(text, state, c).Ok? ==>
      var applied, next := Apply(Encode(text, rest, state), PatchOf(text, state, c).value), B.Patched(state, c);
      if next.Ok? then applied == Ok(Encode(text, rest, next.value)) else applied.Err?
  {
    PatchGives(text, state, c);
    if PatchOf(text, state, c).Ok? {
      ApplyBlocks(text, rest, state, PatchOf(text, state, c).value, B.TargetId(c), B.Resolve(state, c).value);
    }
  }
}
