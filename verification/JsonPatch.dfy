/** Canonical patches and the applier that client, server and recovery share. */
module JsonPatch {
  import opened Results
  import opened Json
  import JsonPointer

  datatype CanonicalPatch =
    | Set(path: string, value: Json)
    | Remove(path: string)
    | EntityUpsert(collection: string, id: string, fields: Fields)
    | EntityDelete(collection: string, id: string)
    | ListOrder(collection: string, id: string, position: string)

  // ---- writing at a pointer ----

  /** The child that a walk steps into: whatever is not an object is replaced by a fresh one. */
  function Child(m: Fields, segment: string): Fields {
    if segment in m && m[segment].Obj? then m[segment].fields else map[]
  }

  /** `root` with `value` written (or deleted) at `segments`; every other location is kept. */
  function SetAt(root: Fields, segments: seq<string>, value: Option<Json>): Fields
    requires segments != []
    decreases |segments|
  {
    if |segments| == 1 then Write(root, segments[0], value)
    else root[segments[0] := Obj(SetAt(Child(root, segments[0]), segments[1..], value))]
  }

  /** The fields found by following `segments` down from `root`. */
  function Walk(root: Fields, segments: seq<string>): Fields
    decreases |segments|
  {
    if segments == [] then root else Walk(Child(root, segments[0]), segments[1..])
  }

  lemma {:induction false} SetAtCons(root: Fields, k: string, tail: seq<string>, value: Option<Json>)
    requires tail != []
    ensures SetAt(root, [k] + tail, value) == root[k := Obj(SetAt(Child(root, k), tail, value))]
  {
    assert ([k] + tail)[1..] == tail;
  }

  lemma {:induction false} WalkCons(root: Fields, k: string, tail: seq<string>)
    ensures Walk(root, [k] + tail) == Walk(Child(root, k), tail)
  {
    assert ([k] + tail)[1..] == tail;
  }

  /** `root` with the object below `front` and `k` replaced by a fresh copy of itself. */
  ghost function Copied(root: Fields, front: seq<string>, k: string): Fields {
    SetAt(root, front + [k], Some(Obj(Child(Walk(root, front), k))))
  }

  lemma {:induction false} CopiedCons(root: Fields, f: string, rest: seq<string>, k: string)
    ensures Copied(root, [f] + rest, k) == root[f := Obj(Copied(Child(root, f), rest, k))]
  {
    WalkCons(root, f, rest);
    assert [f] + rest + [k] == [f] + (rest + [k]);
    SetAtCons(root, f, rest + [k], Some(Obj(Child(Walk(root, [f] + rest), k))));
  }

  /** Copying the object a later write descends into does not change the result of that write. */
  lemma {:induction false} SetThroughCopy(root: Fields, front: seq<string>, k: string, tail: seq<string>, value: Option<Json>)
    requires tail != []
    ensures SetAt(Copied(root, front, k), front + [k] + tail, value) == SetAt(root, front + [k] + tail, value)
    decreases |front|
  {
    if front == [] {
      assert [] + [k] + tail == [k] + tail && [] + [k] == [k];
      SetAtCons(root, k, tail, value);
      SetAtCons(Copied(root, [], k), k, tail, value);
    } else {
      var f, rest := front[0], front[1..];
      assert front == [f] + rest && front + [k] + tail == [f] + (rest + [k] + tail);
      SetThroughCopy(Child(root, f), rest, k, tail, value);
      CopiedCons(root, f, rest, k);
      SetAtCons(root, f, rest + [k] + tail, value);
      SetAtCons(Copied(root, front, k), f, rest + [k] + tail, value);
    }
  }

  lemma {:induction false} WalkCopy(root: Fields, front: seq<string>, k: string)
    ensures Walk(Copied(root, front, k), front + [k]) == Child(Walk(root, front), k)
    decreases |front|
  {
    if front == [] {
      assert [] + [k] == [k] + [];
      WalkCons(Copied(root, [], k), k, []);
    } else {
      var f, rest := front[0], front[1..];
      assert front == [f] + rest && front + [k] == [f] + (rest + [k]);
      WalkCopy(Child(root, f), rest, k);
      CopiedCons(root, f, rest, k);
      WalkCons(root, f, rest);
      WalkCons(Copied(root, front, k), f, rest + [k]);
    }
  }

  /** The walk of the source: copy each object on the way down, then write the last segment. */
  method WriteCopying(root: Fields, segments: seq<string>, value: Option<Json>) returns (next: Fields)
    requires segments != []
    ensures next == SetAt(root, segments, value)
  {
    next := root;
    var source, target := root, [];
    for i := 0 to |segments| - 1
      invariant target == segments[..i]
      invariant source == Walk(next, target)
      invariant SetAt(next, segments, value) == SetAt(root, segments, value)
    {
      var segment := segments[i];
      var child := Child(source, segment);
      ghost var tail := segments[i + 1..];
      assert target + [segment] + tail == segments && target + [segment] == segments[..i + 1];
      SetThroughCopy(next, target, segment, tail, value);
      WalkCopy(next, target, segment);
      next := SetAt(next, target + [segment], Some(Obj(child)));
      source, target := child, target + [segment];
    }
    var last := segments[|segments| - 1];
    assert target + [last] == segments;
    next := SetAt(next, target + [last], value);
  }

  // ---- applying patches ----

  predicate HasId(item: Json, id: string) {
    item.Obj? && "id" in item.fields && item.fields["id"] == Str(id)
  }

  function WithoutId(items: seq<Json>, id: string): seq<Json> {
    if items == [] then []
    else (if HasId(items[0], id) then [] else [items[0]]) + WithoutId(items[1..], id)
  }

  /** Merges `fields` into the first entity with this id, or appends them as a new entity. */
  function Upsert(items: seq<Json>, id: string, fields: Fields): seq<Json> {
    if items == [] then [Obj(fields)]
    else if HasId(items[0], id) then [Obj(items[0].fields + fields)] + items[1..]
    else [items[0]] + Upsert(items[1..], id, fields)
  }

  function Reorder(items: seq<Json>, id: string, position: string): seq<Json> {
    if items == [] then []
    else [if HasId(items[0], id) then Obj(items[0].fields["orderKey" := Str(position)]) else items[0]]
         + Reorder(items[1..], id, position)
  }

  function AssertSafe(patch: CanonicalPatch): Result<()> {
    match patch
    case Set(path, _) => (match JsonPointer.Segments(path) case Ok(_) => Ok(()) case Err(e) => Err(e))
    case Remove(path) => (match JsonPointer.Segments(path) case Ok(_) => Ok(()) case Err(e) => Err(e))
    case _ =>
      if !JsonPointer.SafeName(patch.collection) then Err("canonical patch contains an unsafe collection")
      else if patch.id == "" || |patch.id| > 512 then Err("canonical patch requires a bounded entity id")
      else Ok(())
  }

  function Apply(state: Fields, patch: CanonicalPatch): Result<Fields> {
    var _ :- AssertSafe(patch);
    match patch
    case Set(path, value) => Ok(SetAt(state, JsonPointer.Segments(path).value, Some(value)))
    case Remove(path) => Ok(SetAt(state, JsonPointer.Segments(path).value, None))
    case _ =>
      if patch.collection !in state || !state[patch.collection].Arr? then Err("collection is not a list")
      else
        var items := state[patch.collection].items;
        Ok(state[patch.collection := Arr(
          match patch
          case EntityDelete(_, id) => WithoutId(items, id)
          case EntityUpsert(_, id, fields) => Upsert(items, id, fields)
          case ListOrder(_, id, position) => Reorder(items, id, position)
          case _ => items)])
  }

  function ApplyAll(state: Fields, patches: seq<CanonicalPatch>): Result<Fields>
    decreases |patches|
  {
    if patches == [] then Ok(state)
    else
      var next :- Apply(state, patches[0]);
      ApplyAll(next, patches[1..])
  }

  lemma {:induction false} ApplyAllAppend(state: Fields, first: seq<CanonicalPatch>, second: seq<CanonicalPatch>)
    ensures ApplyAll(state, first + second)
         == match ApplyAll(state, first) case Ok(mid) => ApplyAll(mid, second) case Err(e) => Err(e)
    decreases |first|
  {
    if first == [] {
      assert first + second == second;
    } else {
      assert (first + second)[1..] == first[1..] + second;
      var next := Apply(state, first[0]);
      if next.Ok? { ApplyAllAppend(next.value, first[1..], second); }
    }
  }
}
