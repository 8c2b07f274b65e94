/** The differ that turns two model states into canonical patches, and why applying them gives the second state. */
module ModelDiff {
  import opened Results
  import opened Json
  import opened JsonPatch
  import opened Strings
  import JsonPointer

  /** What `object[key]` reads: plain objects inherit a few functions under these names. */
  datatype Member = Own(value: Json) | InheritedFunction | Undefined

  const INHERITED_NAMES := {
    "toString", "toLocaleString", "valueOf", "hasOwnProperty", "isPrototypeOf", "propertyIsEnumerable",
    "__defineGetter__", "__defineSetter__", "__lookupGetter__", "__lookupSetter__", "constructor", "__proto__" }

  function Get(m: Fields, k: string): Member {
    if k in m then Own(m[k]) else if k in INHERITED_NAMES then InheritedFunction else Undefined
  }

  /** Textual equality of two values depends on how their keys were written, so it may differ from place to place. */
  type TextEquality = (seq<string>, Json, Json) -> bool

  ghost predicate Sound(same: TextEquality) {
    forall at, x, y :: same(at, x, y) ==> x == y
  }

  predicate KeyAllowed(key: string) {
    key != "" && key !in JsonPointer.UNSAFE_NAMES
  }

  // ---- the differ, with places as lists of keys ----

  /** Write `value` at `at`, or delete what is there. */
  datatype Edit = Edit(at: seq<string>, value: Option<Json>)

  function Under(k: string, edits: seq<Edit>): (r: seq<Edit>)
    ensures forall e | e in r :: e.at != [] && Edit(e.at[1..], e.value) in edits && e.at == [k] + e.at[1..]
  {
    if edits == [] then [] else
      assert ([k] + edits[0].at)[1..] == edits[0].at;
      [Edit([k] + edits[0].at, edits[0].value)] + Under(k, edits[1..])
  }

  function DiffMember(bf: Fields, af: Fields, k: string, at: seq<string>, same: TextEquality): Result<seq<Edit>>
    requires k in bf || k in af
    decreases Obj(bf), 0
  {
    if !KeyAllowed(k) then Err("unsafe state key")
    else if k in bf && k in af && same(at + [k], bf[k], af[k]) then Ok([])
    else if k !in af then
      (if k in INHERITED_NAMES then Err("function could not be cloned") else Ok([Edit([k], None)]))
    else if k in bf && bf[k].Obj? && af[k].Obj? then
      var keys := SortedKeys(bf[k].fields.Keys + af[k].fields.Keys);
      var inner :- DiffKeys(bf[k].fields, af[k].fields, keys, at + [k], same);
      Ok(Under(k, inner))
    else Ok([Edit([k], Some(af[k]))])
  }

  function DiffKeys(bf: Fields, af: Fields, keys: seq<string>, at: seq<string>, same: TextEquality): Result<seq<Edit>>
    requires forall k | k in keys :: k in bf || k in af
    decreases Obj(bf), |keys|
  {
    if keys == [] then Ok([])
    else
      var here :- DiffMember(bf, af, keys[0], at, same);
      var rest :- DiffKeys(bf, af, keys[1..], at, same);
      Ok(here + rest)
  }

  function Diff(before: Fields, after: Fields, same: TextEquality): Result<seq<Edit>> {
    DiffKeys(before, after, SortedKeys(before.Keys + after.Keys), [], same)
  }

  // ---- the differ of the source: string paths, one shared list ----

  function Printed(at: seq<string>, edits: seq<Edit>): seq<CanonicalPatch> {
    if edits == [] then []
    else
      [PrintedEdit(at, edits[0])] + Printed(at, edits[1..])
  }

  function PrintedEdit(at: seq<string>, e: Edit): CanonicalPatch {
    WriteAt(JsonPointer.Print(at + e.at), e.value)
  }

  function WriteAt(path: string, value: Option<Json>): CanonicalPatch {
    match value case None => Remove(path) case Some(v) => Set(path, v)
  }

  lemma {:induction false} PrintedAppend(at: seq<string>, first: seq<Edit>, second: seq<Edit>)
    ensures Printed(at, first + second) == Printed(at, first) + Printed(at, second)
  {
    if first == [] {
      assert first + second == second;
    } else {
      assert (first + second)[1..] == first[1..] + second;
      PrintedAppend(at, first[1..], second);
    }
  }

  lemma {:induction false} PrintedUnder(at: seq<string>, k: string, edits: seq<Edit>)
    ensures Printed(at, Under(k, edits)) == Printed(at + [k], edits)
  {
    if edits != [] {
      assert at + ([k] + edits[0].at) == at + [k] + edits[0].at;
      PrintedUnder(at, k, edits[1..]);
    }
  }

  /** The patches pushed so far, with those for the edits that are left, are the patches for all edits. */
  ghost predicate OnTrack(start: seq<CanonicalPatch>, now: seq<CanonicalPatch>, at: seq<string>, all: Result<seq<Edit>>, left: Result<seq<Edit>>) {
    && (left.Ok? <==> all.Ok?)
    && (all.Ok? ==> now + Printed(at, left.value) == start + Printed(at, all.value))
  }

  /** The first of some keys is dealt with, or fails. */
  lemma {:induction false} DiffFirst(bf: Fields, af: Fields, keys: seq<string>, at: seq<string>, same: TextEquality,
                                     start: seq<CanonicalPatch>, now: seq<CanonicalPatch>, all: Result<seq<Edit>>)
    requires keys != [] && (forall k | k in keys :: k in bf || k in af)
    requires OnTrack(start, now, at, all, DiffKeys(bf, af, keys, at, same))
    ensures var here := DiffMember(bf, af, keys[0], at, same);
      if here.Err? then all.Err? else OnTrack(start, now + Printed(at, here.value), at, all, DiffKeys(bf, af, keys[1..], at, same))
  {
    var here, rest := DiffMember(bf, af, keys[0], at, same), DiffKeys(bf, af, keys[1..], at, same);
    if here.Ok? && rest.Ok? {
      PrintedAppend(at, here.value, rest.value);
      assert now + (Printed(at, here.value) + Printed(at, rest.value)) == now + Printed(at, here.value) + Printed(at, rest.value);
    }
  }

  class PatchList {
    var patches: seq<CanonicalPatch>

    constructor ()
      ensures patches == []
    {
      patches := [];
    }

    method DiffValue(bf: Fields, af: Fields, k: string, at: seq<string>, path: string, same: TextEquality) returns (r: Result<()>)
      requires k in bf || k in af
      requires KeyAllowed(k)
      requires path == JsonPointer.Print(at + [k])
      modifies this
      ensures r.Ok? <==> DiffMember(bf, af, k, at, same).Ok?
      ensures r.Ok? ==> patches == old(patches) + Printed(at, DiffMember(bf, af, k, at, same).value)
      decreases Obj(bf), 0
    {
      var before, after := Get(bf, k), Get(af, k);
      if before.Own? && after.Own? && same(at + [k], before.value, after.value) { return Ok(()); }
      if after.Undefined? {
        patches := patches + [Remove(path)];
        return Ok(());
      }
      if before.Own? && after.Own? && before.value.Obj? && after.value.Obj? {
        var keys := SortedKeys(before.value.fields.Keys + after.value.fields.Keys);
        r := DiffObject(before.value.fields, after.value.fields, keys, at + [k], path, same);
        if r.Ok? { PrintedUnder(at, k, DiffKeys(bf[k].fields, af[k].fields, keys, at + [k], same).value); }
        return;
      }
      if after.InheritedFunction? { return Err("function could not be cloned"); }
      patches := patches + [Set(path, after.value)];
      return Ok(());
    }

    method DiffObject(bf: Fields, af: Fields, keys: seq<string>, at: seq<string>, path: string, same: TextEquality) returns (r: Result<()>)
      requires forall k | k in keys :: k in bf || k in af
      requires path == JsonPointer.Print(at)
      modifies this
      ensures r.Ok? <==> DiffKeys(bf, af, keys, at, same).Ok?
      ensures r.Ok? ==> patches == old(patches) + Printed(at, DiffKeys(bf, af, keys, at, same).value)
      decreases Obj(bf), |keys|
    {
      for i := 0 to |keys|
        invariant OnTrack(old(patches), patches, at, DiffKeys(bf, af, keys, at, same), DiffKeys(bf, af, keys[i..], at, same))
      {
        var key := keys[i];
        ghost var now := patches;
        assert keys[i..][0] == key && keys[i..][1..] == keys[i + 1..];
        if !KeyAllowed(key) { return Err("unsafe state key"); }
        JsonPointer.PrintAppend(at, key);
        var done := DiffValue(bf, af, key, at, path + "/" + JsonPointer.Escape(key), same);
        DiffFirst(bf, af, keys[i..], at, same, old(patches), now, DiffKeys(bf, af, keys, at, same));
        if done.Err? { return done; }
      }
      assert keys[|keys|..] == [];
      return Ok(());
    }
  }

  /** `diffJsonObjects`. */
  method DiffJsonObjects(before: Fields, after: Fields, same: TextEquality) returns (r: Result<seq<CanonicalPatch>>)
    ensures r.Ok? <==> Diff(before, after, same).Ok?
    ensures r.Ok? ==> r.value == Printed([], Diff(before, after, same).value)
  {
    var list := new PatchList();
    var done := list.DiffObject(before, after, SortedKeys(before.Keys + after.Keys), [], "", same);
    if done.Err? { return Err(done.message); }
    return Ok(list.patches);
  }

  // ---- applying edits ----

  ghost predicate Placed(edits: seq<Edit>) {
    forall e | e in edits :: e.at != []
  }

  function ApplyEdits(m: Fields, edits: seq<Edit>): Fields
    requires Placed(edits)
    decreases |edits|
  {
    if edits == [] then m else ApplyEdits(SetAt(m, edits[0].at, edits[0].value), edits[1..])
  }

  lemma {:induction false} ApplyEditsAppend(m: Fields, first: seq<Edit>, second: seq<Edit>)
    requires Placed(first) && Placed(second)
    ensures ApplyEdits(m, first + second) == ApplyEdits(ApplyEdits(m, first), second)
    decreases |first|
  {
    if first == [] {
      assert first + second == second;
    } else {
      assert (first + second)[1..] == first[1..] + second;
      ApplyEditsAppend(SetAt(m, first[0].at, first[0].value), first[1..], second);
    }
  }

  /** Edits below one key touch nothing beside it. */
  lemma {:induction false} ApplyUnder(m: Fields, k: string, edits: seq<Edit>)
    requires k in m && m[k].Obj? && Placed(edits)
    ensures ApplyEdits(m, Under(k, edits)) == m[k := Obj(ApplyEdits(m[k].fields, edits))]
    decreases |edits|
  {
    if edits == [] {
      assert m == m[k := m[k]];
    } else {
      var e := edits[0];
      assert Under(k, edits)[1..] == Under(k, edits[1..]);
      SetAtCons(m, k, e.at, e.value);
      var next := SetAt(m, [k] + e.at, e.value);
      ApplyUnder(next, k, edits[1..]);
      assert next[k].fields == SetAt(m[k].fields, e.at, e.value);
    }
  }

  lemma {:induction false} DiffPlaced(bf: Fields, af: Fields, keys: seq<string>, at: seq<string>, same: TextEquality)
    requires forall k | k in keys :: k in bf || k in af
    requires DiffKeys(bf, af, keys, at, same).Ok?
    ensures Placed(DiffKeys(bf, af, keys, at, same).value)
    decreases |keys|
  {
    if keys != [] { DiffPlaced(bf, af, keys[1..], at, same); }
  }

  /** The edits for one key give that key its new member and keep every other key. */
  lemma {:induction false} MemberCorrect(bf: Fields, af: Fields, k: string, at: seq<string>, same: TextEquality, m: Fields)
    requires Sound(same) && (k in bf || k in af)
    requires Lookup(m, k) == Lookup(bf, k)
    requires DiffMember(bf, af, k, at, same).Ok?
    ensures Placed(DiffMember(bf, af, k, at, same).value)
    ensures ApplyEdits(m, DiffMember(bf, af, k, at, same).value) == Write(m, k, Lookup(af, k))
    decreases Obj(bf), 0
  {
    var edits := DiffMember(bf, af, k, at, same).value;
    if k in bf && k in af && same(at + [k], bf[k], af[k]) {
      assert bf[k] == af[k];
      assert m == m[k := af[k]];
    } else if k in bf && k in af && bf[k].Obj? && af[k].Obj? {
      var b, a := bf[k].fields, af[k].fields;
      var keys := SortedKeys(b.Keys + a.Keys);
      SortedDistinct(keys);
      DiffPlaced(b, a, keys, at + [k], same);
      KeysCorrect(b, a, keys, at + [k], same, b);
      var inner := DiffKeys(b, a, keys, at + [k], same).value;
      ApplyUnder(m, k, inner);
      LookupExtensional(ApplyEdits(b, inner), a, b.Keys + a.Keys);
    } else {
      assert edits == [Edit([k], Lookup(af, k))] && edits[1..] == [];
      assert ApplyEdits(m, edits) == ApplyEdits(SetAt(m, [k], Lookup(af, k)), []);
    }
  }

  lemma {:induction false} LookupExtensional(m: Fields, n: Fields, keys: set<string>)
    requires m.Keys <= keys && n.Keys <= keys
    requires forall k | k in keys :: Lookup(m, k) == Lookup(n, k)
    ensures m == n
  {
    forall k ensures k in m <==> k in n { if k in keys { assert Lookup(m, k) == Lookup(n, k); } }
    forall k | k in m ensures m[k] == n[k] { assert Lookup(m, k) == Lookup(n, k); }
  }

  lemma {:induction false} KeysCorrect(bf: Fields, af: Fields, keys: seq<string>, at: seq<string>, same: TextEquality, m: Fields)
    requires Sound(same)
    requires forall k | k in keys :: k in bf || k in af
    requires forall i, j | 0 <= i < j < |keys| :: keys[i] != keys[j]
    requires forall k | k in keys :: Lookup(m, k) == Lookup(bf, k)
    requires DiffKeys(bf, af, keys, at, same).Ok? && Placed(DiffKeys(bf, af, keys, at, same).value)
    ensures var n := ApplyEdits(m, DiffKeys(bf, af, keys, at, same).value);
      && n.Keys <= m.Keys + af.Keys
      && forall k :: Lookup(n, k) == if k in keys then Lookup(af, k) else Lookup(m, k)
    decreases Obj(bf), |keys|
  {
    if keys != [] {
      var k, rest := keys[0], keys[1..];
      MemberCorrect(bf, af, k, at, same, m);
      var here := DiffMember(bf, af, k, at, same).value;
      var later := DiffKeys(bf, af, rest, at, same).value;
      DiffPlaced(bf, af, rest, at, same);
      ApplyEditsAppend(m, here, later);
      KeysCorrect(bf, af, rest, at, same, Write(m, k, Lookup(af, k)));
    }
  }

  lemma {:induction false} DiffCorrect(before: Fields, after: Fields, same: TextEquality)
    requires Sound(same)
    requires Diff(before, after, same).Ok?
    ensures Placed(Diff(before, after, same).value)
    ensures ApplyEdits(before, Diff(before, after, same).value) == after
  {
    var keys := SortedKeys(before.Keys + after.Keys);
    SortedDistinct(keys);
    DiffPlaced(before, after, keys, [], same);
    KeysCorrect(before, after, keys, [], same, before);
    LookupExtensional(ApplyEdits(before, Diff(before, after, same).value), after, before.Keys + after.Keys);
  }

  // ---- when the differ succeeds ----

  /** Every pointer into `m` keeps the bounds of the patch applier. */
  ghost predicate Bounded(m: Fields, at: seq<string>)
    decreases Obj(m)
  {
    forall k | k in m :: JsonPointer.InBounds(at + [k]) && (m[k].Obj? ==> Bounded(m[k].fields, at + [k]))
  }

  /** Somewhere both states hold an object and the second one dropped a key that every object inherits. */
  ghost predicate DropsInherited(bf: Fields, af: Fields)
    decreases Obj(bf)
  {
    || (exists k | k in bf :: k !in af && k in INHERITED_NAMES)
    || (exists k | k in bf :: k in af && bf[k].Obj? && af[k].Obj? && DropsInherited(bf[k].fields, af[k].fields))
  }

  lemma {:induction false} SelfDropsNothing(m: Fields)
    ensures !DropsInherited(m, m)
    decreases Obj(m)
  {
    forall k | k in m && m[k].Obj? ensures !DropsInherited(m[k].fields, m[k].fields) {
      SelfDropsNothing(m[k].fields);
    }
  }

  lemma {:induction false} BoundedKey(m: Fields, at: seq<string>, k: string)
    requires Bounded(m, at) && k in m
    ensures KeyAllowed(k)
  {
    assert k in at + [k] by { assert (at + [k])[|at|] == k; }
    assert JsonPointer.SafeName(k);
  }

  ghost predicate MemberDrops(bf: Fields, af: Fields, k: string) {
    || (k in bf && k !in af && k in INHERITED_NAMES)
    || (k in bf && k in af && bf[k].Obj? && af[k].Obj? && DropsInherited(bf[k].fields, af[k].fields))
  }

  lemma {:induction false} DropsByKey(bf: Fields, af: Fields, keys: seq<string>)
    requires forall k :: k in keys <==> k in bf || k in af
    ensures DropsInherited(bf, af) <==> exists k | k in keys :: MemberDrops(bf, af, k)
  {
    if k :| k in bf && k !in af && k in INHERITED_NAMES {
      assert k in keys && MemberDrops(bf, af, k);
    } else if k :| k in bf && k in af && bf[k].Obj? && af[k].Obj? && DropsInherited(bf[k].fields, af[k].fields) {
      assert k in keys && MemberDrops(bf, af, k);
    }
  }

  lemma {:induction false} UnderInBounds(at: seq<string>, k: string, inner: seq<Edit>)
    requires forall e | e in inner :: JsonPointer.InBounds(at + [k] + e.at)
    ensures forall e | e in Under(k, inner) :: JsonPointer.InBounds(at + e.at)
  {
    forall e | e in Under(k, inner) ensures JsonPointer.InBounds(at + e.at) {
      var below := Edit(e.at[1..], e.value);
      assert below in inner && e.at == [k] + below.at;
      assert at + ([k] + below.at) == at + [k] + below.at;
      assert JsonPointer.InBounds(at + [k] + below.at);
    }
  }

  lemma {:induction false} MemberOk(bf: Fields, af: Fields, k: string, at: seq<string>, same: TextEquality)
    requires Sound(same) && (k in bf || k in af)
    requires Bounded(bf, at) && Bounded(af, at)
    ensures DiffMember(bf, af, k, at, same).Ok? <==> !MemberDrops(bf, af, k)
    ensures DiffMember(bf, af, k, at, same).Ok? ==>
      forall e | e in DiffMember(bf, af, k, at, same).value :: JsonPointer.InBounds(at + e.at)
    decreases Obj(bf), 0
  {
    if k in bf { BoundedKey(bf, at, k); } else { BoundedKey(af, at, k); }
    if k in bf && k in af && same(at + [k], bf[k], af[k]) {
      assert bf[k] == af[k];
      if bf[k].Obj? { SelfDropsNothing(bf[k].fields); }
    } else if k in bf && k in af && bf[k].Obj? && af[k].Obj? {
      var b, a := bf[k].fields, af[k].fields;
      var keys := SortedKeys(b.Keys + a.Keys);
      KeysOk(b, a, keys, at + [k], same);
      DropsByKey(b, a, keys);
      if DiffMember(bf, af, k, at, same).Ok? { UnderInBounds(at, k, DiffKeys(b, a, keys, at + [k], same).value); }
    }
  }

  lemma {:induction false} KeysOk(bf: Fields, af: Fields, keys: seq<string>, at: seq<string>, same: TextEquality)
    requires Sound(same)
    requires forall k | k in keys :: k in bf || k in af
    requires Bounded(bf, at) && Bounded(af, at)
    ensures DiffKeys(bf, af, keys, at, same).Ok? <==> forall k | k in keys :: !MemberDrops(bf, af, k)
    ensures DiffKeys(bf, af, keys, at, same).Ok? ==>
      forall e | e in DiffKeys(bf, af, keys, at, same).value :: JsonPointer.InBounds(at + e.at)
    decreases Obj(bf), |keys|
  {
    if keys != [] {
      MemberOk(bf, af, keys[0], at, same);
      KeysOk(bf, af, keys[1..], at, same);
      assert forall k :: k in keys <==> k == keys[0] || k in keys[1..];
    }
  }

  // ---- through the printed pointers ----

  ghost predicate AllInBounds(edits: seq<Edit>) {
    forall e | e in edits :: JsonPointer.InBounds(e.at)
  }

  lemma {:induction false} ApplyWrite(m: Fields, path: string, value: Option<Json>, parsed: Result<seq<string>>)
    requires parsed == JsonPointer.Segments(path)
    ensures parsed.Ok? ==> Apply(m, WriteAt(path, value)) == Ok(SetAt(m, parsed.value, value))
    ensures parsed.Err? ==> Apply(m, WriteAt(path, value)).Err?
  {
  }

  lemma {:induction false} ApplyPrintedEdit(m: Fields, e: Edit)
    requires e.at != []
    ensures Apply(m, PrintedEdit([], e)).Ok? <==> JsonPointer.InBounds(e.at)
    ensures JsonPointer.InBounds(e.at) ==> Apply(m, PrintedEdit([], e)) == Ok(SetAt(m, e.at, e.value))
  {
    assert [] + e.at == e.at;
    var path := JsonPointer.Print(e.at);
    var parsed := JsonPointer.Segments(path);
    assert parsed.Ok? <==> JsonPointer.InBounds(e.at) by { JsonPointer.SegmentsPrint(e.at); }
    assert parsed.Ok? ==> parsed.value == e.at by { JsonPointer.SegmentsPrint(e.at); }
    ApplyWrite(m, path, e.value, parsed);
  }

  /** The applier accepts printed edits exactly when every pointer is in bounds, and then does what the edits say. */
  lemma {:induction false} ApplyPrinted(m: Fields, edits: seq<Edit>)
    requires Placed(edits)
    ensures ApplyAll(m, Printed([], edits)).Ok? <==> AllInBounds(edits)
    ensures AllInBounds(edits) ==> ApplyAll(m, Printed([], edits)) == Ok(ApplyEdits(m, edits))
    decreases |edits|
  {
    if edits != [] {
      var e := edits[0];
      ApplyPrintedEdit(m, e);
      assert AllInBounds(edits) <==> JsonPointer.InBounds(e.at) && AllInBounds(edits[1..]);
      ApplyPrinted(SetAt(m, e.at, e.value), edits[1..]);
    }
  }

  /** Diff then apply, for any two states: the result is the second state unless a pointer leaves the bounds. */
  lemma {:induction false} DiffThenApply(before: Fields, after: Fields, same: TextEquality)
    requires Sound(same)
    requires Diff(before, after, same).Ok?
    ensures var edits := Diff(before, after, same).value;
      && (AllInBounds(edits) ==> ApplyAll(before, Printed([], edits)) == Ok(after))
      && (!AllInBounds(edits) ==> ApplyAll(before, Printed([], edits)).Err?)
  {
    DiffCorrect(before, after, same);
    ApplyPrinted(before, Diff(before, after, same).value);
  }

  /**
   * Diff then apply is the identity on bounded states exactly when no key that objects inherit was dropped;
   * in that case the differ itself fails, on cloning the inherited function it reads.
   */
  lemma {:induction false} RoundTrip(before: Fields, after: Fields, same: TextEquality)
    requires Sound(same)
    requires Bounded(before, []) && Bounded(after, [])
    ensures Diff(before, after, same).Ok? <==> !DropsInherited(before, after)
    ensures !DropsInherited(before, after) ==>
      ApplyAll(before, Printed([], Diff(before, after, same).value)) == Ok(after)
  {
    var keys := SortedKeys(before.Keys + after.Keys);
    KeysOk(before, after, keys, [], same);
    DropsByKey(before, after, keys);
    if Diff(before, after, same).Ok? {
      DiffThenApply(before, after, same);
      forall e | e in Diff(before, after, same).value ensures JsonPointer.InBounds(e.at) {
        assert [] + e.at == e.at;
      }
    }
  }

  /** A state may hold a key named `toString`, but no command can delete it again. */
  lemma {:induction false} DroppedToString(same: TextEquality)
    requires Sound(same)
    ensures Bounded(map["toString" := Num(1.0)], []) && Bounded(map[], [])
    ensures Diff(map["toString" := Num(1.0)], map[], same).Err?
  {
    var before: Fields := map["toString" := Num(1.0)];
    assert [] + ["toString"] == ["toString"];
    ShortPath("toString");
    assert DropsInherited(before, map[]) by { assert "toString" in before && "toString" in INHERITED_NAMES; }
    RoundTrip(before, map[], same);
  }

  lemma {:induction false} ShortPath(name: string)
    requires JsonPointer.SafeName(name)
    ensures JsonPointer.InBounds([name])
  {
    JsonPointer.EscapeWellFormed(name);
    assert JsonPointer.Print([name]) == "/" + JsonPointer.Escape(name) + "";
    EscapeLength(name);
  }

  lemma {:induction false} EscapeLength(name: string)
    ensures |JsonPointer.Escape(name)| <= 2 * |name|
  {
    if name != "" {
      EscapeLength(name[1..]);
      JsonPointer.EscapeCons(name[0], name[1..]);
      assert name == [name[0]] + name[1..];
    }
  }

  // ---- model commands ----

  /** A model is its reducer (which may throw) and its validator. */
  datatype CommandModel<!C> = CommandModel(reduce: (Fields, C) -> Result<Fields>, validate: (Fields, C) -> Result<()>)

  /** `runModelCommand`, with the differ it calls. */
  function RunModelCommand<C>(model: CommandModel<C>, state: Fields, command: C, same: TextEquality)
    : Result<(Fields, seq<CanonicalPatch>)>
  {
    var next :- model.reduce(state, command);
    var _ :- model.validate(next, command);
    var edits :- Diff(state, next, same);
    Ok((next, Printed([], edits)))
  }

  /** The patches a command publishes rebuild, on every replica, the state that its reducer computed. */
  lemma {:induction false} CommandPatchesRebuild<C>(model: CommandModel<C>, state: Fields, command: C, same: TextEquality)
    requires Sound(same) && Bounded(state, [])
    requires RunModelCommand(model, state, command, same).Ok?
    requires Bounded(RunModelCommand(model, state, command, same).value.0, [])
    ensures var (next, patches) := RunModelCommand(model, state, command, same).value;
      && model.reduce(state, command) == Ok(next)
      && ApplyAll(state, patches) == Ok(next)
  {
    RoundTrip(state, model.reduce(state, command).value, same);
  }
}
