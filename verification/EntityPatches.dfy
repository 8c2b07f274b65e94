/** Entity patches on a list of encoded records, and the revision patch that both example packs append. */
module EntityPatches {
  import opened Results
  import opened Json
  import opened JsonPatch
  import JsonPointer

  /** An encoding of records as JSON objects that keeps the id under "id". */
  datatype Encoding<!T> = Encoding(id: T -> string, fields: T -> Fields)

  ghost predicate KeepsId<T(!new)>(c: Encoding<T>) {
    forall t :: "id" in c.fields(t) && c.fields(t)["id"] == Str(c.id(t))
  }

  function EncodeAll<T>(c: Encoding<T>, records: seq<T>): seq<Json> {
    seq(|records|, i requires 0 <= i < |records| => Obj(c.fields(records[i])))
  }

  function Dropped<T>(c: Encoding<T>, records: seq<T>, id: string): seq<T> {
    if records == [] then [] else (if c.id(records[0]) == id then [] else [records[0]]) + Dropped(c, records[1..], id)
  }

  function RemoveAll<T>(c: Encoding<T>, records: seq<T>, ids: seq<string>): seq<T>
    decreases |ids|
  {
    if ids == [] then records else RemoveAll(c, Dropped(c, records, ids[0]), ids[1..])
  }

  /** `map` with a change to the record that has this id. */
  function Update<T>(c: Encoding<T>, records: seq<T>, id: string, change: T -> T): seq<T> {
    seq(|records|, i requires 0 <= i < |records| => if c.id(records[i]) == id then change(records[i]) else records[i])
  }

  predicate Has<T>(c: Encoding<T>, records: seq<T>, id: string) {
    exists i :: 0 <= i < |records| && c.id(records[i]) == id
  }

  ghost predicate UniqueIds<T>(c: Encoding<T>, records: seq<T>) {
    forall i, j :: 0 <= i < j < |records| ==> c.id(records[i]) != c.id(records[j])
  }

  predicate GoodIds<T>(c: Encoding<T>, records: seq<T>) {
    forall i :: 0 <= i < |records| ==> GoodId(c.id(records[i]))
  }

  lemma {:induction false} DeleteCommutes<T(!new)>(c: Encoding<T>, records: seq<T>, id: string)
    requires KeepsId(c)
    ensures WithoutId(EncodeAll(c, records), id) == EncodeAll(c, Dropped(c, records, id))
  {
    if records != [] {
      assert EncodeAll(c, records)[1..] == EncodeAll(c, records[1..]);
      DeleteCommutes(c, records[1..], id);
      assert "id" in c.fields(records[0]);
    }
  }

  lemma {:induction false} AppendCommutes<T(!new)>(c: Encoding<T>, records: seq<T>, r: T)
    requires KeepsId(c) && !Has(c, records, c.id(r))
    ensures Upsert(EncodeAll(c, records), c.id(r), c.fields(r)) == EncodeAll(c, records + [r])
  {
    if records != [] {
      assert EncodeAll(c, records)[1..] == EncodeAll(c, records[1..]);
      assert records + [r] == [records[0]] + (records[1..] + [r]);
      assert c.id(records[0]) != c.id(r);
      forall i | 0 <= i < |records[1..]| ensures c.id(records[1..][i]) != c.id(r) { assert c.id(records[i + 1]) != c.id(r); }
      AppendCommutes(c, records[1..], r);
      assert "id" in c.fields(records[0]);
    }
  }

  lemma {:induction false} UpsertAt(items: seq<Json>, i: nat, id: string, fields: Fields)
    requires i < |items| && HasId(items[i], id) && forall k :: 0 <= k < i ==> !HasId(items[k], id)
    ensures Upsert(items, id, fields) == items[i := Obj(items[i].fields + fields)]
    decreases i
  {
    if i > 0 {
      assert !HasId(items[0], id);
      UpsertAt(items[1..], i - 1, id, fields);
    }
  }

  /** Merging into the first record with an id is changing every record with it, when ids are unique. */
  lemma {:induction false} MergeCommutes<T(!new)>(c: Encoding<T>, records: seq<T>, id: string, fields: Fields, change: T -> T)
    requires KeepsId(c) && UniqueIds(c, records) && Has(c, records, id)
    requires forall t :: c.id(t) == id ==> c.fields(change(t)) == c.fields(t) + fields
    ensures Upsert(EncodeAll(c, records), id, fields) == EncodeAll(c, Update(c, records, id, change))
  {
    var i :| 0 <= i < |records| && c.id(records[i]) == id;
    var items := EncodeAll(c, records);
    OnlyOne(c, records, i);
    UpsertAt(items, i, id, fields);
    UpdatedAt(c, records, i, fields, change);
  }

  lemma {:induction false} UpdatedAt<T(!new)>(c: Encoding<T>, records: seq<T>, i: nat, fields: Fields, change: T -> T)
    requires UniqueIds(c, records) && i < |records|
    requires c.fields(change(records[i])) == c.fields(records[i]) + fields
    ensures EncodeAll(c, Update(c, records, c.id(records[i]), change)) == EncodeAll(c, records)[i := Obj(c.fields(records[i]) + fields)]
  {
    var updated := Update(c, records, c.id(records[i]), change);
    assert forall k :: 0 <= k < |records| ==> updated[k] == if k == i then change(records[i]) else records[k];
  }

  lemma {:induction false} OnlyOne<T(!new)>(c: Encoding<T>, records: seq<T>, i: nat)
    requires KeepsId(c) && UniqueIds(c, records) && i < |records|
    ensures forall k :: 0 <= k < |records| ==> (HasId(EncodeAll(c, records)[k], c.id(records[i])) <==> k == i)
    ensures forall k :: 0 <= k < |records| && k != i ==> c.id(records[k]) != c.id(records[i])
  {
    forall k | 0 <= k < |records| ensures HasId(EncodeAll(c, records)[k], c.id(records[i])) <==> k == i {
      assert "id" in c.fields(records[k]) && c.fields(records[k])["id"] == Str(c.id(records[k]));
    }
  }

  lemma {:induction false} UpdateKeepsIds<T(!new)>(c: Encoding<T>, records: seq<T>, id: string, change: T -> T)
    requires UniqueIds(c, records) && forall i :: 0 <= i < |records| ==> c.id(change(records[i])) == c.id(records[i])
    ensures UniqueIds(c, Update(c, records, id, change))
    ensures GoodIds(c, records) ==> GoodIds(c, Update(c, records, id, change))
    ensures forall x :: Has(c, Update(c, records, id, change), x) <==> Has(c, records, x)
  {
    var u := Update(c, records, id, change);
    assert forall i :: 0 <= i < |records| ==> c.id(u[i]) == c.id(records[i]);
  }

  lemma {:induction false} RemoveMembers<T(!new)>(c: Encoding<T>, records: seq<T>, id: string)
    ensures forall r :: r in Dropped(c, records, id) <==> r in records && c.id(r) != id
  {
    if records != [] {
      assert records == [records[0]] + records[1..];
      RemoveMembers(c, records[1..], id);
    }
  }

  /** Removing keeps the others, in their order. */
  lemma {:induction false} RemoveKeeps<T(!new)>(c: Encoding<T>, records: seq<T>, id: string)
    requires UniqueIds(c, records)
    ensures UniqueIds(c, Dropped(c, records, id))
  {
    if records != [] {
      var rest := records[1..];
      RemoveKeeps(c, rest, id);
      var left := Dropped(c, rest, id);
      RemoveMembers(c, rest, id);
      forall j | 0 <= j < |left| ensures c.id(records[0]) != c.id(left[j]) {
        var x := left[j];
        assert x in left;
        var n :| 0 <= n < |rest| && rest[n] == x;
        assert records[n + 1] == x;
      }
    }
  }

  lemma {:induction false} RemoveAllKeeps<T(!new)>(c: Encoding<T>, records: seq<T>, ids: seq<string>)
    ensures forall r :: r in RemoveAll(c, records, ids) <==> r in records && c.id(r) !in ids
    ensures UniqueIds(c, records) ==> UniqueIds(c, RemoveAll(c, records, ids))
    decreases |ids|
  {
    if ids != [] {
      RemoveMembers(c, records, ids[0]);
      if UniqueIds(c, records) { RemoveKeeps(c, records, ids[0]); }
      RemoveAllKeeps(c, Dropped(c, records, ids[0]), ids[1..]);
      assert ids == [ids[0]] + ids[1..];
    }
  }

  lemma {:induction false} RemoveSwaps<T(!new)>(c: Encoding<T>, a: seq<T>, b: seq<T>, id: string)
    ensures Dropped(c, a + b, id) == Dropped(c, a, id) + Dropped(c, b, id)
  {
    if a == [] { assert a + b == b; }
    else {
      assert (a + b)[1..] == a[1..] + b;
      RemoveSwaps(c, a[1..], b, id);
    }
  }

  lemma {:induction false} RemoveAllSwaps<T(!new)>(c: Encoding<T>, a: seq<T>, b: seq<T>, ids: seq<string>)
    ensures RemoveAll(c, a + b, ids) == RemoveAll(c, a, ids) + RemoveAll(c, b, ids)
    decreases |ids|
  {
    if ids != [] {
      RemoveSwaps(c, a, b, ids[0]);
      RemoveAllSwaps(c, Dropped(c, a, ids[0]), Dropped(c, b, ids[0]), ids[1..]);
    }
  }

  // ---- patches on one collection of a state ----

  function Deletes(collection: string, ids: seq<string>): seq<CanonicalPatch> {
    seq(|ids|, i requires 0 <= i < |ids| => EntityDelete(collection, ids[i]))
  }

  lemma {:induction false} DeletesApply<T(!new)>(c: Encoding<T>, state: Fields, collection: string, records: seq<T>, ids: seq<string>)
    requires KeepsId(c) && JsonPointer.SafeName(collection)
    requires collection in state && state[collection] == Arr(EncodeAll(c, records))
    requires forall i :: 0 <= i < |ids| ==> GoodId(ids[i])
    ensures ApplyAll(state, Deletes(collection, ids)) == Ok(state[collection := Arr(EncodeAll(c, RemoveAll(c, records, ids)))])
    decreases |ids|
  {
    var patches := Deletes(collection, ids);
    if ids == [] {
      assert state[collection := state[collection]] == state;
    } else {
      DeleteCommutes(c, records, ids[0]);
      assert patches[1..] == Deletes(collection, ids[1..]);
      var next := state[collection := Arr(EncodeAll(c, Dropped(c, records, ids[0])))];
      assert Apply(state, patches[0]) == Ok(next);
      DeletesApply(c, next, collection, Dropped(c, records, ids[0]), ids[1..]);
      assert next[collection := Arr(EncodeAll(c, RemoveAll(c, records, ids)))] == state[collection := Arr(EncodeAll(c, RemoveAll(c, records, ids)))];
    }
  }

  lemma {:induction false} UpsertApplies<T(!new)>(c: Encoding<T>, state: Fields, collection: string, records: seq<T>, id: string, fields: Fields)
    requires collection in state && state[collection] == Arr(EncodeAll(c, records)) && JsonPointer.SafeName(collection)
    ensures Apply(state, EntityUpsert(collection, id, fields))
         == if GoodId(id) then Ok(state[collection := Arr(Upsert(EncodeAll(c, records), id, fields))])
            else Err("canonical patch requires a bounded entity id")
  {
  }

  lemma {:induction false} DeleteApplies<T(!new)>(c: Encoding<T>, state: Fields, collection: string, records: seq<T>, id: string)
    requires collection in state && state[collection] == Arr(EncodeAll(c, records)) && JsonPointer.SafeName(collection)
    requires KeepsId(c) && GoodId(id)
    ensures Apply(state, EntityDelete(collection, id)) == Ok(state[collection := Arr(EncodeAll(c, Dropped(c, records, id)))])
  {
    DeleteCommutes(c, records, id);
  }

  // ---- the revision ----

  function Revision(version: nat): CanonicalPatch { Set("/revision", Num((version + 1) as real)) }

  ghost predicate Plain(name: string) { '/' !in name && '~' !in name }

  lemma {:induction false} PlainReplace(s: string, c: char, to: string)
    requires c !in s
    ensures JsonPointer.ReplaceChar(s, c, to) == s
  {
    if s != "" {
      assert s == [s[0]] + s[1..];
      PlainReplace(s[1..], c, to);
    }
  }

  lemma {:induction false} PlainEscape(name: string)
    requires Plain(name)
    ensures JsonPointer.Escape(name) == name
  {
    PlainReplace(name, '~', "~0");
    PlainReplace(name, '/', "~1");
  }

  lemma {:induction false} OneSegment(name: string)
    requires Plain(name) && JsonPointer.SafeName(name)
    ensures JsonPointer.Segments("/" + name) == Ok([name])
  {
    PlainEscape(name);
    assert [name][1..] == [];
    assert JsonPointer.Print([name]) == "/" + name + "";
    assert "/" + name + "" == "/" + name;
    JsonPointer.SegmentsPrint([name]);
  }

  lemma {:induction false} TwoSegments(a: string, b: string)
    requires Plain(a) && JsonPointer.SafeName(a) && Plain(b) && JsonPointer.SafeName(b)
    ensures JsonPointer.Segments("/" + a + "/" + b) == Ok([a, b])
  {
    PlainEscape(a);
    PlainEscape(b);
    assert [a, b][1..] == [b] && [b][1..] == [];
    assert JsonPointer.Print([b]) == "/" + b + "";
    assert JsonPointer.Print([a, b]) == "/" + a + JsonPointer.Print([b]);
    assert "/" + a + ("/" + b + "") == "/" + a + "/" + b;
    JsonPointer.SegmentsPrint([a, b]);
  }

  lemma {:induction false} RevisionPath()
    ensures JsonPointer.Segments("/revision") == Ok(["revision"])
  {
    OneSegment("revision");
    assert "/" + "revision" == "/revision";
  }

  /** Whatever the other patches do, a commit leaves the revision at the new canonical version. */
  lemma {:induction false} RevisionFollowsVersion(state: Fields, patches: seq<CanonicalPatch>, version: nat)
    requires ApplyAll(state, patches + [Revision(version)]).Ok?
    ensures var next := ApplyAll(state, patches + [Revision(version)]).value;
      && ApplyAll(state, patches).Ok? && "revision" in next && next["revision"] == Num((version + 1) as real)
      && next == ApplyAll(state, patches).value["revision" := Num((version + 1) as real)]
  {
    ApplyAllAppend(state, patches, [Revision(version)]);
    RevisionPath();
    if ApplyAll(state, patches).Ok? { ApplyOne(ApplyAll(state, patches).value, Revision(version)); }
  }

  lemma {:induction false} ApplyOne(state: Fields, patch: CanonicalPatch)
    ensures ApplyAll(state, [patch]) == Apply(state, patch)
  {
    assert [patch][1..] == [];
  }
}
