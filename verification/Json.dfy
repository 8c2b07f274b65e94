/** JSON values. An object is a map: the order in which keys were written is not part of a value. */
module Json {
  import opened Results

  datatype Json =
    | Null
    | Bool(flag: bool)
    | Num(num: real)
    | Str(text: string)
    | Arr(items: seq<Json>)
    | Obj(fields: Fields)

  type Fields = map<string, Json>

  /** An id by which canonical patches can address an entity. */
  predicate GoodId(id: string) { id != "" && |id| <= 512 }

  function Lookup(m: Fields, k: string): Option<Json> {
    if k in m then Some(m[k]) else None
  }

  /** Writes `value` at `k`; `None` deletes the key. */
  function Write(m: Fields, k: string, value: Option<Json>): Fields {
    match value
    case None => m - {k}
    case Some(v) => m[k := v]
  }
}

/** Strings in lexicographic order, and the sorted list of a set of them. */
module Strings {

  predicate Below(a: string, b: string) {
    b != "" && (a == "" || a[0] < b[0] || (a[0] == b[0] && Below(a[1..], b[1..])))
  }

  lemma {:induction false} BelowTrichotomy(a: string, b: string)
    ensures a == b || Below(a, b) || Below(b, a)
    ensures !(Below(a, b) && Below(b, a))
    ensures !Below(a, a)
  {
    if a != "" && b != "" && a[0] == b[0] {
      BelowTrichotomy(a[1..], b[1..]);
      assert a == [a[0]] + a[1..] && b == [b[0]] + b[1..];
    }
    if a != "" { BelowTrichotomy(a[1..], a[1..]); }
  }

  lemma {:induction false} BelowTransitive(a: string, b: string, c: string)
    requires Below(a, b) && Below(b, c)
    ensures Below(a, c)
  {
    if a != "" && a[0] == b[0] == c[0] { BelowTransitive(a[1..], b[1..], c[1..]); }
  }

  predicate Least(k: string, keys: set<string>) {
    k in keys && forall x | x in keys :: x == k || Below(k, x)
  }

  lemma {:induction false} LeastExists(keys: set<string>)
    requires keys != {}
    ensures exists k :: Least(k, keys)
    ensures forall k, k' | Least(k, keys) && Least(k', keys) :: k == k'
  {
    forall k, k' | Least(k, keys) && Least(k', keys) ensures k == k' { BelowTrichotomy(k, k'); }
    var x :| x in keys;
    if keys == {x} {
      assert Least(x, keys);
    } else {
      LeastExists(keys - {x});
      var k :| Least(k, keys - {x});
      BelowTrichotomy(x, k);
      if Below(x, k) {
        forall y | y in keys && y != x ensures Below(x, y) {
          if y != k { BelowTransitive(x, k, y); }
        }
        assert Least(x, keys);
      } else {
        assert Least(k, keys);
      }
    }
  }

  ghost predicate Sorted(s: seq<string>) {
    forall i, j | 0 <= i < j < |s| :: Below(s[i], s[j])
  }

  /** The keys of an object in the order in which the source visits them. */
  function SortedKeys(keys: set<string>): (r: seq<string>)
    ensures Sorted(r)
    ensures forall k :: k in r <==> k in keys
  {
    if keys == {} then [] else
      LeastExists(keys);
      var k :| Least(k, keys);
      var rest := SortedKeys(keys - {k});
      [k] + rest
  }

  lemma {:induction false} SortedDistinct(s: seq<string>)
    requires Sorted(s)
    ensures forall i, j | 0 <= i < j < |s| :: s[i] != s[j]
  {
    forall i, j | 0 <= i < j < |s| ensures s[i] != s[j] {
      BelowTrichotomy(s[i], s[j]);
    }
  }
}
