/** `listOrderStrategy`: placing an item of a list by a key between those of its neighbours. */
module ListOrder {
  import opened Results
  import opened Ordering
  import opened Distinct
  import opened Json

  /** An entity of a list; the order key may be missing. */
  datatype Item = Item(id: string, key: Option<real>)

  datatype Move = Move(id: string, after: Option<string>)

  /** Rounding to binary64 after each arithmetic operation. */
  type Rounding = real -> real

  function KeyOf(item: Item): real { if item.key.Some? then item.key.value else 0.0 }

  function InKeyOrder(items: seq<Item>): seq<Item> { SortBy(items, (i: Item) => KeyOf(i)) }

  /** `rankBetween`; a missing neighbour or key is `None`. */
  function RankBetween(fl: Rounding, before: Option<real>, after: Option<real>): real {
    var left := if before.Some? then before.value else 0.0;
    var right := if after.Some? then after.value else fl(left + 2048.0);
    if right <= left then fl(left + 0.5) else fl(fl(left + right) / 2.0)
  }

  function Others(items: seq<Item>, id: string): seq<Item> {
    if items == [] then [] else (if items[0].id == id then [] else [items[0]]) + Others(items[1..], id)
  }

  function Ids(items: seq<Item>): seq<string> { seq(|items|, i requires 0 <= i < |items| => items[i].id) }

  function Order(items: seq<Item>, id: string): seq<Item> { InKeyOrder(Others(items, id)) }

  /** An `afterId` that is empty counts as none. */
  predicate Names(after: Option<string>) { after.Some? && after.value != "" }

  /** Where in the others' order the item goes. */
  function Slot(order: seq<Item>, after: Option<string>): (at: nat)
    ensures at <= |order|
  {
    if Names(after) then IndexOf(Ids(order), after.value) + 1 else 0
  }

  function KeyBefore(order: seq<Item>, at: nat): Option<real>
    requires at <= |order|
  {
    if at > 0 then order[at - 1].key else None
  }

  function KeyAfter(order: seq<Item>, at: nat): Option<real> { if at < |order| then order[at].key else None }

  /** `resolve` and the applier's check of its patch: the new key, or the reason for rejecting the move. */
  function Resolve(fl: Rounding, items: seq<Item>, m: Move): Result<real> {
    var order := Order(items, m.id);
    if m.id !in Ids(items) then Err("entity does not exist")
    else if Names(m.after) && m.after.value !in Ids(order) then Err("afterId does not exist")
    else if !GoodId(m.id) then Err("canonical patch requires a bounded entity id")
    else Ok(RankBetween(fl, KeyBefore(order, Slot(order, m.after)), KeyAfter(order, Slot(order, m.after))))
  }

  /** The `listOrder` patch. */
  function Rekeyed(items: seq<Item>, id: string, key: real): seq<Item> {
    seq(|items|, i requires 0 <= i < |items| => if items[i].id == id then items[i].(key := Some(key)) else items[i])
  }

  function Moved(fl: Rounding, items: seq<Item>, m: Move): seq<Item> {
    match Resolve(fl, items, m)
    case Err(_) => items
    case Ok(key) => Rekeyed(items, m.id, key)
  }

  function AllMoved(fl: Rounding, items: seq<Item>, moves: seq<Move>): seq<Item> {
    if moves == [] then items else Moved(fl, AllMoved(fl, items, moves[..|moves| - 1]), moves[|moves| - 1])
  }

  // ---- where the item lands ----

  ghost predicate DistinctIds(items: seq<Item>) { forall i, j :: 0 <= i < j < |items| ==> items[i].id != items[j].id }

  ghost predicate Keyed(items: seq<Item>) {
    && DistinctIds(items)
    && (forall i :: 0 <= i < |items| ==> items[i].key.Some? && items[i].key.value > 0.0)
    && (forall i, j :: 0 <= i < j < |items| ==> KeyOf(items[i]) != KeyOf(items[j]))
  }

  /** The others in key order, with the moved item put right behind `after`. */
  function Placed(order: seq<Item>, item: Item, after: Option<string>): seq<Item> {
    order[..Slot(order, after)] + [item] + order[Slot(order, after)..]
  }

  lemma {:induction false} OthersAppend(a: seq<Item>, b: seq<Item>, id: string)
    ensures Others(a + b, id) == Others(a, id) + Others(b, id)
  {
    if a == [] { assert a + b == b; }
    else {
      assert (a + b)[1..] == a[1..] + b;
      OthersAppend(a[1..], b, id);
    }
  }

  lemma {:induction false} OthersAll(items: seq<Item>, id: string)
    requires forall k :: 0 <= k < |items| ==> items[k].id != id
    ensures Others(items, id) == items
  {
    if items != [] { OthersAll(items[1..], id); }
  }

  lemma {:induction false} OthersMembers(items: seq<Item>, id: string)
    ensures forall x :: x in Others(items, id) <==> x in items && x.id != id
  {
    if items != [] {
      assert items == [items[0]] + items[1..];
      OthersMembers(items[1..], id);
    }
  }

  /** The list around position `i`, when no other item has the same id. */
  ghost predicate Around(items: seq<Item>, left: seq<Item>, item: Item, right: seq<Item>) {
    && items == left + ([item] + right)
    && (forall k :: 0 <= k < |left| ==> left[k].id != item.id)
    && (forall k :: 0 <= k < |right| ==> right[k].id != item.id)
  }

  lemma {:induction false} SplitAt(items: seq<Item>, i: nat)
    requires DistinctIds(items) && i < |items|
    ensures Around(items, items[..i], items[i], items[i + 1..])
  {
  }

  /** With distinct ids only the item itself is taken out. */
  lemma {:induction false} OthersSplit(items: seq<Item>, left: seq<Item>, item: Item, right: seq<Item>)
    requires Around(items, left, item, right)
    ensures Others(items, item.id) == left + right
  {
    OthersAppend(left, [item] + right, item.id);
    OthersAll(left, item.id);
    OthersAll(right, item.id);
    assert ([item] + right)[1..] == right;
    assert Others([item] + right, item.id) == right;
  }

  lemma {:induction false} RekeyedSplit(items: seq<Item>, left: seq<Item>, item: Item, right: seq<Item>, key: real)
    requires Around(items, left, item, right)
    ensures Rekeyed(items, item.id, key) == left + ([Item(item.id, Some(key))] + right)
  {
  }

  /** Taking an item out and putting it back under another key. */
  lemma {:induction false} RekeyedIsOthersPlus(items: seq<Item>, i: nat, key: real)
    requires DistinctIds(items) && i < |items|
    ensures multiset(Rekeyed(items, items[i].id, key)) == multiset(Others(items, items[i].id)) + multiset{Item(items[i].id, Some(key))}
  {
    SplitAt(items, i);
    OthersSplit(items, items[..i], items[i], items[i + 1..]);
    RekeyedSplit(items, items[..i], items[i], items[i + 1..], key);
  }

  ghost predicate Increasing(order: seq<Item>) {
    && (forall i :: 0 <= i < |order| ==> order[i].key.Some? && order[i].key.value > 0.0)
    && (forall i, j :: 0 <= i < j < |order| ==> KeyOf(order[i]) < KeyOf(order[j]))
  }

  /** Sorting distinctly keyed items makes their keys strictly rise. */
  lemma {:induction false} OrderIncreases(items: seq<Item>)
    requires Keyed(items)
    ensures Increasing(InKeyOrder(items)) && DistinctIds(InKeyOrder(items)) && multiset(InKeyOrder(items)) == multiset(items)
  {
    var order := InKeyOrder(items);
    SortPermutes(items, (i: Item) => KeyOf(i));
    assert NoDup(items);
    Rearranged(items, order);
    forall i | 0 <= i < |order| ensures order[i].key.Some? && order[i].key.value > 0.0 { assert order[i] in items; }
    forall i, j | 0 <= i < j < |order| ensures KeyOf(order[i]) < KeyOf(order[j]) && order[i].id != order[j].id {
      assert order[i] in items && order[j] in items && order[i] != order[j];
      Differ(items, order[i], order[j]);
    }
  }

  lemma {:induction false} Differ(items: seq<Item>, a: Item, b: Item)
    requires Keyed(items) && a in items && b in items && a != b
    ensures KeyOf(a) != KeyOf(b) && a.id != b.id
  {
    var m :| 0 <= m < |items| && items[m] == a;
    var n :| 0 <= n < |items| && items[n] == b;
  }

  lemma {:induction false} OthersKeyed(items: seq<Item>, id: string)
    requires Keyed(items)
    ensures Keyed(Others(items, id))
  {
    if i :| 0 <= i < |items| && items[i].id == id {
      SplitAt(items, i);
      OthersSplit(items, items[..i], items[i], items[i + 1..]);
      OneOutKeyed(items, i, Others(items, id));
    } else {
      OthersAll(items, id);
    }
  }

  lemma {:induction false} OneOutKeyed(items: seq<Item>, i: nat, others: seq<Item>)
    requires Keyed(items) && i < |items| && others == items[..i] + items[i + 1..]
    ensures Keyed(others)
  {
    forall j | 0 <= j < |others| ensures others[j] == items[if j < i then j else j + 1] { }
    forall j, k | 0 <= j < k < |others| ensures others[j].id != others[k].id && KeyOf(others[j]) != KeyOf(others[k]) {
      assert others[j] == items[if j < i then j else j + 1] && others[k] == items[if k < i then k else k + 1];
    }
  }

  /** Reading the other items in key order: the same items, keys strictly rising. */
  lemma {:induction false} OthersInOrder(items: seq<Item>, id: string)
    requires Keyed(items)
    ensures Increasing(Order(items, id)) && DistinctIds(Order(items, id)) && multiset(Order(items, id)) == multiset(Others(items, id))
  {
    OthersKeyed(items, id);
    OrderIncreases(Others(items, id));
  }

  /** Arithmetic that happens to be exact. */
  predicate ExactOn(fl: Rounding, x: real) { fl(x) == x }

  /** All results of `rankBetween` for these neighbours come out exactly. */
  predicate ExactRank(fl: Rounding, before: Option<real>, after: Option<real>) {
    var left := if before.Some? then before.value else 0.0;
    && (after.None? ==> ExactOn(fl, left + 2048.0))
    && (var right := if after.Some? then after.value else left + 2048.0;
        if right <= left then ExactOn(fl, left + 0.5) else ExactOn(fl, left + right) && ExactOn(fl, (left + right) / 2.0))
  }

  predicate ExactMove(fl: Rounding, items: seq<Item>, m: Move) {
    var order := Order(items, m.id);
    Resolve(fl, items, m).Ok? ==> ExactRank(fl, KeyBefore(order, Slot(order, m.after)), KeyAfter(order, Slot(order, m.after)))
  }

  /** The new key lies strictly between those of the new neighbours. */
  lemma {:induction false} RankIsBetween(fl: Rounding, order: seq<Item>, at: nat)
    requires Increasing(order) && at <= |order| && ExactRank(fl, KeyBefore(order, at), KeyAfter(order, at))
    ensures var k := RankBetween(fl, KeyBefore(order, at), KeyAfter(order, at));
      && k > 0.0 && (at > 0 ==> KeyOf(order[at - 1]) < k) && (at < |order| ==> k < KeyOf(order[at]))
  {
  }

  lemma {:induction false} PlacedIncreases(order: seq<Item>, item: Item, at: nat)
    requires Increasing(order) && at <= |order| && item.key.Some? && item.key.value > 0.0
    requires (at > 0 ==> KeyOf(order[at - 1]) < KeyOf(item)) && (at < |order| ==> KeyOf(item) < KeyOf(order[at]))
    ensures Increasing(order[..at] + [item] + order[at..])
  {
    var r := order[..at] + [item] + order[at..];
    forall i, j | 0 <= i < j < |r| ensures KeyOf(r[i]) < KeyOf(r[j]) {
      if i < at { assert r[i] == order[i] && KeyOf(order[i]) <= KeyOf(order[at - 1]); }
      if j > at { assert r[j] == order[j - 1] && KeyOf(order[at]) <= KeyOf(order[j - 1]); }
      if i > at { assert r[i] == order[i - 1]; }
      if j < at { assert r[j] == order[j]; }
    }
  }

  /**
   * With exact arithmetic a valid move puts the item directly behind `after` (or first), keeps all others in their
   * order with their keys, and leaves all keys distinct and positive.
   */
  lemma {:induction false} MoveLands(fl: Rounding, items: seq<Item>, m: Move)
    requires Keyed(items) && ExactMove(fl, items, m) && Resolve(fl, items, m).Ok?
    ensures InKeyOrder(Moved(fl, items, m)) == Placed(Order(items, m.id), Item(m.id, Some(Resolve(fl, items, m).value)), m.after)
    ensures Keyed(Moved(fl, items, m)) && Ids(Moved(fl, items, m)) == Ids(items)
  {
    var item := Item(m.id, Some(Resolve(fl, items, m).value));
    var placed, moved := Placed(Order(items, m.id), item, m.after), Moved(fl, items, m);
    PlacedRises(fl, items, m);
    MovedHolds(fl, items, m);
    SortedAs(moved, placed);
    SameIds(fl, items, m);
    MovedKeyed(items, moved, placed);
  }

  lemma {:induction false} SortedAs(moved: seq<Item>, placed: seq<Item>)
    requires Increasing(placed) && multiset(moved) == multiset(placed)
    ensures InKeyOrder(moved) == placed
  {
    SortUnique(moved, (x: Item) => KeyOf(x), placed);
  }

  lemma {:induction false} SameIds(fl: Rounding, items: seq<Item>, m: Move)
    ensures Ids(Moved(fl, items, m)) == Ids(items)
  {
  }

  lemma {:induction false} PlacedRises(fl: Rounding, items: seq<Item>, m: Move)
    requires Keyed(items) && ExactMove(fl, items, m) && Resolve(fl, items, m).Ok?
    ensures Increasing(Placed(Order(items, m.id), Item(m.id, Some(Resolve(fl, items, m).value)), m.after))
  {
    OthersInOrder(items, m.id);
    PlacedAt(fl, Order(items, m.id), m.id, m.after);
  }

  lemma {:induction false} PlacedAt(fl: Rounding, order: seq<Item>, id: string, after: Option<string>)
    requires Increasing(order) && ExactRank(fl, KeyBefore(order, Slot(order, after)), KeyAfter(order, Slot(order, after)))
    ensures Increasing(Placed(order, Item(id, Some(RankBetween(fl, KeyBefore(order, Slot(order, after)), KeyAfter(order, Slot(order, after))))), after))
  {
    var at := Slot(order, after);
    RankIsBetween(fl, order, at);
    PlacedIncreases(order, Item(id, Some(RankBetween(fl, KeyBefore(order, at), KeyAfter(order, at)))), at);
  }

  lemma {:induction false} MovedHolds(fl: Rounding, items: seq<Item>, m: Move)
    requires Keyed(items) && Resolve(fl, items, m).Ok?
    ensures multiset(Moved(fl, items, m)) == multiset(Placed(Order(items, m.id), Item(m.id, Some(Resolve(fl, items, m).value)), m.after))
  {
    var key := Resolve(fl, items, m).value;
    var i :| 0 <= i < |items| && Ids(items)[i] == m.id;
    RekeyedIsOthersPlus(items, i, key);
    OthersInOrder(items, m.id);
    PlacedHolds(Order(items, m.id), Item(m.id, Some(key)), m.after);
  }

  lemma {:induction false} PlacedHolds(order: seq<Item>, item: Item, after: Option<string>)
    ensures multiset(Placed(order, item, after)) == multiset(order) + multiset{item}
  {
    assert order == order[..Slot(order, after)] + order[Slot(order, after)..];
  }

  lemma {:induction false} MovedKeyed(items: seq<Item>, moved: seq<Item>, placed: seq<Item>)
    requires DistinctIds(items) && Ids(moved) == Ids(items) && multiset(moved) == multiset(placed) && Increasing(placed)
    ensures Keyed(moved)
  {
    forall i, j | 0 <= i < j < |moved| ensures moved[i].id != moved[j].id {
      assert Ids(moved)[i] == Ids(items)[i] && Ids(moved)[j] == Ids(items)[j];
    }
    assert forall x :: x in moved <==> x in multiset(moved);
    forall i | 0 <= i < |moved| ensures moved[i].key.Some? && moved[i].key.value > 0.0 {
      assert moved[i] in multiset(placed);
      var p :| 0 <= p < |placed| && placed[p] == moved[i];
    }
    forall i, j | 0 <= i < j < |moved| ensures KeyOf(moved[i]) != KeyOf(moved[j]) {
      assert moved[i] in multiset(placed) && moved[j] in multiset(placed);
      var p :| 0 <= p < |placed| && placed[p] == moved[i];
      var q :| 0 <= q < |placed| && placed[q] == moved[j];
      assert p != q;
    }
  }

  // ---- binary64 ----

  /** x * 2^n. */
  function Doubled(x: real, n: nat): real
    decreases n
  {
    if n == 0 then x else Doubled(2.0 * x, n - 1)
  }

  /** c * 2^n. */
  function Shifted(c: nat, n: nat): nat
    decreases n
  {
    if n == 0 then c else Shifted(2 * c, n - 1)
  }

  /** x is m * 2^(b - a) for an integer m of at most 53 bits, well below overflow (section 6.1.6.1 of ECMA-262). */
  ghost predicate Representable(x: real) {
    exists m: int, a: nat, b: nat :: Scaled(x, m, a, b)
  }

  ghost predicate Scaled(x: real, m: int, a: nat, b: nat) {
    -(Shifted(1, 53) as int) <= m <= Shifted(1, 53) && a <= 1074 && b <= 970 && Doubled(x, a) == Doubled(m as real, b)
  }

  /** Rounding leaves a representable number as it is. */
  ghost predicate Rounds(fl: Rounding) { forall x :: Representable(x) ==> ExactOn(fl, x) }

  /** x is n steps of 1024 / 2^k. */
  ghost predicate OnGrid(x: real, k: nat, n: int) { Doubled(x, k) == n as real * 1024.0 }

  lemma {:induction false} DoubledAdds(x: real, y: real, n: nat)
    ensures Doubled(x + y, n) == Doubled(x, n) + Doubled(y, n)
    decreases n
  {
    if n > 0 { DoubledAdds(2.0 * x, 2.0 * y, n - 1); }
  }

  lemma {:induction false} DoubledSign(x: real, n: nat)
    ensures Doubled(x, n) > 0.0 <==> x > 0.0
    ensures Doubled(x, n) == 0.0 <==> x == 0.0
    decreases n
  {
    if n > 0 { DoubledSign(2.0 * x, n - 1); }
  }

  /** Doubling once more, first or last. */
  lemma {:induction false} DoubledLast(x: real, n: nat)
    ensures Doubled(x, n + 1) == 2.0 * Doubled(x, n)
    decreases n
  {
    if n > 0 { DoubledLast(2.0 * x, n - 1); }
  }

  lemma {:induction false} DoubledWhole(c: nat, n: nat)
    ensures Doubled(c as real, n) == Shifted(c, n) as real
    decreases n
  {
    if n > 0 {
      assert 2.0 * c as real == (2 * c) as real;
      DoubledWhole(2 * c, n - 1);
    }
  }

  lemma {:induction false} ShiftedAdds(a: nat, b: nat, n: nat)
    ensures Shifted(a + b, n) == Shifted(a, n) + Shifted(b, n)
    decreases n
  {
    if n > 0 { ShiftedAdds(2 * a, 2 * b, n - 1); }
  }

  /** A larger number shifted further is no smaller. */
  lemma {:induction false} ShiftedGrows(a: nat, b: nat, j: nat, k: nat)
    requires a <= b && j <= k
    ensures Shifted(a, j) <= Shifted(b, k)
    decreases k
  {
    if j > 0 { ShiftedGrows(2 * a, 2 * b, j - 1, k - 1); }
    else if k > 0 { ShiftedGrows(a, 2 * b, 0, k - 1); }
  }

  lemma {:induction false} TenDoublings(n: int)
    ensures Doubled(n as real, 10) == n as real * 1024.0
  {
    FiveDoublings(n as real);
    FiveDoublings(32.0 * n as real);
    assert Doubled(n as real, 10) == Doubled(32.0 * n as real, 5);
  }

  lemma {:induction false} FiveDoublings(x: real)
    ensures forall n: nat :: n >= 5 ==> Doubled(x, n) == Doubled(32.0 * x, n - 5)
    ensures Doubled(x, 5) == 32.0 * x
  {
    forall n: nat | n >= 5 ensures Doubled(x, n) == Doubled(32.0 * x, n - 5) {
      assert Doubled(x, n) == Doubled(2.0 * x, n - 1) == Doubled(4.0 * x, n - 2) == Doubled(8.0 * x, n - 3);
      assert Doubled(8.0 * x, n - 3) == Doubled(16.0 * x, n - 4) == Doubled(32.0 * x, n - 5);
    }
    assert Doubled(32.0 * x, 0) == 32.0 * x;
  }

  lemma {:induction false} GridRepresentable(x: real, k: nat, n: int)
    requires OnGrid(x, k, n) && 0 <= n <= Shifted(1, 53) && k <= 53
    ensures Representable(x)
  {
    TenDoublings(n);
    assert Scaled(x, n, k, 10);
  }

  lemma {:induction false} GridAdds(x: real, y: real, k: nat, m: int, n: int)
    requires OnGrid(x, k, m) && OnGrid(y, k, n)
    ensures OnGrid(x + y, k, m + n)
  {
    DoubledAdds(x, y, k);
  }

  lemma {:induction false} GridHalves(x: real, k: nat, n: int)
    requires OnGrid(x, k, n)
    ensures OnGrid(x / 2.0, k + 1, n)
  {
    assert 2.0 * (x / 2.0) == x;
  }

  lemma {:induction false} GridFiner(x: real, k: nat, n: int)
    requires OnGrid(x, k, n)
    ensures OnGrid(x, k + 1, 2 * n)
  {
    DoubledLast(x, k);
  }

  /** 2048 is two of the coarsest steps. */
  lemma {:induction false} GridOf2048(k: nat)
    ensures OnGrid(2048.0, k, Shifted(2, k))
    decreases k
  {
    if k > 0 {
      GridOf2048(k - 1);
      GridFiner(2048.0, k - 1, Shifted(2, k - 1));
      ShiftedAdds(2, 2, k - 1);
    }
  }

  /** Each key is a whole number of steps of 1024 / 2^k, and at most 1024 * (bound + k). */
  ghost predicate Within(items: seq<Item>, bound: nat, k: nat) {
    forall i :: 0 <= i < |items| ==> items[i].key.Some? && KeyOn(items[i].key.value, bound, k)
  }

  ghost predicate KeyOn(x: real, bound: nat, k: nat) {
    exists n: int :: 0 < n <= Shifted(bound + k, k) && OnGrid(x, k, n)
  }

  /** The bound that keeps k moves exact: (bound + k) * 2^k is at most 2^53. */
  ghost predicate Room(bound: nat, k: nat) { Shifted(bound + k, k) <= Shifted(1, 53) && k <= 53 }

  lemma {:induction false} NextBound(bound: nat, k: nat)
    ensures Shifted(bound + k + 1, k + 1) == 2 * Shifted(bound + k, k) + Shifted(2, k)
  {
    ShiftedAdds(bound + k, bound + k, k);
    ShiftedAdds(2 * (bound + k), 2, k);
  }

  lemma {:induction false} Finer(x: real, bound: nat, k: nat)
    requires KeyOn(x, bound, k)
    ensures KeyOn(x, bound, k + 1)
  {
    var n: int :| 0 < n <= Shifted(bound + k, k) && OnGrid(x, k, n);
    GridFiner(x, k, n);
    NextBound(bound, k);
  }

  /** The midpoint of two keys on a grid lies on the next finer one, and no step of computing it is rounded. */
  lemma {:induction false} MidpointOnGrid(fl: Rounding, left: real, right: real, bound: nat, k: nat, nl: int, nr: int)
    requires Rounds(fl) && OnGrid(left, k, nl) && OnGrid(right, k, nr) && 0 <= nl && 0 < nr && Room(bound, k + 1)
    requires nl + nr <= Shifted(bound + k + 1, k + 1)
    ensures ExactOn(fl, left + right) && ExactOn(fl, (left + right) / 2.0)
    ensures KeyOn((left + right) / 2.0, bound, k + 1)
  {
    GridAdds(left, right, k, nl, nr);
    GridHalves(left + right, k, nl + nr);
    GridRepresentable(left + right, k, nl + nr);
    GridRepresentable((left + right) / 2.0, k + 1, nl + nr);
  }

  lemma {:induction false} BetweenExact(fl: Rounding, left: real, right: real, bound: nat, k: nat, nl: int)
    requires Rounds(fl) && Room(bound, k + 1)
    requires 0 <= nl <= Shifted(bound + k, k) && OnGrid(left, k, nl) && KeyOn(right, bound, k)
    ensures right > 0.0
    ensures ExactOn(fl, left + right) && ExactOn(fl, (left + right) / 2.0) && KeyOn((left + right) / 2.0, bound, k + 1)
  {
    var nr: int :| 0 < nr <= Shifted(bound + k, k) && OnGrid(right, k, nr);
    NextBound(bound, k);
    DoubledSign(right, k);
    MidpointOnGrid(fl, left, right, bound, k, nl, nr);
  }

  lemma {:induction false} LastExact(fl: Rounding, left: real, bound: nat, k: nat, nl: int)
    requires Rounds(fl) && Room(bound, k + 1) && 0 <= nl <= Shifted(bound + k, k) && OnGrid(left, k, nl)
    ensures var right := left + 2048.0;
      ExactOn(fl, right) && ExactOn(fl, left + right) && ExactOn(fl, (left + right) / 2.0) && KeyOn((left + right) / 2.0, bound, k + 1)
  {
    var nr := nl + Shifted(2, k);
    NextBound(bound, k);
    GridOf2048(k);
    GridAdds(left, 2048.0, k, nl, Shifted(2, k));
    GridRepresentable(left + 2048.0, k, nr);
    DoubledSign(2048.0, k);
    MidpointOnGrid(fl, left, left + 2048.0, bound, k, nl, nr);
  }

  lemma {:induction false} StepExact(fl: Rounding, before: Option<real>, after: Option<real>, bound: nat, k: nat)
    requires Rounds(fl) && Room(bound, k + 1)
    requires before.Some? ==> KeyOn(before.value, bound, k)
    requires after.Some? ==> KeyOn(after.value, bound, k)
    requires before.Some? && after.Some? ==> before.value < after.value
    ensures ExactRank(fl, before, after) && KeyOn(RankBetween(fl, before, after), bound, k + 1)
  {
    var left := if before.Some? then before.value else 0.0;
    ghost var nl: int := 0;
    DoubledSign(0.0, k);
    assert OnGrid(0.0, k, 0);
    if before.Some? { nl :| 0 < nl <= Shifted(bound + k, k) && OnGrid(left, k, nl); }
    if after.Some? {
      BetweenExact(fl, left, after.value, bound, k, nl);
    } else {
      LastExact(fl, left, bound, k, nl);
    }
  }

  lemma {:induction false} OrderWithin(items: seq<Item>, id: string, bound: nat, k: nat)
    requires Keyed(items) && Within(items, bound, k)
    ensures Increasing(Order(items, id)) && Within(Order(items, id), bound, k)
  {
    var order := Order(items, id);
    OthersInOrder(items, id);
    OthersMembers(items, id);
    forall i | 0 <= i < |order| ensures order[i].key.Some? && KeyOn(order[i].key.value, bound, k) {
      assert order[i] in multiset(order);
      assert order[i] in Others(items, id);
      var n :| 0 <= n < |items| && items[n] == order[i];
    }
  }

  lemma {:induction false} OneMove(fl: Rounding, items: seq<Item>, m: Move, bound: nat, k: nat)
    requires Keyed(items) && Within(items, bound, k)
    requires Rounds(fl) && Room(bound, k + 1)
    ensures ExactMove(fl, items, m) && Keyed(Moved(fl, items, m)) && Within(Moved(fl, items, m), bound, k + 1)
  {
    var order, moved := Order(items, m.id), Moved(fl, items, m);
    OrderWithin(items, m.id, bound, k);
    if Resolve(fl, items, m).Ok? {
      StepExact(fl, KeyBefore(order, Slot(order, m.after)), KeyAfter(order, Slot(order, m.after)), bound, k);
      MoveLands(fl, items, m);
    }
    forall i | 0 <= i < |moved| ensures moved[i].key.Some? && KeyOn(moved[i].key.value, bound, k + 1) {
      if moved[i] == items[i] { Finer(items[i].key.value, bound, k); }
    }
  }

  /** The bound for k moves covers every shorter run. */
  lemma {:induction false} RoomShrinks(bound: nat, j: nat, k: nat)
    requires j <= k && Room(bound, k)
    ensures Room(bound, j)
  {
    ShiftedGrows(bound + j, bound + k, j, k);
  }

  /**
   * From keys that are multiples of 1024 up to 1024 * bound, any k moves with (bound + k) * 2^k <= 2^53 compute
   * in binary64 what exact arithmetic computes, so each of them lands where it should.
   */
  lemma {:induction false} MovesAreExact(fl: Rounding, items: seq<Item>, moves: seq<Move>, bound: nat)
    requires Keyed(items) && Within(items, bound, 0) && Rounds(fl)
    requires Room(bound, |moves|)
    ensures AllMoved(fl, items, moves) == AllMoved((x: real) => x, items, moves)
    ensures Keyed(AllMoved(fl, items, moves)) && Within(AllMoved(fl, items, moves), bound, |moves|)
    ensures moves != [] ==> ExactMove(fl, AllMoved(fl, items, moves[..|moves| - 1]), moves[|moves| - 1])
    decreases |moves|
  {
    if moves != [] {
      var n := |moves| - 1;
      var front := moves[..n];
      RoomShrinks(bound, n, |moves|);
      MovesAreExact(fl, items, front, bound);
      LastMove(fl, AllMoved(fl, items, front), moves[n], bound, n);
    }
  }

  lemma {:induction false} LastMove(fl: Rounding, items: seq<Item>, m: Move, bound: nat, k: nat)
    requires Keyed(items) && Within(items, bound, k) && Rounds(fl) && Room(bound, k + 1)
    ensures ExactMove(fl, items, m) && Keyed(Moved(fl, items, m)) && Within(Moved(fl, items, m), bound, k + 1)
    ensures Moved(fl, items, m) == Moved((x: real) => x, items, m)
  {
    OneMove(fl, items, m, bound, k);
    SameRank(fl, items, m);
  }

  lemma {:induction false} SameRank(fl: Rounding, items: seq<Item>, m: Move)
    requires ExactMove(fl, items, m)
    ensures Moved(fl, items, m) == Moved((x: real) => x, items, m)
  {
    if Resolve(fl, items, m).Ok? {
      var order := Order(items, m.id);
      SameNumber(fl, KeyBefore(order, Slot(order, m.after)), KeyAfter(order, Slot(order, m.after)));
    }
  }

  lemma {:induction false} SameNumber(fl: Rounding, before: Option<real>, after: Option<real>)
    requires ExactRank(fl, before, after)
    ensures RankBetween(fl, before, after) == RankBetween((x: real) => x, before, after)
  {
  }
}
