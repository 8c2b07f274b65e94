/** Block commands: what they mean on a list of blocks, and how the server carries them out with order keys. */
module BlockSequence {
  import opened Results
  import opened Ordering
  import opened Distinct
  import opened Json
  import PayloadLimits

  /** A block of the editor: its id, and its JSON. */
  datatype Block = Block(id: string, body: Json)

  /** `after` is empty when the source leaves `afterId` undefined. */
  datatype Command =
    | Insert(block: Block, after: string)
    | Update(block: Block)
    | Delete(id: string)
    | Move(id: string, after: string)

  function Ids(s: seq<Block>): (r: seq<string>)
    ensures |r| == |s| && forall i | 0 <= i < |s| :: r[i] == s[i].id
  {
    seq(|s|, i requires 0 <= i < |s| => s[i].id)
  }

  // ---- the meaning of a command on a list of blocks ----

  function InsertAfter(s: seq<Block>, b: Block, after: string): Result<seq<Block>> {
    var i := IndexOf(Ids(s), after);
    if after == "" then Ok([b] + s)
    else if i < 0 then Err("after block does not exist")
    else Ok(s[..i + 1] + [b] + s[i + 1..])
  }

  function Without(s: seq<Block>, i: nat): seq<Block>
    requires i < |s|
  {
    s[..i] + s[i + 1..]
  }

  function TargetId(c: Command): string {
    match c
    case Insert(b, _) => b.id
    case Update(b) => b.id
    case Delete(id) => id
    case Move(id, _) => id
  }

  /** The operation's payload as it travels. */
  function Payload(c: Command): Json {
    match c
    case Insert(b, after) => Obj(map["type" := Str("block.insert"), "block" := b.body] + AfterField(after))
    case Update(b) => Obj(map["type" := Str("block.update"), "block" := b.body])
    case Delete(id) => Obj(map["type" := Str("block.delete"), "blockId" := Str(id)])
    case Move(id, after) => Obj(map["type" := Str("block.move"), "blockId" := Str(id)] + AfterField(after))
  }

  function AfterField(after: string): Fields { if after == "" then map[] else map["afterId" := Str(after)] }

  /** The payload is within the bounds of every operation, and the id is one that patches can address. */
  predicate Admitted(c: Command) {
    PayloadLimits.Bounded(PayloadLimits.Default, Payload(c)) && GoodId(TargetId(c))
  }

  /** Commands without a block are always within the bounds. */
  lemma {:induction false} BlocklessBounded(c: Command)
    requires c.Delete? || c.Move?
    ensures PayloadLimits.Bounded(PayloadLimits.Default, Payload(c))
  {
    var m := Payload(c).fields;
    assert m.Keys <= {"type", "blockId", "afterId"};
    FewKeys(m.Keys, "type", "blockId", "afterId");
    PayloadLimits.SmallBounded(m);
  }

  lemma {:induction false} FewKeys(keys: set<string>, a: string, b: string, c: string)
    requires keys <= {a, b, c}
    ensures |keys| <= 3
  {
    var x := keys - {a};
    var y := x - {b};
    assert keys == if a in keys then x + {a} else x;
    assert x == if b in x then y + {b} else y;
    assert y == if c in y then {c} else {};
  }

  function ListApply(s: seq<Block>, c: Command): Result<seq<Block>> {
    var i := IndexOf(Ids(s), TargetId(c));
    if TargetId(c) == "" then Err("block id required")
    else match c
      case Insert(b, after) => if i >= 0 then Err("block already exists") else InsertAfter(s, b, after)
      case Update(b) => if i < 0 then Err("block does not exist") else Ok(s[i := b])
      case Delete(_) => if i < 0 then Err("block does not exist") else Ok(Without(s, i))
      case Move(_, after) => if i < 0 then Err("block does not exist") else InsertAfter(Without(s, i), s[i], after)
  }

  function Replay(s: seq<Block>, commands: seq<Command>): Result<seq<Block>>
    decreases |commands|
  {
    if commands == [] then Ok(s)
    else
      var next :- ListApply(s, commands[0]);
      Replay(next, commands[1..])
  }

  lemma {:induction false} ReplayAppend(s: seq<Block>, commands: seq<Command>, c: Command)
    ensures Replay(s, commands + [c])
         == (if Replay(s, commands).Ok? then ListApply(Replay(s, commands).value, c) else Replay(s, commands))
    decreases |commands|
  {
    if commands == [] {
      assert [c][1..] == [];
      assert commands + [c] == [c];
    } else {
      assert (commands + [c])[1..] == commands[1..] + [c];
      var next := ListApply(s, commands[0]);
      if next.Ok? { ReplayAppend(next.value, commands[1..], c); }
    }
  }

  // ---- the server: records with order keys, in any order ----

  datatype Record = Record(id: string, orderKey: real, block: Block)

  function Key(): Record -> real {
    (r: Record) => r.orderKey
  }

  function Ordered(state: seq<Record>): seq<Record> {
    SortBy(state, Key())
  }

  function OtherThan(s: seq<Record>, id: string): seq<Record> {
    if s == [] then [] else (if s[0].id == id then [] else [s[0]]) + OtherThan(s[1..], id)
  }

  function RecordIds(s: seq<Record>): (r: seq<string>)
    ensures |r| == |s| && forall i | 0 <= i < |s| :: r[i] == s[i].id
  {
    seq(|s|, i requires 0 <= i < |s| => s[i].id)
  }

  /** `positionFor`, given the other records in key order. */
  function PositionIn(ordered: seq<Record>, after: string): Option<real> {
    var index := if after == "" then 0 else IndexOf(RecordIds(ordered), after) + 1;
    if after != "" && index == 0 then None
    else
      var left := if index > 0 then ordered[index - 1].orderKey else 0.0;
      var right := if index < |ordered| then ordered[index].orderKey else left + 2048.0;
      Some((left + right) / 2.0)
  }

  function PositionFor(state: seq<Record>, blockId: string, after: string): Option<real> {
    PositionIn(OtherThan(Ordered(state), blockId), after)
  }

  /** `resolve`: the records that its patch is meant to give, or the reason for rejecting the command. */
  function Resolve(state: seq<Record>, c: Command): Result<seq<Record>> {
    var id := TargetId(c);
    var at := IndexOf(RecordIds(state), id);
    if id == "" then Err("block id required")
    else match c
      case Insert(b, after) =>
        if at >= 0 then Err("block already exists")
        else (match PositionFor(state, id, after)
          case None => Err("after block does not exist")
          case Some(key) => Ok(state + [Record(id, key, b)]))
      case Update(b) => if at < 0 then Err("block does not exist") else Ok(state[at := state[at].(block := b)])
      case Delete(_) => if at < 0 then Err("block does not exist") else Ok(OtherThan(state, id))
      case Move(_, after) =>
        if at < 0 then Err("block does not exist")
        else (match PositionFor(state, id, after)
          case None => Err("after block does not exist")
          case Some(key) => Ok(state[at := state[at].(orderKey := key)]))
  }

  /** `resolve` and then the patch applier, which takes an id of bounded length only. */
  function Patched(state: seq<Record>, c: Command): Result<seq<Record>> {
    var next :- Resolve(state, c);
    if GoodId(TargetId(c)) then Ok(next) else Err("canonical patch requires a bounded entity id")
  }

  /** What the server does with a command; an operation whose payload is out of bounds does not get as far as the pack. */
  function ServerApply(state: seq<Record>, c: Command): Result<seq<Record>> {
    if !PayloadLimits.Bounded(PayloadLimits.Default, Payload(c)) then Err("JSON value exceeds its bounds") else Patched(state, c)
  }

  /** A batch up to the first rejection. */
  function ServerReplay(state: seq<Record>, commands: seq<Command>): Result<seq<Record>>
    decreases |commands|
  {
    if commands == [] then Ok(state)
    else
      var next :- ServerApply(state, commands[0]);
      ServerReplay(next, commands[1..])
  }

  /** A batch as the server takes it: a rejected command changes nothing, and those after it still count. */
  function ServerRun(state: seq<Record>, commands: seq<Command>): seq<Record>
    decreases |commands|
  {
    if commands == [] then state
    else
      var next := ServerApply(state, commands[0]);
      ServerRun(if next.Ok? then next.value else state, commands[1..])
  }

  function Blocks(s: seq<Record>): (r: seq<Block>)
    ensures |r| == |s| && forall i | 0 <= i < |s| :: r[i] == s[i].block
  {
    seq(|s|, i requires 0 <= i < |s| => s[i].block)
  }

  /** The document a client sees: the blocks in key order. */
  function View(state: seq<Record>): seq<Block> {
    Blocks(Ordered(state))
  }

  /** `s` is a list of records in key order, with the domain's invariants and usable keys. */
  ghost predicate InOrder(s: seq<Record>) {
    && (forall i, j | 0 <= i < j < |s| :: s[i].orderKey < s[j].orderKey && s[i].id != s[j].id)
    && (forall i | 0 <= i < |s| :: s[i].orderKey > 0.0 && s[i].block.id == s[i].id && s[i].id != "")
  }

  /** Unique ids, records named after their blocks, distinct positive keys. */
  ghost predicate Valid(state: seq<Record>) {
    exists s :: InOrder(s) && multiset(s) == multiset(state)
  }

  lemma {:induction false} ValidOrdered(state: seq<Record>, s: seq<Record>)
    requires InOrder(s) && multiset(s) == multiset(state)
    ensures Ordered(state) == s && Valid(state)
    ensures View(state) == Blocks(s) && Ids(View(state)) == RecordIds(s)
  {
    assert StrictlyAscending(s, Key());
    SortUnique(state, Key(), s);
  }

  // ---- one server step carries out one list command ----

  lemma {:induction false} OtherThanMultiset(s: seq<Record>, id: string, r: Record)
    ensures multiset(OtherThan(s, id))[r] == if r.id == id then 0 else multiset(s)[r]
  {
    if s != [] {
      OtherThanMultiset(s[1..], id, r);
      assert s == [s[0]] + s[1..];
    }
  }

  lemma {:induction false} OtherThanAbsent(s: seq<Record>, id: string)
    requires forall i | 0 <= i < |s| :: s[i].id != id
    ensures OtherThan(s, id) == s
  {
    if s != [] {
      OtherThanAbsent(s[1..], id);
      assert s == [s[0]] + s[1..];
    }
  }

  lemma {:induction false} OtherThanAppend(a: seq<Record>, b: seq<Record>, id: string)
    ensures OtherThan(a + b, id) == OtherThan(a, id) + OtherThan(b, id)
  {
    if a == [] {
      assert a + b == b;
    } else {
      var x := if a[0].id == id then [] else [a[0]];
      assert a + b == [a[0]] + (a[1..] + b);
      OtherThanCons(a[0], a[1..] + b, id);
      OtherThanAppend(a[1..], b, id);
      Regrouped(x, OtherThan(a[1..], id), OtherThan(b, id));
    }
  }

  lemma {:induction false} Regrouped(x: seq<Record>, y: seq<Record>, z: seq<Record>)
    ensures x + (y + z) == (x + y) + z
  {
  }

  lemma {:induction false} OtherThanCons(r: Record, b: seq<Record>, id: string)
    ensures OtherThan([r] + b, id) == (if r.id == id then [] else [r]) + OtherThan(b, id)
  {
    assert ([r] + b)[1..] == b;
  }

  lemma {:induction false} OtherThanBetween(a: seq<Record>, r: Record, b: seq<Record>)
    requires forall i | 0 <= i < |a| :: a[i].id != r.id
    requires forall i | 0 <= i < |b| :: b[i].id != r.id
    ensures OtherThan(a + ([r] + b), r.id) == a + b
  {
    OtherThanAppend(a, [r] + b, r.id);
    OtherThanAbsent(a, r.id);
    OtherThanAbsent(b, r.id);
    OtherThanCons(r, b, r.id);
    var tail := OtherThan([r] + b, r.id);
    assert tail == [] + b && [] + b == b;
  }

  lemma {:induction false} OtherThanAt(s: seq<Record>, i: nat)
    requires InOrder(s) && i < |s|
    ensures OtherThan(s, s[i].id) == s[..i] + s[i + 1..]
  {
    assert s == s[..i] + ([s[i]] + s[i + 1..]);
    OtherThanBetween(s[..i], s[i], s[i + 1..]);
  }

  lemma {:induction false} MultisetIn(a: seq<Record>, b: seq<Record>, r: Record)
    requires multiset(a) == multiset(b) && r in a
    ensures r in b
  {
    assert r in multiset(a);
  }

  lemma {:induction false} SameIds(state: seq<Record>, s: seq<Record>, id: string)
    requires multiset(s) == multiset(state)
    ensures id in RecordIds(state) <==> id in RecordIds(s)
  {
    if id in RecordIds(state) {
      var i := IndexOf(RecordIds(state), id);
      MultisetIn(state, s, state[i]);
      var j :| 0 <= j < |s| && s[j] == state[i];
      assert RecordIds(s)[j] == id;
    }
    if id in RecordIds(s) {
      var i := IndexOf(RecordIds(s), id);
      MultisetIn(s, state, s[i]);
      var j :| 0 <= j < |state| && state[j] == s[i];
      assert RecordIds(state)[j] == id;
    }
  }

  /** The record that carries an id is the same one in the state and in its sorted list. */
  lemma {:induction false} SameRecord(state: seq<Record>, s: seq<Record>, id: string)
    requires InOrder(s) && multiset(s) == multiset(state) && id in RecordIds(s)
    ensures id in RecordIds(state)
    ensures state[IndexOf(RecordIds(state), id)] == s[IndexOf(RecordIds(s), id)]
  {
    SameIds(state, s, id);
    var r := state[IndexOf(RecordIds(state), id)];
    MultisetIn(state, s, r);
    var j :| 0 <= j < |s| && s[j] == r;
    assert RecordIds(s)[j] == id;
    IndexOfAt(RecordIds(s), j);
  }

  /** The gap in front of position `p`: its lower key, its upper key, and the key the server puts between. */
  function GapLeft(s: seq<Record>, p: nat): real
    requires p <= |s|
  {
    if p > 0 then s[p - 1].orderKey else 0.0
  }

  function GapKey(s: seq<Record>, p: nat): real
    requires p <= |s|
  {
    (GapLeft(s, p) + (if p < |s| then s[p].orderKey else GapLeft(s, p) + 2048.0)) / 2.0
  }

  /** Placing a record with the midpoint key of a gap keeps the list in order. */
  lemma {:induction false} PlaceInGap(s: seq<Record>, p: nat, r: Record)
    requires InOrder(s) && p <= |s| && r.orderKey == GapKey(s, p)
    requires r.id != "" && r.block.id == r.id && r.id !in RecordIds(s)
    ensures InOrder(s[..p] + [r] + s[p..])
  {
    var t := s[..p] + [r] + s[p..];
    assert GapLeft(s, p) >= 0.0 && (p < |s| ==> GapLeft(s, p) < s[p].orderKey);
    assert r.orderKey > GapLeft(s, p) && (p < |s| ==> r.orderKey < s[p].orderKey);
    forall i | 0 <= i < |s| ensures s[i].id != r.id && (i < p ==> s[i].orderKey < r.orderKey) && (i >= p ==> r.orderKey < s[i].orderKey) {
      assert RecordIds(s)[i] != r.id;
    }
    forall i, j | 0 <= i < j < |t| ensures t[i].orderKey < t[j].orderKey && t[i].id != t[j].id {
      Spliced(s, p, r, i);
      Spliced(s, p, r, j);
    }
    forall i | 0 <= i < |t| ensures t[i].orderKey > 0.0 && t[i].block.id == t[i].id && t[i].id != "" {
      Spliced(s, p, r, i);
    }
  }

  lemma {:induction false} Spliced(s: seq<Record>, p: nat, r: Record, i: nat)
    requires p <= |s| && i <= |s|
    ensures (s[..p] + [r] + s[p..])[i] == if i < p then s[i] else if i == p then r else s[i - 1]
  {
  }

  lemma {:induction false} InOrderWithout(s: seq<Record>, i: nat)
    requires InOrder(s) && i < |s|
    ensures InOrder(s[..i] + s[i + 1..])
    ensures s[i].id !in RecordIds(s[..i] + s[i + 1..])
  {
    var t := s[..i] + s[i + 1..];
    forall a | 0 <= a < |t| ensures t[a] == s[if a < i then a else a + 1] && t[a].id != s[i].id { }
    forall a, b | 0 <= a < b < |t| ensures t[a].orderKey < t[b].orderKey && t[a].id != t[b].id {
      var a', b' := if a < i then a else a + 1, if b < i then b else b + 1;
      assert t[a] == s[a'] && t[b] == s[b'];
    }
  }

  lemma {:induction false} BlocksWithout(s: seq<Record>, i: nat)
    requires i < |s|
    ensures Blocks(s[..i] + s[i + 1..]) == Without(Blocks(s), i)
  {
  }

  lemma {:induction false} BlocksInsert(s: seq<Record>, p: nat, r: Record)
    requires p <= |s|
    ensures Blocks(s[..p] + [r] + s[p..]) == Blocks(s)[..p] + [r.block] + Blocks(s)[p..]
  {
  }

  /** Where `positionFor` looks and where the list semantics inserts are the same gap. */
  ghost predicate Places(s: seq<Record>, after: string, id: string, b: Block, p: nat)
    requires p <= |s|
  {
    && PositionIn(s, after) == Some(GapKey(s, p))
    && InsertAfter(Blocks(s), b, after) == Ok(Blocks(s[..p] + [Record(id, GapKey(s, p), b)] + s[p..]))
  }

  lemma {:induction false} PlacesAt(s: seq<Record>, after: string, id: string, b: Block)
    requires InOrder(s) && (after == "" || after in RecordIds(s))
    ensures Places(s, after, id, b, if after == "" then 0 else IndexOf(RecordIds(s), after) + 1)
  {
    var p := if after == "" then 0 else IndexOf(RecordIds(s), after) + 1;
    PositionAt(s, after);
    InsertAfterSplices(Blocks(s), after, b);
    assert RecordIds(s) == Ids(Blocks(s));
    BlocksInsert(s, p, Record(id, GapKey(s, p), b));
  }

  lemma {:induction false} PositionAt(s: seq<Record>, after: string)
    requires after == "" || after in RecordIds(s)
    ensures PositionIn(s, after) == Some(GapKey(s, if after == "" then 0 else IndexOf(RecordIds(s), after) + 1))
  {
  }

  lemma {:induction false} InsertAfterSplices(s: seq<Block>, after: string, b: Block)
    requires after == "" || after in Ids(s)
    ensures var p := if after == "" then 0 else IndexOf(Ids(s), after) + 1;
      InsertAfter(s, b, after) == Ok(s[..p] + [b] + s[p..])
  {
    FrontSplice(s, b);
  }

  lemma {:induction false} FrontSplice(s: seq<Block>, b: Block)
    ensures s[..0] + [b] + s[0..] == [b] + s
  {
  }

  lemma {:induction false} PlaceMatches(s: seq<Record>, after: string, id: string, b: Block)
    requires InOrder(s)
    ensures PositionIn(s, after).None? <==> InsertAfter(Blocks(s), b, after).Err?
    ensures PositionIn(s, after).Some? ==> exists p | 0 <= p <= |s| :: Places(s, after, id, b, p)
  {
    assert RecordIds(s) == Ids(Blocks(s));
    if after == "" || after in RecordIds(s) {
      PlacesAt(s, after, id, b);
    }
  }

  /** `resolve` refines the list command: it rejects the same ones, and the visible document changes as the list does. */
  lemma {:induction false} ResolveStep(state: seq<Record>, c: Command)
    requires Valid(state)
    ensures Resolve(state, c).Ok? <==> ListApply(View(state), c).Ok?
    ensures Resolve(state, c).Ok? ==>
      Valid(Resolve(state, c).value) && View(Resolve(state, c).value) == ListApply(View(state), c).value
  {
    var s :| InOrder(s) && multiset(s) == multiset(state);
    ValidOrdered(state, s);
    var id := TargetId(c);
    SameIds(state, s, id);
    if id != "" {
      match c
      case Insert(b, after) => if id !in RecordIds(s) { InsertStep(state, s, b, after); }
      case Update(b) => if id in RecordIds(s) { UpdateStep(state, s, b); }
      case Delete(_) => if id in RecordIds(s) { DeleteStep(state, s, id); }
      case Move(_, after) => if id in RecordIds(s) { MoveStep(state, s, id, after); }
    }
  }

  /**
   * One server step refines the list command: it is rejected exactly where the list rejects it or it is not admitted;
   * otherwise it keeps the domain's invariants and usable keys, and shows what the list shows.
   */
  lemma {:induction false} ServerStep(state: seq<Record>, c: Command)
    requires Valid(state)
    ensures ServerApply(state, c).Ok? <==> ListApply(View(state), c).Ok? && Admitted(c)
    ensures ServerApply(state, c).Ok? ==>
      Valid(ServerApply(state, c).value) && View(ServerApply(state, c).value) == ListApply(View(state), c).value
  {
    ResolveStep(state, c);
  }

  /** A record placed in its gap, in a state that otherwise holds the records of `s`. */
  lemma {:induction false} PlaceStep(s: seq<Record>, p: nat, r: Record, state: seq<Record>)
    requires InOrder(s) && p <= |s| && r.orderKey == GapKey(s, p)
    requires r.id != "" && r.block.id == r.id && r.id !in RecordIds(s)
    requires multiset(state) == multiset(s) + multiset{r}
    ensures Valid(state) && View(state) == Blocks(s[..p] + [r] + s[p..])
  {
    PlaceInGap(s, p, r);
    assert s == s[..p] + s[p..];
    ValidOrdered(state, s[..p] + [r] + s[p..]);
  }

  lemma {:induction false} InsertPosition(state: seq<Record>, s: seq<Record>, id: string, after: string)
    requires InOrder(s) && multiset(s) == multiset(state) && id !in RecordIds(s)
    ensures PositionFor(state, id, after) == PositionIn(s, after)
  {
    ValidOrdered(state, s);
    forall i | 0 <= i < |s| ensures s[i].id != id { assert RecordIds(s)[i] == s[i].id; }
    OtherThanAbsent(s, id);
  }

  lemma {:induction false} InsertStep(state: seq<Record>, s: seq<Record>, b: Block, after: string)
    requires InOrder(s) && multiset(s) == multiset(state) && b.id != "" && b.id !in RecordIds(s)
    ensures Resolve(state, Insert(b, after)).Ok? <==> InsertAfter(Blocks(s), b, after).Ok?
    ensures Resolve(state, Insert(b, after)).Ok? ==>
      var next := Resolve(state, Insert(b, after)).value;
      Valid(next) && View(next) == InsertAfter(Blocks(s), b, after).value
  {
    SameIds(state, s, b.id);
    InsertPosition(state, s, b.id, after);
    var position := PositionFor(state, b.id, after);
    PlaceMatches(s, after, b.id, b);
    if position.Some? {
      var p :| 0 <= p <= |s| && Places(s, after, b.id, b, p);
      var r := Record(b.id, GapKey(s, p), b);
      assert multiset(state + [r]) == multiset(state) + multiset{r};
      PlaceStep(s, p, r, state + [r]);
    }
  }

  lemma {:induction false} DeleteStep(state: seq<Record>, s: seq<Record>, id: string)
    requires InOrder(s) && multiset(s) == multiset(state) && id != "" && id in RecordIds(s)
    ensures var next := OtherThan(state, id);
      Valid(next) && View(next) == Without(Blocks(s), IndexOf(RecordIds(s), id))
  {
    var i := IndexOf(RecordIds(s), id);
    InOrderWithout(s, i);
    BlocksWithout(s, i);
    OtherThanAt(s, i);
    forall r ensures multiset(OtherThan(state, id))[r] == multiset(OtherThan(s, id))[r] {
      OtherThanMultiset(state, id, r);
      OtherThanMultiset(s, id, r);
    }
    ValidOrdered(OtherThan(state, id), s[..i] + s[i + 1..]);
  }

  lemma {:induction false} ReplaceMultiset(a: seq<Record>, i: nat, r: Record)
    requires i < |a|
    ensures multiset(a[i := r]) == multiset(a) - multiset{a[i]} + multiset{r}
  {
  }

  lemma {:induction false} UpdateStep(state: seq<Record>, s: seq<Record>, b: Block)
    requires InOrder(s) && multiset(s) == multiset(state) && b.id != "" && b.id in RecordIds(s)
    ensures b.id in RecordIds(state)
    ensures var at := IndexOf(RecordIds(state), b.id);
      var next := state[at := state[at].(block := b)];
      Valid(next) && View(next) == Blocks(s)[IndexOf(RecordIds(s), b.id) := b]
  {
    SameRecord(state, s, b.id);
    var at, i := IndexOf(RecordIds(state), b.id), IndexOf(RecordIds(s), b.id);
    var r := s[i].(block := b);
    var t := s[i := r];
    ReplaceMultiset(state, at, r);
    ReplaceMultiset(s, i, r);
    assert RecordIds(t) == RecordIds(s);
    assert Blocks(t) == Blocks(s)[i := b];
    ValidOrdered(state[at := r], t);
  }

  lemma {:induction false} MoveStep(state: seq<Record>, s: seq<Record>, id: string, after: string)
    requires InOrder(s) && multiset(s) == multiset(state) && id != "" && id in RecordIds(s)
    ensures var i := IndexOf(RecordIds(s), id);
      var moved := InsertAfter(Without(Blocks(s), i), Blocks(s)[i], after);
      var next := Resolve(state, Move(id, after));
      (next.Ok? <==> moved.Ok?) && (next.Ok? ==> Valid(next.value) && View(next.value) == moved.value)
  {
    SameRecord(state, s, id);
    var at, i := IndexOf(RecordIds(state), id), IndexOf(RecordIds(s), id);
    var rest, b := s[..i] + s[i + 1..], s[i].block;
    InOrderWithout(s, i);
    BlocksWithout(s, i);
    MovePosition(state, s, i, after);
    PlaceMatches(rest, after, id, b);
    if PositionIn(rest, after).Some? {
      var p :| 0 <= p <= |rest| && Places(rest, after, id, b, p);
      var r := Record(id, GapKey(rest, p), b);
      assert state[at].(orderKey := r.orderKey) == r;
      MovedHolds(state, at, s, i, r);
      PlaceStep(rest, p, r, state[at := r]);
    }
  }

  lemma {:induction false} MovePosition(state: seq<Record>, s: seq<Record>, i: nat, after: string)
    requires InOrder(s) && multiset(s) == multiset(state) && i < |s|
    ensures PositionFor(state, s[i].id, after) == PositionIn(s[..i] + s[i + 1..], after)
  {
    ValidOrdered(state, s);
    OtherThanAt(s, i);
  }

  lemma {:induction false} MovedHolds(state: seq<Record>, at: nat, s: seq<Record>, i: nat, r: Record)
    requires multiset(s) == multiset(state) && at < |state| && i < |s| && state[at] == s[i]
    ensures multiset(state[at := r]) == multiset(s[..i] + s[i + 1..]) + multiset{r}
  {
    ReplaceMultiset(state, at, r);
    RestMultiset(s, i);
  }

  lemma {:induction false} RestMultiset(s: seq<Record>, i: nat)
    requires i < |s|
    ensures multiset(s[..i] + s[i + 1..]) == multiset(s) - multiset{s[i]}
    ensures multiset(s)[s[i]] > 0
  {
    assert s == s[..i] + [s[i]] + s[i + 1..];
  }

  ghost predicate AllAdmitted(commands: seq<Command>) {
    forall c | c in commands :: Admitted(c)
  }

  /** A whole batch of commands: the server rejects none if and only if the list rejects none and all are admitted. */
  lemma {:induction false} ServerReplays(state: seq<Record>, commands: seq<Command>)
    requires Valid(state)
    ensures ServerReplay(state, commands).Ok? <==> Replay(View(state), commands).Ok? && AllAdmitted(commands)
    ensures ServerReplay(state, commands).Ok? ==>
      && Valid(ServerReplay(state, commands).value)
      && View(ServerReplay(state, commands).value) == Replay(View(state), commands).value
      && ServerRun(state, commands) == ServerReplay(state, commands).value
    decreases |commands|
  {
    if commands != [] {
      ServerStep(state, commands[0]);
      var next := ServerApply(state, commands[0]);
      assert commands == [commands[0]] + commands[1..];
      if next.Ok? { ServerReplays(next.value, commands[1..]); }
    }
  }

  // ---- what a rejected command keeps out ----

  predicate Carries(c: Command, b: Block) { (c.Insert? || c.Update?) && c.block == b }

  lemma {:induction false} ResolvedBlocks(state: seq<Record>, c: Command)
    requires Resolve(state, c).Ok?
    ensures forall r | r in Resolve(state, c).value :: Carries(c, r.block) || exists q :: q in state && q.block == r.block
  {
    var at := IndexOf(RecordIds(state), TargetId(c));
    if c.Delete? { OtherThanMembers(state, TargetId(c)); }
    forall r | r in Resolve(state, c).value ensures Carries(c, r.block) || exists q :: q in state && q.block == r.block {
      if c.Move? { assert r in state || r.block == state[at].block; }
    }
  }

  /** A block that only rejected commands carry never gets into the state. */
  lemma {:induction false} StaysOut(state: seq<Record>, commands: seq<Command>, b: Block)
    requires (forall r | r in state :: r.block != b) && forall c | c in commands && Carries(c, b) :: !Admitted(c)
    ensures forall r | r in ServerRun(state, commands) :: r.block != b
    decreases |commands|
  {
    if commands != [] {
      assert commands == [commands[0]] + commands[1..];
      var next := ServerApply(state, commands[0]);
      if next.Ok? { ResolvedBlocks(state, commands[0]); }
      StaysOut(if next.Ok? then next.value else state, commands[1..], b);
    }
  }

  lemma {:induction false} ViewHolds(state: seq<Record>)
    requires Valid(state)
    ensures forall b :: b in View(state) <==> exists r :: r in state && r.block == b
  {
    var s :| InOrder(s) && multiset(s) == multiset(state);
    ValidOrdered(state, s);
    forall r ensures r in s <==> r in state {
      if r in s { MultisetIn(s, state, r); }
      if r in state { MultisetIn(state, s, r); }
    }
    forall b ensures b in Blocks(s) <==> exists r: Record :: r in s && r.block == b {
      if b in Blocks(s) { var i :| 0 <= i < |s| && Blocks(s)[i] == b; assert s[i] in s; }
      if r: Record :| r in s && r.block == b { var i :| 0 <= i < |s| && s[i] == r; assert Blocks(s)[i] == b; }
    }
  }

  // ---- ids that patches can address ----

  predicate Addressable(state: seq<Record>) {
    forall i | 0 <= i < |state| :: GoodId(state[i].id)
  }

  lemma {:induction false} OtherThanMembers(s: seq<Record>, id: string)
    ensures forall r | r in OtherThan(s, id) :: r in s
  {
    if s != [] { OtherThanMembers(s[1..], id); }
  }

  /** Whatever command arrives, ids stay unique and addressable. */
  lemma {:induction false} StepStaysAddressable(state: seq<Record>, c: Command)
    requires Valid(state) && Addressable(state) && ServerApply(state, c).Ok?
    ensures Valid(ServerApply(state, c).value) && Addressable(ServerApply(state, c).value)
  {
    ServerStep(state, c);
    var next := ServerApply(state, c).value;
    SameOrNamed(state, c);
    forall i | 0 <= i < |next| ensures GoodId(next[i].id) { assert next[i] in next; }
  }

  /** A command leaves records with ids that were there, or its own. */
  lemma {:induction false} SameOrNamed(state: seq<Record>, c: Command)
    requires Resolve(state, c).Ok?
    ensures forall r | r in Resolve(state, c).value :: r.id == TargetId(c) || r in state
  {
    if c.Delete? { OtherThanMembers(state, TargetId(c)); }
  }

  /** Any run of commands, rejected ones included, leaves a state with the pack's invariants whose ids can be addressed. */
  lemma {:induction false} RunsStayAddressable(state: seq<Record>, commands: seq<Command>)
    requires Valid(state) && Addressable(state)
    ensures Valid(ServerRun(state, commands)) && Addressable(ServerRun(state, commands))
    decreases |commands|
  {
    if commands != [] {
      var next := ServerApply(state, commands[0]);
      if next.Ok? { StepStaysAddressable(state, commands[0]); }
      RunsStayAddressable(if next.Ok? then next.value else state, commands[1..]);
    }
  }

  /** What such a state shows has addressable ids only. */
  lemma {:induction false} ViewIsAddressable(state: seq<Record>)
    requires Valid(state) && Addressable(state)
    ensures forall id | id in Ids(View(state)) :: GoodId(id)
  {
    var s :| InOrder(s) && multiset(s) == multiset(state);
    ValidOrdered(state, s);
    forall id | id in Ids(View(state)) ensures GoodId(id) {
      SameIds(state, s, id);
      assert RecordIds(state)[IndexOf(RecordIds(state), id)] == id;
    }
  }

  function InitialBlocks(welcome: Json, intro: Json, notes: Json): seq<Record> {
    [Record("welcome", 1024.0, Block("welcome", welcome)), Record("intro", 2048.0, Block("intro", intro)), Record("notes", 3072.0, Block("notes", notes))]
  }

  /** Where every document begins. */
  lemma {:induction false} InitialIsAddressable(welcome: Json, intro: Json, notes: Json)
    ensures Valid(InitialBlocks(welcome, intro, notes)) && Addressable(InitialBlocks(welcome, intro, notes))
  {
    var s := InitialBlocks(welcome, intro, notes);
    assert "welcome"[0] != "intro"[0] && "welcome"[0] != "notes"[0] && "intro"[0] != "notes"[0];
    assert InOrder(s) && multiset(s) == multiset(s);
  }
}
