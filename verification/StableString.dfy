/** The canonical printer behind operation fingerprints: equal texts exactly for equal values. */
module StableString {
  import opened Json
  import opened Strings

  // ---- JSON.stringify of a string (section 25.5.2.3 of ECMA-262) ----

  function HexDigit(n: nat): char
    requires n < 16
  {
    "0123456789abcdef"[n]
  }

  function Code(c: char): string {
    if c == '\"' then "\\\""
    else if c == '\\' then "\\\\"
    else if c as int == 8 then "\\b"
    else if c as int == 9 then "\\t"
    else if c as int == 10 then "\\n"
    else if c as int == 12 then "\\f"
    else if c as int == 13 then "\\r"
    else if c as int < 32 then "\\u00" + [HexDigit(c as int / 16), HexDigit(c as int % 16)]
    else [c]
  }

  function Codes(s: string): string {
    if s == "" then "\"" else Code(s[0]) + Codes(s[1..])
  }

  function Quote(s: string): string {
    "\"" + Codes(s)
  }

  lemma {:induction false} HexDigitInjective(a: nat, b: nat)
    requires a < 16 && b < 16 && HexDigit(a) == HexDigit(b)
    ensures a == b
  {
  }

  /** The code of a character tells which character it is and where it ends. */
  lemma {:induction false} CodeCancel(c: char, d: char, x: string, y: string)
    requires Code(c) + x == Code(d) + y
    ensures c == d && x == y
  {
    var p, q := Code(c), Code(d);
    assert (p + x)[0] == p[0] && (q + y)[0] == q[0];
    if p[0] == '\\' {
      assert (p + x)[1] == p[1] && (q + y)[1] == q[1];
      if p[1] == 'u' {
        assert (p + x)[4] == p[4] && (q + y)[4] == q[4];
        assert (p + x)[5] == p[5] && (q + y)[5] == q[5];
        HexDigitInjective(c as int / 16, d as int / 16);
        HexDigitInjective(c as int % 16, d as int % 16);
        assert c as int == d as int;
      }
    }
    assert c == d;
    assert (p + x)[|p|..] == x && (q + y)[|q|..] == y;
  }

  lemma {:induction false} CodeFirst(c: char)
    ensures Code(c) != "" && Code(c)[0] != '\"'
  {
  }

  lemma {:induction false} CodesSplit(s: string, x: string)
    ensures s == "" ==> Codes(s) + x == "\"" + x
    ensures s != "" ==> Codes(s) + x == Code(s[0]) + (Codes(s[1..]) + x)
    ensures Codes(s) + x != "" && ((Codes(s) + x)[0] == '\"' <==> s == "")
  {
    if s != "" { CodeFirst(s[0]); }
  }

  lemma {:induction false} CodesCancel(s: string, t: string, x: string, y: string)
    requires Codes(s) + x == Codes(t) + y
    ensures s == t && x == y
    decreases |s|
  {
    CodesSplit(s, x);
    CodesSplit(t, y);
    if s == "" && t == "" {
      assert ("\"" + x)[1..] == x && ("\"" + y)[1..] == y;
    } else if s != "" && t != "" {
      CodeCancel(s[0], t[0], Codes(s[1..]) + x, Codes(t[1..]) + y);
      CodesCancel(s[1..], t[1..], x, y);
      assert s == [s[0]] + s[1..] && t == [t[0]] + t[1..];
    }
  }

  lemma {:induction false} QuoteCancel(s: string, t: string, x: string, y: string)
    requires Quote(s) + x == Quote(t) + y
    ensures s == t && x == y
  {
    QuoteTail(s, x);
    QuoteTail(t, y);
    CodesCancel(s, t, x, y);
  }

  lemma {:induction false} QuoteTail(s: string, x: string)
    ensures Quote(s) + x != "" && (Quote(s) + x)[1..] == Codes(s) + x
  {
  }

  // ---- numbers ----

  const NUMBER_CHARS := "0123456789-+.e"

  predicate NumberText(s: string) {
    s != "" && forall c | c in s :: c in NUMBER_CHARS
  }

  /** How the engine prints the numbers it can hold: digits only, no two numbers alike. */
  datatype Numbers = Numbers(text: real -> string, held: real -> bool) {
    ghost predicate Valid() {
      && (forall x :: held(x) ==> NumberText(text(x)))
      && (forall x, y :: held(x) && held(y) && text(x) == text(y) ==> x == y)
    }
  }

  ghost predicate Held(v: Json, numbers: Numbers) {
    match v
    case Num(x) => numbers.held(x)
    case Arr(items) => forall i | 0 <= i < |items| :: Held(items[i], numbers)
    case Obj(m) => forall k | k in m :: Held(m[k], numbers)
    case _ => true
  }

  /** What can follow a value in the text: nothing, a comma, or a closing bracket. */
  predicate Delimiter(s: string) {
    s == "" || s[0] in ",]}"
  }

  lemma {:induction false} Head(p: string, x: string)
    ensures p != "" ==> (p + x)[0] == p[0]
  {
  }

  lemma {:induction false} NumberHead(a: string, x: string)
    requires (forall c | c in a :: c in NUMBER_CHARS) && Delimiter(x)
    ensures Delimiter(a + x) <==> a == ""
  {
    if a != "" {
      assert (a + x)[0] == a[0] && a[0] in a;
    } else {
      assert a + x == x;
    }
  }

  lemma {:induction false} NumberTextCancel(a: string, b: string, x: string, y: string)
    requires (forall c | c in a :: c in NUMBER_CHARS) && (forall c | c in b :: c in NUMBER_CHARS)
    requires Delimiter(x) && Delimiter(y) && a + x == b + y
    ensures a == b && x == y
  {
    if a == "" || b == "" {
      NumberHead(a, x);
      NumberHead(b, y);
      assert "" + x == x && "" + y == y;
    } else {
      assert (a + x)[0] == a[0] && (b + y)[0] == b[0];
      assert (a + x)[1..] == a[1..] + x && (b + y)[1..] == b[1..] + y;
      NumberTextCancel(a[1..], b[1..], x, y);
      assert a == [a[0]] + a[1..] && b == [b[0]] + b[1..];
    }
  }

  // ---- stableStringify ----

  function Print(v: Json, numbers: Numbers): string
    decreases v
  {
    match v
    case Null => "null"
    case Bool(b) => if b then "true" else "false"
    case Num(x) => numbers.text(x)
    case Str(s) => Quote(s)
    case Arr(items) => "[" + PrintItems(items, numbers) + "]"
    case Obj(m) => "{" + PrintMembers(m, SortedKeys(m.Keys), numbers) + "}"
  }

  function PrintItems(items: seq<Json>, numbers: Numbers): string
    decreases items
  {
    if items == [] then ""
    else Print(items[0], numbers) + (if |items| == 1 then "" else "," + PrintItems(items[1..], numbers))
  }

  function PrintMembers(m: Fields, keys: seq<string>, numbers: Numbers): string
    requires forall k | k in keys :: k in m
    decreases Obj(m), |keys|
  {
    if keys == [] then ""
    else Quote(keys[0]) + ":" + Print(m[keys[0]], numbers)
         + (if |keys| == 1 then "" else "," + PrintMembers(m, keys[1..], numbers))
  }

  // ---- the text determines the value ----

  /** The first character of a text tells which kind of value it starts. */
  function Kind(v: Json): string {
    match v
    case Null => "n"
    case Bool(b) => if b then "t" else "f"
    case Num(_) => NUMBER_CHARS
    case Str(_) => "\""
    case Arr(_) => "["
    case Obj(_) => "{"
  }

  lemma {:induction false} PrintKind(v: Json, numbers: Numbers)
    requires numbers.Valid() && Held(v, numbers)
    ensures Print(v, numbers) != "" && Print(v, numbers)[0] in Kind(v)
  {
  }

  lemma {:induction false} KindOf(v: Json, w: Json, x: string, y: string, numbers: Numbers)
    requires numbers.Valid() && Held(v, numbers) && Held(w, numbers)
    requires Print(v, numbers) + x == Print(w, numbers) + y
    ensures Kind(v) == Kind(w)
  {
    PrintKind(v, numbers);
    PrintKind(w, numbers);
    assert (Print(v, numbers) + x)[0] == Print(v, numbers)[0];
    assert (Print(w, numbers) + y)[0] == Print(w, numbers)[0];
  }

  lemma {:induction false} DropFirst(p: string, q: string, x: string, y: string)
    requires |p| == |q| && p + x == q + y
    ensures p == q && x == y
  {
    assert (p + x)[..|p|] == p && (q + y)[..|q|] == q;
    assert (p + x)[|p|..] == x && (q + y)[|q|..] == y;
  }

  lemma {:induction false} StripOpen(open: string, p: string, q: string, close: string, x: string, y: string)
    requires open + p + close + x == open + q + close + y
    ensures p + (close + x) == q + (close + y)
  {
    assert open + p + close + x == open + (p + (close + x)) && open + q + close + y == open + (q + (close + y));
    DropFirst(open, open, p + (close + x), q + (close + y));
  }

  lemma {:induction false} PrintCancel(v: Json, w: Json, x: string, y: string, numbers: Numbers)
    requires numbers.Valid() && Held(v, numbers) && Held(w, numbers)
    requires Delimiter(x) && Delimiter(y)
    requires Print(v, numbers) + x == Print(w, numbers) + y
    ensures v == w && x == y
    decreases v
  {
    KindOf(v, w, x, y, numbers);
    match v
    case Num(n) => NumberTextCancel(Print(v, numbers), Print(w, numbers), x, y);
    case Str(s) => QuoteCancel(s, w.text, x, y);
    case Arr(items) => ArrCancel(items, w.items, x, y, numbers);
    case Obj(m) => ObjCancel(m, w.fields, x, y, numbers);
    case _ => DropFirst(Print(v, numbers), Print(w, numbers), x, y);
  }

  lemma {:induction false} ArrCancel(vs: seq<Json>, ws: seq<Json>, x: string, y: string, numbers: Numbers)
    requires numbers.Valid() && Held(Arr(vs), numbers) && Held(Arr(ws), numbers)
    requires Print(Arr(vs), numbers) + x == Print(Arr(ws), numbers) + y
    ensures vs == ws && x == y
    decreases Arr(vs), 0
  {
    var i, j := PrintItems(vs, numbers), PrintItems(ws, numbers);
    StripOpen("[", i, j, "]", x, y);
    ItemsCancel(vs, ws, "]" + x, "]" + y, numbers);
    DropFirst("]", "]", x, y);
  }

  lemma {:induction false} ObjCancel(m: Fields, n: Fields, x: string, y: string, numbers: Numbers)
    requires numbers.Valid() && Held(Obj(m), numbers) && Held(Obj(n), numbers)
    requires Print(Obj(m), numbers) + x == Print(Obj(n), numbers) + y
    ensures m == n && x == y
    decreases Obj(m), |SortedKeys(m.Keys)| + 1
  {
    var ks, ls := SortedKeys(m.Keys), SortedKeys(n.Keys);
    var i, j := PrintMembers(m, ks, numbers), PrintMembers(n, ls, numbers);
    StripOpen("{", i, j, "}", x, y);
    MembersCancel(m, ks, n, ls, "}" + x, "}" + y, numbers);
    DropFirst("}", "}", x, y);
    forall k ensures k in m <==> k in n { assert k in m <==> k in ks; }
    assert forall k | k in m :: k in ks;
  }

  lemma {:induction false} ItemsCancel(vs: seq<Json>, ws: seq<Json>, x: string, y: string, numbers: Numbers)
    requires numbers.Valid()
    requires forall i | 0 <= i < |vs| :: Held(vs[i], numbers)
    requires forall i | 0 <= i < |ws| :: Held(ws[i], numbers)
    requires x != "" && y != "" && x[0] == ']' && y[0] == ']'
    requires PrintItems(vs, numbers) + x == PrintItems(ws, numbers) + y
    ensures vs == ws && x == y
    decreases vs
  {
    if vs == [] || ws == [] {
      if vs != [] { FirstOfItems(vs, x, numbers); }
      if ws != [] { FirstOfItems(ws, y, numbers); }
      assert "" + x == x && "" + y == y;
    } else {
      var x', y' := AfterItem(vs, x, numbers), AfterItem(ws, y, numbers);
      ItemsSplit(vs, x, numbers);
      ItemsSplit(ws, y, numbers);
      PrintCancel(vs[0], ws[0], x', y', numbers);
      assert vs == [vs[0]] + vs[1..] && ws == [ws[0]] + ws[1..];
      if |vs| > 1 && |ws| > 1 {
        assert x'[1..] == PrintItems(vs[1..], numbers) + x && y'[1..] == PrintItems(ws[1..], numbers) + y;
        ItemsCancel(vs[1..], ws[1..], x, y, numbers);
      }
    }
  }

  /** What follows the first item. */
  ghost function AfterItem(vs: seq<Json>, x: string, numbers: Numbers): string
    requires vs != []
  {
    if |vs| == 1 then x else "," + (PrintItems(vs[1..], numbers) + x)
  }

  lemma {:induction false} ItemsSplit(vs: seq<Json>, x: string, numbers: Numbers)
    requires vs != []
    ensures PrintItems(vs, numbers) + x == Print(vs[0], numbers) + AfterItem(vs, x, numbers)
  {
  }

  lemma {:induction false} FirstOfItems(vs: seq<Json>, x: string, numbers: Numbers)
    requires numbers.Valid() && vs != [] && Held(vs[0], numbers)
    ensures PrintItems(vs, numbers) != "" && (PrintItems(vs, numbers) + x)[0] != ']'
  {
    PrintKind(vs[0], numbers);
  }

  lemma {:induction false} MembersCancel(m: Fields, ks: seq<string>, n: Fields, ls: seq<string>, x: string, y: string, numbers: Numbers)
    requires numbers.Valid() && Held(Obj(m), numbers) && Held(Obj(n), numbers)
    requires (forall k | k in ks :: k in m) && (forall k | k in ls :: k in n)
    requires x != "" && y != "" && x[0] == '}' && y[0] == '}'
    requires PrintMembers(m, ks, numbers) + x == PrintMembers(n, ls, numbers) + y
    ensures ks == ls && x == y && forall k | k in ks :: m[k] == n[k]
    decreases Obj(m), |ks|
  {
    if ks == [] || ls == [] {
      Head(PrintMembers(m, ks, numbers), x);
      Head(PrintMembers(n, ls, numbers), y);
      assert "" + x == x && "" + y == y;
    } else {
      var x' := if |ks| == 1 then x else "," + (PrintMembers(m, ks[1..], numbers) + x);
      var y' := if |ls| == 1 then y else "," + (PrintMembers(n, ls[1..], numbers) + y);
      var v, w := Print(m[ks[0]], numbers) + x', Print(n[ls[0]], numbers) + y';
      MembersSplit(m, ks, x, numbers);
      MembersSplit(n, ls, y, numbers);
      QuoteCancel(ks[0], ls[0], ":" + v, ":" + w);
      assert (":" + v)[1..] == v && (":" + w)[1..] == w;
      PrintCancel(m[ks[0]], n[ls[0]], x', y', numbers);
      assert ks == [ks[0]] + ks[1..] && ls == [ls[0]] + ls[1..];
      if |ks| > 1 && |ls| > 1 {
        assert x'[1..] == PrintMembers(m, ks[1..], numbers) + x && y'[1..] == PrintMembers(n, ls[1..], numbers) + y;
        MembersCancel(m, ks[1..], n, ls[1..], x, y, numbers);
      }
    }
  }

  lemma {:induction false} MembersSplit(m: Fields, ks: seq<string>, x: string, numbers: Numbers)
    requires ks != [] && forall k | k in ks :: k in m
    ensures PrintMembers(m, ks, numbers) + x == Quote(ks[0]) + (":" + (Print(m[ks[0]], numbers)
         + (if |ks| == 1 then x else "," + (PrintMembers(m, ks[1..], numbers) + x))))
  {
  }

  /** Two JSON values have the same stable text exactly when they are the same tree, whatever the key order. */
  lemma {:induction false} StableTextInjective(v: Json, w: Json, numbers: Numbers)
    requires numbers.Valid() && Held(v, numbers) && Held(w, numbers)
    ensures Print(v, numbers) == Print(w, numbers) <==> v == w
  {
    if Print(v, numbers) == Print(w, numbers) {
      assert Print(v, numbers) + "" == Print(w, numbers) + "";
      PrintCancel(v, w, "", "", numbers);
    }
  }
}
