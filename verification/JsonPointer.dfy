/** JSON pointers: printing, parsing, and the bounds the patch applier puts on them. */
module JsonPointer {
  import opened Results

  const MAX_PATH := 4096
  const MAX_DEPTH := 64
  const MAX_SEGMENT := 256
  const UNSAFE_NAMES := {"__proto__", "prototype", "constructor"}

  predicate SafeName(name: string) {
    0 < |name| <= MAX_SEGMENT && name !in UNSAFE_NAMES
  }

  // ---- escaping one segment ----

  /** Every occurrence of `c` becomes `to`. */
  function ReplaceChar(s: string, c: char, to: string): string {
    if s == "" then "" else (if s[0] == c then to else [s[0]]) + ReplaceChar(s[1..], c, to)
  }

  /** Every occurrence of the two characters `a b`, taken from the left, becomes `to`. */
  function ReplacePair(s: string, a: char, b: char, to: char): string {
    if s == "" then ""
    else if |s| >= 2 && s[0] == a && s[1] == b then [to] + ReplacePair(s[2..], a, b, to)
    else [s[0]] + ReplacePair(s[1..], a, b, to)
  }

  function Escape(name: string): string {
    ReplaceChar(ReplaceChar(name, '~', "~0"), '/', "~1")
  }

  function Unescape(token: string): string {
    ReplacePair(ReplacePair(token, '~', '1', '/'), '~', '0', '~')
  }

  lemma {:induction false} EscapeCons(c: char, s: string)
    ensures Escape([c] + s) == (if c == '~' then "~0" else if c == '/' then "~1" else [c]) + Escape(s)
  {
    var tilde := ReplaceChar(s, '~', "~0");
    assert ([c] + s)[1..] == s;
    if c == '~' {
      var tail := ['0'] + tilde;
      assert tail[1..] == tilde && (['~'] + tail)[1..] == tail;
      assert ReplaceChar([c] + s, '~', "~0") == ['~'] + tail;
      assert ReplaceChar(tail, '/', "~1") == ['0'] + Escape(s);
      assert ['~'] + (['0'] + Escape(s)) == "~0" + Escape(s);
    } else {
      assert ReplaceChar([c] + s, '~', "~0") == [c] + tilde && ([c] + tilde)[1..] == tilde;
    }
  }

  lemma {:induction false} UndoSlash(s: string)
    ensures ReplacePair(Escape(s), '~', '1', '/') == ReplaceChar(s, '~', "~0")
  {
    if s != "" {
      UndoSlash(s[1..]);
      EscapeCons(s[0], s[1..]);
      assert s == [s[0]] + s[1..];
      var rest := Escape(s[1..]);
      if s[0] == '~' {
        assert Escape(s)[1..] == ['0'] + rest && (['0'] + rest)[1..] == rest;
        assert ReplacePair(['0'] + rest, '~', '1', '/') == ['0'] + ReplacePair(rest, '~', '1', '/');
      } else if s[0] == '/' {
        assert Escape(s)[2..] == rest;
      } else {
        assert Escape(s)[1..] == rest;
      }
    }
  }

  lemma {:induction false} UndoTilde(s: string)
    ensures ReplacePair(ReplaceChar(s, '~', "~0"), '~', '0', '~') == s
  {
    if s != "" {
      UndoTilde(s[1..]);
      var rest := ReplaceChar(s[1..], '~', "~0");
      if s[0] == '~' {
        assert ReplaceChar(s, '~', "~0")[2..] == rest;
      } else {
        assert ReplaceChar(s, '~', "~0")[1..] == rest;
      }
    }
  }

  /** Section 4 of RFC 6901: evaluating an escaped reference token gives back the key. */
  lemma {:induction false} UnescapeEscape(name: string)
    ensures Unescape(Escape(name)) == name
  {
    UndoSlash(name);
    UndoTilde(name);
  }

  /** The reference tokens of section 3 of RFC 6901: no slash, and every tilde starts `~0` or `~1`. */
  predicate WellFormedToken(t: string) {
    t == "" ||
    (if t[0] == '~' then |t| >= 2 && (t[1] == '0' || t[1] == '1') && WellFormedToken(t[2..])
     else t[0] != '/' && WellFormedToken(t[1..]))
  }

  lemma {:induction false} EscapeWellFormed(name: string)
    ensures WellFormedToken(Escape(name))
  {
    if name != "" {
      EscapeWellFormed(name[1..]);
      EscapeCons(name[0], name[1..]);
      assert name == [name[0]] + name[1..];
      if name[0] == '~' || name[0] == '/' {
        assert Escape(name)[2..] == Escape(name[1..]);
      } else {
        assert Escape(name)[1..] == Escape(name[1..]);
      }
    }
  }

  lemma {:induction false} UnescapeCons(t: string)
    requires WellFormedToken(t) && t != ""
    ensures t[0] == '~' ==>
      Unescape(t) == [if t[1] == '0' then '~' else '/'] + Unescape(t[2..])
    ensures t[0] != '~' ==> Unescape(t) == [t[0]] + Unescape(t[1..])
  {
    if t[0] == '~' {
      var slash := ReplacePair(t[2..], '~', '1', '/');
      if t[1] == '1' {
        assert ReplacePair(t, '~', '1', '/') == ['/'] + slash && (['/'] + slash)[1..] == slash;
      } else {
        assert t[1..][1..] == t[2..];
        assert ReplacePair(t[1..], '~', '1', '/') == ['0'] + slash;
        assert ReplacePair(t, '~', '1', '/') == ['~'] + (['0'] + slash);
        assert (['~'] + (['0'] + slash))[2..] == slash;
      }
    } else {
      var slash := ReplacePair(t[1..], '~', '1', '/');
      assert ReplacePair(t, '~', '1', '/') == [t[0]] + slash && ([t[0]] + slash)[1..] == slash;
    }
  }

  /** Printing undoes parsing on exactly the tokens of the RFC grammar. */
  lemma {:induction false} EscapeUnescape(t: string)
    ensures Escape(Unescape(t)) == t <==> WellFormedToken(t)
  {
    EscapeWellFormed(Unescape(t));
    if WellFormedToken(t) { EscapeUndoes(t); }
  }

  lemma {:induction false} EscapeUndoes(t: string)
    requires WellFormedToken(t)
    ensures Escape(Unescape(t)) == t
  {
    if t != "" {
      UnescapeCons(t);
      if t[0] == '~' {
        EscapeUndoes(t[2..]);
        EscapeCons(if t[1] == '0' then '~' else '/', Unescape(t[2..]));
        assert t == [t[0], t[1]] + t[2..];
      } else {
        EscapeUndoes(t[1..]);
        EscapeCons(t[0], Unescape(t[1..]));
        assert t == [t[0]] + t[1..];
      }
    }
  }

  // ---- whole pointers ----

  function Print(segments: seq<string>): string {
    if segments == [] then "" else "/" + Escape(segments[0]) + Print(segments[1..])
  }

  lemma {:induction false} PrintAppend(segments: seq<string>, last: string)
    ensures Print(segments + [last]) == Print(segments) + "/" + Escape(last)
  {
    if segments == [] {
      assert segments + [last] == [last] && [last][1..] == [];
      assert Print([last]) == "/" + Escape(last) + "";
    } else {
      assert (segments + [last])[1..] == segments[1..] + [last];
      PrintAppend(segments[1..], last);
    }
  }

  /** `path.split('/')`. */
  function Split(path: string): (parts: seq<string>)
    ensures parts != []
  {
    if path == "" then [""]
    else
      var rest := Split(path[1..]);
      if path[0] == '/' then [""] + rest else [[path[0]] + rest[0]] + rest[1..]
  }

  lemma {:induction false} SplitToken(token: string, rest: string)
    requires WellFormedToken(token)
    requires rest == "" || rest[0] == '/'
    ensures Split(token + rest) == [token] + (if rest == "" then [] else Split(rest[1..]))
    decreases |token|
  {
    if token == "" {
      assert token + rest == rest;
    } else if token[0] == '~' {
      assert (token + rest)[1..] == token[1..] + rest;
      assert (token[1..] + rest)[1..] == token[2..] + rest;
      SplitToken(token[2..], rest);
      var more := Split(token[2..] + rest);
      assert Split(token[1..] + rest) == [[token[1]] + more[0]] + more[1..];
      assert Split(token + rest) == [[token[0]] + ([token[1]] + more[0])] + more[1..];
      assert token == [token[0]] + ([token[1]] + token[2..]);
    } else {
      assert (token + rest)[1..] == token[1..] + rest;
      SplitToken(token[1..], rest);
      assert token == [token[0]] + token[1..];
    }
  }

  function UnescapeAll(parts: seq<string>): (r: seq<string>)
    ensures |r| == |parts| && forall i | 0 <= i < |r| :: r[i] == Unescape(parts[i])
  {
    if parts == [] then [] else [Unescape(parts[0])] + UnescapeAll(parts[1..])
  }

  lemma {:induction false} SplitPrint(segments: seq<string>)
    ensures |Split(Print(segments))| == |segments| + 1
    ensures forall i | 0 <= i < |segments| :: Split(Print(segments))[i + 1] == Escape(segments[i])
  {
    if segments != [] {
      var token, rest := Escape(segments[0]), Print(segments[1..]);
      EscapeWellFormed(segments[0]);
      SplitToken(token, rest);
      assert Print(segments)[1..] == token + rest;
      assert Split(Print(segments)) == [""] + Split(token + rest);
      SplitPrint(segments[1..]);
      if segments[1..] != [] {
        assert Split(rest) == [""] + Split(rest[1..]);
        forall i | 0 <= i < |segments| ensures Split(Print(segments))[i + 1] == Escape(segments[i]) {
          if i > 0 { assert Split(rest)[i] == Escape(segments[1..][i - 1]); }
        }
      }
    }
  }

  predicate InBounds(segments: seq<string>) {
    && 0 < |segments| <= MAX_DEPTH
    && |Print(segments)| <= MAX_PATH
    && forall s | s in segments :: SafeName(s)
  }

  /** The pointer parser of the patch applier. */
  function Segments(path: string): Result<seq<string>> {
    if path == "" || path[0] != '/' || |path| > MAX_PATH then Err("property path must be a bounded JSON pointer")
    else
      var segments := UnescapeAll(Split(path)[1..]);
      if segments == [] || |segments| > MAX_DEPTH then Err("property path depth is outside the supported range")
      else if exists s | s in segments :: !SafeName(s) then Err("property path contains an unsafe segment")
      else Ok(segments)
  }

  /** A printed pointer is read back as itself, and is refused exactly when it is out of bounds. */
  lemma {:induction false} SegmentsPrint(segments: seq<string>)
    requires segments != []
    ensures InBounds(segments) ==> Segments(Print(segments)) == Ok(segments)
    ensures !InBounds(segments) ==> Segments(Print(segments)).Err?
  {
    SplitPrint(segments);
    forall i | 0 <= i < |segments| ensures Unescape(Escape(segments[i])) == segments[i] {
      UnescapeEscape(segments[i]);
    }
    assert UnescapeAll(Split(Print(segments))[1..]) == segments;
  }
}
