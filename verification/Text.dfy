/** Header text as the two languages read it: white space, splitting, and
    key=value pieces. */
module Text {
  import opened Schema

  // ---- white space ----

  datatype Language = Rust | Python

  /** U+001C to U+001F are white space to Python only. */
  predicate IsSeparator(c: char) {
    '\U{1C}' <= c <= '\U{1F}'
  }

  /** The characters that trim() or strip() take off. */
  predicate IsSpace(lang: Language, c: char) {
    || c == ' ' || '\t' <= c <= '\r' || c == '\U{85}' || c == '\U{A0}' || c == '\U{1680}'
    || '\U{2000}' <= c <= '\U{200A}' || c == '\U{2028}' || c == '\U{2029}' || c == '\U{202F}'
    || c == '\U{205F}' || c == '\U{3000}'
    || (lang.Python? && IsSeparator(c))
  }

  /** The code points, as the two languages' documentation lists them. */
  lemma SpacesAre(c: char)
    ensures IsSpace(Rust, c) <==>
      c as int in {0x20, 0x85, 0xA0, 0x1680, 0x2028, 0x2029, 0x202F, 0x205F, 0x3000}
      || 0x9 <= c as int <= 0xD || 0x2000 <= c as int <= 0x200A
    ensures IsSpace(Python, c) <==> IsSpace(Rust, c) || 0x1C <= c as int <= 0x1F
  {
  }

  function TrimLeft(lang: Language, s: string): string {
    if s != "" && IsSpace(lang, s[0]) then TrimLeft(lang, s[1..]) else s
  }

  function TrimRight(lang: Language, s: string): string {
    if s != "" && IsSpace(lang, s[|s| - 1]) then TrimRight(lang, s[..|s| - 1]) else s
  }

  function Trim(lang: Language, s: string): string {
    TrimRight(lang, TrimLeft(lang, s))
  }

  predicate AllSpace(lang: Language, s: string) {
    forall c | c in s :: IsSpace(lang, c)
  }

  /** A text with no white space at its ends. */
  predicate Tight(lang: Language, s: string) {
    s != "" ==> !IsSpace(lang, s[0]) && !IsSpace(lang, s[|s| - 1])
  }

  lemma {:induction false} TrimLeftParts(lang: Language, s: string) returns (a: string)
    ensures s == a + TrimLeft(lang, s) && AllSpace(lang, a)
    ensures TrimLeft(lang, s) != "" ==> !IsSpace(lang, TrimLeft(lang, s)[0])
  {
    if s != "" && IsSpace(lang, s[0]) {
      var rest := TrimLeftParts(lang, s[1..]);
      a := [s[0]] + rest;
    } else {
      a := "";
    }
  }

  lemma {:induction false} TrimRightParts(lang: Language, s: string) returns (b: string)
    ensures s == TrimRight(lang, s) + b && AllSpace(lang, b)
    ensures TrimRight(lang, s) != "" ==> !IsSpace(lang, TrimRight(lang, s)[|TrimRight(lang, s)| - 1])
  {
    if s != "" && IsSpace(lang, s[|s| - 1]) {
      var rest := TrimRightParts(lang, s[..|s| - 1]);
      b := rest + [s[|s| - 1]];
    } else {
      b := "";
    }
  }

  /** Only white space is taken off, and none is left at the ends. */
  lemma TrimParts(lang: Language, s: string) returns (a: string, b: string)
    ensures s == a + Trim(lang, s) + b && AllSpace(lang, a) && AllSpace(lang, b)
    ensures Tight(lang, Trim(lang, s))
  {
    a := TrimLeftParts(lang, s);
    b := TrimRightParts(lang, TrimLeft(lang, s));
    assert Trim(lang, s) != "" ==> Trim(lang, s)[0] == TrimLeft(lang, s)[0];
  }

  lemma {:induction false} TrimLeftSkips(lang: Language, a: string, rest: string)
    requires AllSpace(lang, a)
    ensures TrimLeft(lang, a + rest) == TrimLeft(lang, rest)
  {
    if a == "" {
      assert a + rest == rest;
    } else {
      assert a[0] in a && (a + rest)[1..] == a[1..] + rest;
      TrimLeftSkips(lang, a[1..], rest);
    }
  }

  lemma {:induction false} TrimRightSkips(lang: Language, m: string, b: string)
    requires AllSpace(lang, b)
    ensures TrimRight(lang, m + b) == TrimRight(lang, m)
    decreases |b|
  {
    if b == "" {
      assert m + b == m;
    } else {
      var n := |b| - 1;
      assert b[n] in b && (m + b)[..|m + b| - 1] == m + b[..n];
      TrimRightSkips(lang, m, b[..n]);
    }
  }

  /** There is one way only to take it off. */
  lemma TrimIs(lang: Language, a: string, m: string, b: string)
    requires AllSpace(lang, a) && AllSpace(lang, b) && Tight(lang, m)
    ensures Trim(lang, a + m + b) == m
  {
    assert a + m + b == a + (m + b);
    TrimLeftSkips(lang, a, m + b);
    if m == "" {
      assert m + b == b && b + "" == b;
      TrimLeftSkips(lang, b, "");
    } else {
      TrimRightSkips(lang, m, b);
    }
  }

  // ---- where the two languages differ ----

  /** What Rust leaves of the text starts or ends with a separator. */
  predicate Spoiled(s: string) {
    var m := Trim(Rust, s);
    m != "" && (IsSeparator(m[0]) || IsSeparator(m[|m| - 1]))
  }

  lemma TrimsDiffer(s: string)
    ensures Trim(Python, s) == Trim(Rust, s) <==> !Spoiled(s)
  {
    var m := Trim(Rust, s);
    var a, b := TrimParts(Rust, s);
    var _, _ := TrimParts(Python, s);
    if !Spoiled(s) {
      TrimIs(Python, a, m, b);
    } else {
      assert !Tight(Python, m);
    }
  }

  lemma TrimKeepsCharacters(lang: Language, s: string)
    ensures forall c | c in Trim(lang, s) :: c in s
  {
    var a, b := TrimParts(lang, s);
    assert forall c | c in Trim(lang, s) :: c in a + Trim(lang, s) + b;
  }

  lemma CleanIsUnspoiled(s: string)
    requires forall c | c in s :: !IsSeparator(c)
    ensures !Spoiled(s)
  {
    TrimKeepsCharacters(Rust, s);
    var m := Trim(Rust, s);
    assert m != "" ==> m[0] in m && m[|m| - 1] in m;
  }

  // ---- splitting ----

  /** The text up to the first c, and the text after it if there is one. */
  function SplitOnce(s: string, c: char): (r: (string, Option<string>)) {
    if s == "" then ("", None)
    else if s[0] == c then ("", Some(s[1..]))
    else
      var (head, tail) := SplitOnce(s[1..], c);
      ([s[0]] + head, tail)
  }

  lemma {:induction false} SplitOnceParts(s: string, c: char)
    ensures var (head, tail) := SplitOnce(s, c);
      && c !in head
      && s == (if tail.Some? then head + [c] + tail.value else head)
      && (tail.Some? ==> |tail.value| < |s|)
  {
    if s != "" && s[0] != c { SplitOnceParts(s[1..], c); }
  }

  /** The pieces of text.split(delimiter); there is always at least one. */
  function Split(s: string, c: char): seq<string>
    decreases |s|
  {
    SplitOnceParts(s, c);
    var (head, tail) := SplitOnce(s, c);
    if tail.None? then [head] else [head] + Split(tail.value, c)
  }

  lemma {:induction false} SplitKeepsCharacters(s: string, c: char)
    ensures forall piece, x | piece in Split(s, c) && x in piece :: x in s
    decreases |s|
  {
    SplitOnceParts(s, c);
    var (head, tail) := SplitOnce(s, c);
    if tail.Some? { SplitKeepsCharacters(tail.value, c); }
  }

  lemma {:induction false} SplitOnceAt(head: string, c: char, tail: string)
    requires c !in head
    ensures SplitOnce(head + [c] + tail, c) == (head, Some(tail))
  {
    var s := head + [c] + tail;
    if head == "" {
      assert s[1..] == tail;
    } else {
      assert s[1..] == head[1..] + [c] + tail && s[0] == head[0] && head[0] in head;
      SplitOnceAt(head[1..], c, tail);
      assert [head[0]] + head[1..] == head;
    }
  }

  lemma {:induction false} SplitOnceNone(s: string, c: char)
    requires c !in s
    ensures SplitOnce(s, c) == (s, None)
  {
    if s != "" {
      assert s[0] in s;
      SplitOnceNone(s[1..], c);
      assert [s[0]] + s[1..] == s;
    }
  }

  lemma SplitCons(head: string, tail: string)
    requires ',' !in head
    ensures Split(head + "," + tail, ',') == [head] + Split(tail, ',')
  {
    SplitOnceAt(head, ',', tail);
  }

  // ---- key=value ----

  /** Both parts trimmed; a piece without '=' is skipped. */
  function KeyValue(lang: Language, piece: string): Option<(string, string)> {
    var (key, value) := SplitOnce(piece, '=');
    if value.None? then None else Some((Trim(lang, key), Trim(lang, value.value)))
  }

  lemma TrimTight(lang: Language, m: string)
    requires Tight(lang, m)
    ensures Trim(lang, m) == m
  {
    assert "" + m + "" == m;
    TrimIs(lang, "", m, "");
  }

  lemma TrimAfter(lang: Language, m: string, c: char)
    requires Tight(lang, m) && IsSpace(lang, c)
    ensures Trim(lang, m + [c]) == m
  {
    assert "" + m + [c] == m + [c];
    TrimIs(lang, "", m, [c]);
  }

  lemma PieceIs(lang: Language, key: string, value: string)
    requires '=' !in key
    ensures KeyValue(lang, key + "=" + value) == Some((Trim(lang, key), Trim(lang, value)))
  {
    SplitOnceAt(key, '=', value);
  }

  lemma PieceOf(lang: Language, key: string, value: string)
    requires '=' !in key && Tight(lang, key) && Tight(lang, value)
    ensures KeyValue(lang, key + "=" + value) == Some((key, value))
  {
    PieceIs(lang, key, value);
    TrimTight(lang, key);
    TrimTight(lang, value);
  }

  lemma TwoParts(t: string, v: string)
    requires ',' !in t && ',' !in v
    ensures Split(t + "," + v, ',') == [t, v]
  {
    SplitCons(t, v);
    SplitOnceNone(v, ',');
  }

  function ValuesOf(lang: Language, pieces: seq<string>, wanted: string): seq<string>
    decreases |pieces|
  {
    if pieces == [] then []
    else
      var before := ValuesOf(lang, pieces[..|pieces| - 1], wanted);
      match KeyValue(lang, pieces[|pieces| - 1])
      case None => before
      case Some((key, value)) => if key == wanted then before + [value] else before
  }

  lemma {:induction false} ValuesCons(lang: Language, piece: string, rest: seq<string>, wanted: string)
    ensures ValuesOf(lang, [piece] + rest, wanted) ==
      (if KeyValue(lang, piece).Some? && KeyValue(lang, piece).value.0 == wanted
       then [KeyValue(lang, piece).value.1] else [])
      + ValuesOf(lang, rest, wanted)
    decreases |rest|
  {
    var all := [piece] + rest;
    if rest == [] {
      assert all == [piece] && all[..0] == [];
    } else {
      var n := |rest| - 1;
      assert all[..|all| - 1] == [piece] + rest[..n];
      ValuesCons(lang, piece, rest[..n], wanted);
    }
  }
}
