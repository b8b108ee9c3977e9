/** The Stripe-Signature header: the two parsers, and verify_stripe. */
module Stripe {
  import opened Schema
  import opened Text

  // ---- the Rust parser: two passes ----

  /** Collecting into a HashMap: a later value replaces an earlier one. */
  function Collect(pieces: seq<string>): map<string, string>
    decreases |pieces|
  {
    if pieces == [] then map[]
    else
      var before := Collect(pieces[..|pieces| - 1]);
      match KeyValue(Rust, pieces[|pieces| - 1])
      case None => before
      case Some((key, value)) => before[key := value]
  }

  function SemicolonParts(text: string, delimiter: char): map<string, string> {
    Collect(Split(text, delimiter))
  }

  function RepeatedParts(text: string, delimiter: char, wanted: string): seq<string> {
    ValuesOf(Rust, Split(text, delimiter), wanted)
  }

  lemma {:induction false} CollectKeepsLast(pieces: seq<string>, key: string)
    ensures key in Collect(pieces) <==> ValuesOf(Rust, pieces, key) != []
    ensures var all := ValuesOf(Rust, pieces, key);
      key in Collect(pieces) ==> Collect(pieces)[key] == all[|all| - 1]
    decreases |pieces|
  {
    if pieces != [] { CollectKeepsLast(pieces[..|pieces| - 1], key); }
  }

  /** The map of the first pass holds the last of the second pass's values. */
  lemma SemicolonIsLastRepeated(text: string, delimiter: char, key: string)
    ensures var all := RepeatedParts(text, delimiter, key);
      if all == [] then key !in SemicolonParts(text, delimiter)
      else key in SemicolonParts(text, delimiter) && SemicolonParts(text, delimiter)[key] == all[|all| - 1]
  {
    CollectKeepsLast(Split(text, delimiter), key);
  }

  function NonEmpty(values: seq<string>): seq<string>
    decreases |values|
  {
    if values == [] then []
    else
      var last := values[|values| - 1];
      NonEmpty(values[..|values| - 1]) + (if last == "" then [] else [last])
  }

  // ---- integers ----

  predicate IsDigit(c: char) {
    '0' <= c <= '9'
  }

  function DigitsValue(s: string): Option<nat>
    decreases |s|
  {
    if s == "" then None
    else
      var c, init := s[|s| - 1], s[..|s| - 1];
      if !IsDigit(c) then None
      else if init == "" then Some((c - '0') as nat)
      else
        var before := DigitsValue(init);
        if before.None? then None else Some(10 * before.value + (c - '0') as nat)
  }

  lemma {:induction false} DigitsOnly(s: string)
    ensures DigitsValue(s).Some? ==> s != "" && forall c | c in s :: IsDigit(c)
    decreases |s|
  {
    if s != "" { DigitsOnly(s[..|s| - 1]); }
  }

  /** A decimal integer with an optional sign that fits 64 bits. */
  function ParseInt(s: string): Option<int> {
    var negative := s != "" && s[0] == '-';
    var digits := if s != "" && (s[0] == '-' || s[0] == '+') then s[1..] else s;
    var size := DigitsValue(digits);
    if size.None? then None
    else
      var n: int := if negative then 0 - size.value else size.value;
      if I64_MIN <= n <= I64_MAX then Some(n) else None
  }

  function Digit(d: nat): char
    requires d < 10
  {
    '0' + d as char
  }

  function PrintNat(n: nat): (s: string)
    ensures s != ""
  {
    if n < 10 then [Digit(n)] else PrintNat(n / 10) + [Digit(n % 10)]
  }

  function PrintInt(n: int): string {
    if n < 0 then "-" + PrintNat(-n) else PrintNat(n)
  }

  lemma {:induction false} PrintedDigits(n: nat)
    ensures DigitsValue(PrintNat(n)) == Some(n)
    ensures forall c | c in PrintNat(n) :: IsDigit(c)
  {
    if n >= 10 {
      PrintedDigits(n / 10);
      var init := PrintNat(n / 10);
      assert (init + [Digit(n % 10)])[..|init|] == init;
    }
  }

  lemma PrintParses(n: int)
    requires I64_MIN <= n <= I64_MAX
    ensures ParseInt(PrintInt(n)) == Some(n)
  {
    var size := if n < 0 then -n else n;
    PrintedDigits(size);
    assert PrintNat(size)[0] in PrintNat(size);
    if n < 0 { assert PrintInt(n)[1..] == PrintNat(-n); }
  }

  /** A text of zeros. */
  predicate Zeros(s: string) {
    forall c | c in s :: c == '0'
  }

  lemma {:induction false} PaddedDigits(zeros: string, n: nat)
    requires Zeros(zeros)
    ensures DigitsValue(zeros + PrintNat(n)) == Some(n)
    decreases n
  {
    var s := zeros + PrintNat(n);
    if n >= 10 {
      PaddedDigits(zeros, n / 10);
      assert s[..|s| - 1] == zeros + PrintNat(n / 10);
    } else if zeros != "" {
      assert s[..|s| - 1] == zeros;
      ZerosAreNought(zeros);
    }
  }

  lemma {:induction false} ZerosAreNought(zeros: string)
    requires Zeros(zeros) && zeros != ""
    ensures DigitsValue(zeros) == Some(0)
    decreases |zeros|
  {
    assert zeros[|zeros| - 1] in zeros;
    var init := zeros[..|zeros| - 1];
    assert forall c | c in init :: c in zeros;
    if init != "" { ZerosAreNought(init); }
  }

  lemma {:induction false} DigitsArePadded(s: string) returns (zeros: string)
    requires DigitsValue(s).Some?
    ensures Zeros(zeros) && s == zeros + PrintNat(DigitsValue(s).value)
    decreases |s|
  {
    var c, init := s[|s| - 1], s[..|s| - 1];
    assert s == init + [c];
    zeros := "";
    if init != "" {
      zeros := DigitsArePadded(init);
      if DigitsValue(init).value == 0 { zeros := init; }
    }
  }

  /** The number printed, with zeros before it or not. */
  ghost predicate IsPadded(digits: string, n: nat) {
    exists zeros :: Zeros(zeros) && digits == zeros + PrintNat(n)
  }

  lemma DigitsAre(digits: string, n: nat)
    ensures DigitsValue(digits) == Some(n) <==> IsPadded(digits, n)
  {
    if DigitsValue(digits) == Some(n) {
      var zeros := DigitsArePadded(digits);
    } else if IsPadded(digits, n) {
      var zeros :| Zeros(zeros) && digits == zeros + PrintNat(n);
      PaddedDigits(zeros, n);
    }
  }

  lemma SignsAreRead(digits: string)
    requires DigitsValue(digits).Some?
    ensures var size: int := DigitsValue(digits).value;
      && ParseInt(digits) == ParseInt("+" + digits) == (if size <= I64_MAX then Some(size) else None)
      && ParseInt("-" + digits) == (if I64_MIN <= -size then Some(-size) else None)
  {
    DigitsOnly(digits);
    assert digits[0] in digits && ("+" + digits)[1..] == digits && ("-" + digits)[1..] == digits;
  }

  /** The texts that are read as n, if it fits 64 bits. */
  ghost predicate IsPrinted(s: string, digits: string, n: int) {
    || (n <= 0 && s == "-" + digits && IsPadded(digits, -n))
    || (n >= 0 && (s == digits || s == "+" + digits) && IsPadded(digits, n))
  }

  lemma ParsesAre(s: string, n: int)
    ensures ParseInt(s) == Some(n) <==> I64_MIN <= n <= I64_MAX && exists digits :: IsPrinted(s, digits, n)
  {
    if ParseInt(s) == Some(n) {
      ReadIsPrinted(s, n);
    }
    forall digits | IsPrinted(s, digits, n) && I64_MIN <= n <= I64_MAX ensures ParseInt(s) == Some(n) {
      DigitsAre(digits, if n < 0 then -n else n);
      SignsAreRead(digits);
    }
  }

  lemma ReadIsPrinted(s: string, n: int)
    requires ParseInt(s) == Some(n)
    ensures exists digits :: IsPrinted(s, digits, n)
  {
    var signed := s[0] == '-' || s[0] == '+';
    var digits := if signed then s[1..] else s;
    DigitsAre(digits, if n < 0 then -n else n);
    assert s == if signed then [s[0]] + digits else digits;
    assert IsPrinted(s, digits, n);
  }

  // ---- the Python parser: one pass ----

  /** int() of a string; None where it raises. */
  type ToInt = string -> Option<int>

  /** What the loop has gathered so far; None once int() raised. */
  datatype Gathered = Gathered(timestamp: Option<int>, signatures: seq<string>)

  function Step(toInt: ToInt, g: Gathered, piece: string): Option<Gathered> {
    match KeyValue(Python, piece)
    case None => Some(g)
    case Some((key, value)) =>
      if key == "t" then
        var n := toInt(value);
        if n.None? then None else Some(g.(timestamp := n))
      else if key == "v1" && value != "" then Some(g.(signatures := g.signatures + [value]))
      else Some(g)
  }

  function Gather(toInt: ToInt, pieces: seq<string>): Option<Gathered>
    decreases |pieces|
  {
    if pieces == [] then Some(Gathered(None, []))
    else
      var before := Gather(toInt, pieces[..|pieces| - 1]);
      if before.None? then None else Step(toInt, before.value, pieces[|pieces| - 1])
  }

  lemma {:induction false} GatherFails(toInt: ToInt, pieces: seq<string>, k: nat)
    requires k <= |pieces| && Gather(toInt, pieces[..k]).None?
    ensures Gather(toInt, pieces).None?
    decreases |pieces| - k
  {
    if k == |pieces| {
      assert pieces[..k] == pieces;
    } else {
      assert pieces[..k + 1][..k] == pieces[..k];
      GatherFails(toInt, pieces, k + 1);
    }
  }

  function PythonParse(toInt: ToInt, header: string): Option<(int, seq<string>)> {
    var g := Gather(toInt, Split(header, ','));
    if g.None? || g.value.timestamp.None? || g.value.signatures == [] then None
    else Some((g.value.timestamp.value, g.value.signatures))
  }

  /** None stands for ValueError. */
  method ParseStripeSignature(toInt: ToInt, header: string) returns (r: Option<(int, seq<string>)>)
    ensures r == PythonParse(toInt, header)
  {
    var timestamp: Option<int> := None;
    var signatures: seq<string> := [];
    var pieces := Split(header, ',');
    for i := 0 to |pieces|
      invariant Gather(toInt, pieces[..i]) == Some(Gathered(timestamp, signatures))
    {
      assert pieces[..i + 1][..i] == pieces[..i];
      var (key, value) := SplitOnce(pieces[i], '=');
      if value.None? { continue; }
      var k, v := Trim(Python, key), Trim(Python, value.value);
      if k == "t" {
        var n := toInt(v);
        if n.None? {
          GatherFails(toInt, pieces, i + 1);
          return None;
        }
        timestamp := n;
      } else if k == "v1" && v != "" {
        signatures := signatures + [v];
      }
    }
    assert pieces[..|pieces|] == pieces;
    if timestamp.None? { return None; }
    if signatures == [] { return None; }
    return Some((timestamp.value, signatures));
  }

  // ---- one pass is two passes ----

  predicate AllParse(toInt: ToInt, values: seq<string>) {
    forall i | 0 <= i < |values| :: toInt(values[i]).Some?
  }

  /** What two passes find is what one pass gathered. */
  predicate TwoPasses(toInt: ToInt, pieces: seq<string>, g: Option<Gathered>) {
    var t := ValuesOf(Python, pieces, "t");
    && (g.Some? <==> AllParse(toInt, t))
    && (g.Some? ==> g.value.signatures == NonEmpty(ValuesOf(Python, pieces, "v1")))
    && (g.Some? ==> g.value.timestamp == (if t == [] then None else toInt(t[|t| - 1])))
  }

  lemma AllParseAppend(toInt: ToInt, t: seq<string>, value: string)
    ensures AllParse(toInt, t + [value]) <==> AllParse(toInt, t) && toInt(value).Some?
  {
    assert (t + [value])[|t|] == value;
    assert forall i | 0 <= i < |t| :: (t + [value])[i] == t[i];
  }

  lemma StepIsTwoPasses(toInt: ToInt, init: seq<string>, last: string, g: Gathered)
    requires TwoPasses(toInt, init, Some(g))
    ensures TwoPasses(toInt, init + [last], Step(toInt, g, last))
  {
    assert (init + [last])[..|init|] == init;
    if KeyValue(Python, last).Some? {
      var value := KeyValue(Python, last).value.1;
      AllParseAppend(toInt, ValuesOf(Python, init, "t"), value);
      var v := ValuesOf(Python, init, "v1");
      assert (v + [value])[..|v|] == v;
    }
  }

  lemma FailureIsTwoPasses(toInt: ToInt, init: seq<string>, last: string)
    requires TwoPasses(toInt, init, None)
    ensures TwoPasses(toInt, init + [last], None)
  {
    assert (init + [last])[..|init|] == init;
    if KeyValue(Python, last).Some? {
      AllParseAppend(toInt, ValuesOf(Python, init, "t"), KeyValue(Python, last).value.1);
    }
  }

  /** One pass gathers the last t and the non-empty v1 values, and goes through
      exactly when every t is an integer. */
  lemma {:induction false} GatherIsTwoPasses(toInt: ToInt, pieces: seq<string>)
    ensures TwoPasses(toInt, pieces, Gather(toInt, pieces))
    decreases |pieces|
  {
    if pieces == [] {
    } else {
      var init, last := pieces[..|pieces| - 1], pieces[|pieces| - 1];
      GatherIsTwoPasses(toInt, init);
      assert pieces == init + [last];
      var g := Gather(toInt, init);
      if g.Some? {
        StepIsTwoPasses(toInt, init, last, g.value);
      } else {
        FailureIsTwoPasses(toInt, init, last);
      }
    }
  }

  function RustTimestamp(header: string): Option<int> {
    var parts := SemicolonParts(header, ',');
    if "t" in parts then ParseInt(parts["t"]) else None
  }

  // ---- the digests agree ----

  /** The v1 digests that are not empty. */
  function Digests(lang: Language, pieces: seq<string>): seq<string> {
    NonEmpty(ValuesOf(lang, pieces, "v1"))
  }

  function DigestOf(lang: Language, piece: string): seq<string> {
    match KeyValue(lang, piece)
    case None => []
    case Some((key, value)) => if key == "v1" && value != "" then [value] else []
  }

  lemma DigestsAppend(lang: Language, init: seq<string>, last: string)
    ensures Digests(lang, init + [last]) == Digests(lang, init) + DigestOf(lang, last)
  {
    assert (init + [last])[..|init|] == init;
    if KeyValue(lang, last).Some? {
      var v, value := ValuesOf(lang, init, "v1"), KeyValue(lang, last).value.1;
      assert (v + [value])[..|v|] == v;
    }
  }

  /** A v1 piece, to Python, with a separator at an end of its value, or at an
      end of its key when there is a digest to miss. */
  predicate DigestSpoiled(piece: string) {
    var (key, value) := SplitOnce(piece, '=');
    value.Some? && Trim(Python, key) == "v1" &&
    if Spoiled(key) then Trim(Python, value.value) != "" else Spoiled(value.value)
  }

  lemma PieceDigests(piece: string)
    ensures forall d | d in DigestOf(Python, piece) :: Tight(Python, d)
    ensures !DigestSpoiled(piece) ==> DigestOf(Rust, piece) == DigestOf(Python, piece)
    ensures DigestSpoiled(piece) ==>
      || (DigestOf(Rust, piece) == [] && |DigestOf(Python, piece)| == 1)
      || (|DigestOf(Rust, piece)| == 1 && !Tight(Python, DigestOf(Rust, piece)[0]))
  {
    var (key, value) := SplitOnce(piece, '=');
    if value.Some? {
      var _, _ := TrimParts(Python, value.value);
      TrimsDiffer(key);
      TrimsDiffer(value.value);
      if Trim(Rust, key) == "v1" { assert !Spoiled(key); }
    }
  }

  lemma {:induction false} PythonDigestsTight(pieces: seq<string>)
    ensures forall d | d in Digests(Python, pieces) :: Tight(Python, d)
    decreases |pieces|
  {
    if pieces == [] {
    } else {
      var init, last := pieces[..|pieces| - 1], pieces[|pieces| - 1];
      PythonDigestsTight(init);
      DigestsAppend(Python, init, last);
      PieceDigests(last);
      assert pieces == init + [last];
    }
  }

  predicate AnySpoiled(pieces: seq<string>) {
    exists piece :: piece in pieces && DigestSpoiled(piece)
  }

  lemma PieceMissed(piece: string)
    requires forall d | d in DigestOf(Rust, piece) :: Tight(Python, d)
    ensures |DigestOf(Rust, piece)| <= |DigestOf(Python, piece)|
    ensures DigestSpoiled(piece) ==> |DigestOf(Rust, piece)| < |DigestOf(Python, piece)|
  {
    PieceDigests(piece);
    assert DigestOf(Rust, piece) != [] ==> DigestOf(Rust, piece)[0] in DigestOf(Rust, piece);
  }

  /** If no separator gives Rust's digests away, it has fewer of them. */
  lemma {:induction false} DigestsMissed(pieces: seq<string>)
    requires forall d | d in Digests(Rust, pieces) :: Tight(Python, d)
    ensures |Digests(Rust, pieces)| <= |Digests(Python, pieces)|
    ensures AnySpoiled(pieces) ==> |Digests(Rust, pieces)| < |Digests(Python, pieces)|
    decreases |pieces|
  {
    if pieces == [] {
    } else {
      var init, last := pieces[..|pieces| - 1], pieces[|pieces| - 1];
      assert pieces == init + [last];
      DigestsAppend(Rust, init, last);
      DigestsAppend(Python, init, last);
      assert forall d | d in Digests(Rust, init) || d in DigestOf(Rust, last) :: d in Digests(Rust, pieces);
      PieceMissed(last);
      DigestsMissed(init);
      assert AnySpoiled(pieces) ==> AnySpoiled(init) || DigestSpoiled(last);
    }
  }

  lemma {:induction false} UnspoiledDigests(pieces: seq<string>)
    requires !AnySpoiled(pieces)
    ensures Digests(Rust, pieces) == Digests(Python, pieces)
    decreases |pieces|
  {
    if pieces == [] {
    } else {
      var init, last := pieces[..|pieces| - 1], pieces[|pieces| - 1];
      assert pieces == init + [last];
      assert forall piece | piece in init :: piece in pieces;
      UnspoiledDigests(init);
      DigestsAppend(Rust, init, last);
      DigestsAppend(Python, init, last);
      PieceDigests(last);
    }
  }

  /** The two parsers find the same digests exactly where no piece is spoiled. */
  lemma DigestsAgree(pieces: seq<string>)
    ensures Digests(Rust, pieces) == Digests(Python, pieces) <==> !AnySpoiled(pieces)
  {
    PythonDigestsTight(pieces);
    if !AnySpoiled(pieces) {
      UnspoiledDigests(pieces);
    } else if forall d | d in Digests(Rust, pieces) :: Tight(Python, d) {
      DigestsMissed(pieces);
    }
  }

  // ---- the timestamps agree ----

  /** The last t, as Rust reads it. */
  function TimeOf(pieces: seq<string>): Option<int> {
    var t := ValuesOf(Rust, pieces, "t");
    if t == [] then None else ParseInt(t[|t| - 1])
  }

  lemma RustTimeIs(header: string)
    ensures RustTimestamp(header) == TimeOf(Split(header, ','))
  {
    SemicolonIsLastRepeated(header, ',', "t");
  }

  /** A t to Python. */
  predicate IsTime(piece: string) {
    KeyValue(Python, piece).Some? && KeyValue(Python, piece).value.0 == "t"
  }

  lemma TimeKeys(piece: string)
    ensures KeyValue(Rust, piece).Some? && KeyValue(Rust, piece).value.0 == "t" <==>
      IsTime(piece) && !Spoiled(SplitOnce(piece, '=').0)
  {
    TrimsDiffer(SplitOnce(piece, '=').0);
  }

  lemma IntegersAreTight(m: string)
    ensures ParseInt(m).Some? ==> m != "" && !IsSeparator(m[0]) && !IsSeparator(m[|m| - 1])
  {
    var digits := if m != "" && (m[0] == '-' || m[0] == '+') then m[1..] else m;
    DigitsOnly(digits);
    assert digits != "" ==> digits[0] in digits && digits[|digits| - 1] in digits;
  }

  /** The piece k is the last t to Python. */
  predicate IsLastTime(pieces: seq<string>, k: nat) {
    k < |pieces| && IsTime(pieces[k]) && forall i | k < i < |pieces| :: !IsTime(pieces[i])
  }

  lemma NoTimeAdded(init: seq<string>, last: string)
    requires !IsTime(last)
    ensures TimeOf(init + [last]) == TimeOf(init)
    ensures ValuesOf(Python, init + [last], "t") == ValuesOf(Python, init, "t")
  {
    assert (init + [last])[..|init|] == init;
    TimeKeys(last);
  }

  lemma TimeAdded(init: seq<string>, last: string)
    requires IsTime(last)
    ensures var (key, value) := SplitOnce(last, '=');
      && ValuesOf(Python, init + [last], "t") == ValuesOf(Python, init, "t") + [Trim(Python, value.value)]
      && TimeOf(init + [last]) ==
           if Spoiled(key) then TimeOf(init)
           else if Spoiled(value.value) then None
           else ParseInt(Trim(Python, value.value))
  {
    assert (init + [last])[..|init|] == init;
    TimeKeys(last);
    var value := SplitOnce(last, '=').1.value;
    TrimsDiffer(value);
    IntegersAreTight(Trim(Rust, value));
  }

  /** Rust takes the same t, unless its key is spoiled: then it takes the one it
      finds before. It reads no spoiled value. */
  lemma {:induction false} LastTimeSeen(pieces: seq<string>, k: nat)
    requires IsLastTime(pieces, k)
    ensures var (key, value), t := SplitOnce(pieces[k], '='), ValuesOf(Python, pieces, "t");
      && t != [] && t[|t| - 1] == Trim(Python, value.value)
      && TimeOf(pieces) ==
           if Spoiled(key) then TimeOf(pieces[..k])
           else if Spoiled(value.value) then None
           else ParseInt(Trim(Python, value.value))
    decreases |pieces|
  {
    var init, last := pieces[..|pieces| - 1], pieces[|pieces| - 1];
    assert pieces == init + [last];
    if k < |init| {
      assert init[..k] == pieces[..k];
      LastTimeSeen(init, k);
      NoTimeAdded(init, last);
    } else {
      TimeAdded(init, last);
    }
  }

  lemma LastTimeKept(init: seq<string>, last: string, k: nat)
    requires IsLastTime(init, k) && !IsTime(last)
    ensures IsLastTime(init + [last], k)
  {
  }

  lemma {:induction false} LastTimeExists(pieces: seq<string>) returns (k: nat)
    requires ValuesOf(Python, pieces, "t") != []
    ensures IsLastTime(pieces, k)
    decreases |pieces|
  {
    var init, last := pieces[..|pieces| - 1], pieces[|pieces| - 1];
    assert pieces == init + [last];
    if IsTime(last) {
      k := |init|;
    } else {
      NoTimeAdded(init, last);
      k := LastTimeExists(init);
      LastTimeKept(init, last, k);
    }
  }

  // ---- the two agree ----

  /** What int() and Rust both read, they read as the same number. Either may
      refuse texts that the other reads. */
  ghost predicate Compatible(toInt: ToInt) {
    forall s: string :: ParseInt(s).Some? && toInt(s).Some? ==> toInt(s) == ParseInt(s)
  }

  /** Python accepts exactly the headers with a non-empty digest and at least one
      t whose t values are all integers to it. Rust then has the same digests if
      and only if no piece is spoiled; and the same timestamp if and only if the
      last t is unspoiled and Rust can read it too, or its key is spoiled and
      Rust finds the same number before. */
  lemma PythonAgreesWithRust(toInt: ToInt, header: string)
    requires Compatible(toInt)
    ensures var p, pieces := PythonParse(toInt, header), Split(header, ',');
      var t := ValuesOf(Python, pieces, "t");
      && (p.Some? <==> t != [] && AllParse(toInt, t) && Digests(Python, pieces) != [])
      && (p.Some? ==> (NonEmpty(RepeatedParts(header, ',', "v1")) == p.value.1 <==> !AnySpoiled(pieces)))
      && (p.Some? ==> exists k :: IsLastTime(pieces, k))
      && (forall k | p.Some? && IsLastTime(pieces, k) ::
            RustTimestamp(header) == Some(p.value.0) <==> TimeAgrees(pieces, k, p.value.0))
  {
    var pieces := Split(header, ',');
    GatherIsTwoPasses(toInt, pieces);
    DigestsAgree(pieces);
    RustTimeIs(header);
    if PythonParse(toInt, header).Some? { var k := LastTimeExists(pieces); }
    forall k | PythonParse(toInt, header).Some? && IsLastTime(pieces, k) {
      LastTimeSeen(pieces, k);
    }
  }

  predicate TimeAgrees(pieces: seq<string>, k: nat, timestamp: int)
    requires IsLastTime(pieces, k)
  {
    var (key, value) := SplitOnce(pieces[k], '=');
    if Spoiled(key) then TimeOf(pieces[..k]) == Some(timestamp)
    else !Spoiled(value.value) && ParseInt(Trim(Python, value.value)).Some?
  }

  /** Without a separator in the header nothing is spoiled: the digests are the
      same, and so is the timestamp, unless Rust cannot read the last t. */
  lemma CleanHeadersAgree(toInt: ToInt, header: string)
    requires Compatible(toInt) && forall c | c in header :: !IsSeparator(c)
    requires PythonParse(toInt, header).Some?
    ensures var p, t := PythonParse(toInt, header).value, RepeatedParts(header, ',', "t");
      && NonEmpty(RepeatedParts(header, ',', "v1")) == p.1
      && t != [] && RustTimestamp(header) == if ParseInt(t[|t| - 1]).Some? then Some(p.0) else None
  {
    var pieces := Split(header, ',');
    forall piece | piece in pieces ensures CleanPiece(piece) { CleanPieces(header, piece); }
    PythonAgreesWithRust(toInt, header);
    CleanValues(pieces, "t");
    RustTimeIs(header);
    GatherIsTwoPasses(toInt, pieces);
  }

  predicate CleanPiece(piece: string) {
    var (key, value) := SplitOnce(piece, '=');
    !Spoiled(key) && (value.Some? ==> !Spoiled(value.value))
  }

  lemma CleanPieces(header: string, piece: string)
    requires (forall c | c in header :: !IsSeparator(c)) && piece in Split(header, ',')
    ensures CleanPiece(piece)
  {
    SplitKeepsCharacters(header, ',');
    SplitOnceParts(piece, '=');
    var (key, value) := SplitOnce(piece, '=');
    assert forall c | c in key :: c in piece;
    CleanIsUnspoiled(key);
    if value.Some? {
      assert forall c | c in value.value :: c in piece;
      CleanIsUnspoiled(value.value);
    }
  }

  lemma {:induction false} CleanValues(pieces: seq<string>, wanted: string)
    requires forall piece | piece in pieces :: CleanPiece(piece)
    ensures ValuesOf(Rust, pieces, wanted) == ValuesOf(Python, pieces, wanted)
    decreases |pieces|
  {
    if pieces == [] {
    } else {
      var n := |pieces| - 1;
      assert CleanPiece(pieces[n]) && forall piece | piece in pieces[..n] :: piece in pieces;
      CleanValues(pieces[..n], wanted);
      var (key, value) := SplitOnce(pieces[n], '=');
      TrimsDiffer(key);
      if value.Some? { TrimsDiffer(value.value); }
    }
  }

  // ---- printed headers ----

  predicate IsHex(s: string) {
    s != "" && forall c | c in s :: IsDigit(c) || 'a' <= c <= 'f'
  }

  function PrintHeader(timestamp: int, digest: string): string {
    "t=" + PrintInt(timestamp) + ",v1=" + digest
  }

  lemma PrintedCharacters(lang: Language, timestamp: int)
    ensures var n := PrintInt(timestamp); Tight(lang, n) && forall c | c in n :: c == '-' || IsDigit(c)
  {
    var n := PrintInt(timestamp);
    PrintedDigits(if timestamp < 0 then -timestamp else timestamp);
    assert n[0] in n && n[|n| - 1] in n;
  }

  lemma PrintedTime(lang: Language, timestamp: int)
    ensures KeyValue(lang, "t=" + PrintInt(timestamp)) == Some(("t", PrintInt(timestamp)))
  {
    PrintedCharacters(lang, timestamp);
    assert "t=" + PrintInt(timestamp) == "t" + "=" + PrintInt(timestamp);
    PieceOf(lang, "t", PrintInt(timestamp));
  }

  lemma PrintedPieces(lang: Language, timestamp: int, digest: string)
    requires IsHex(digest)
    ensures Split(PrintHeader(timestamp, digest), ',') == ["t=" + PrintInt(timestamp), "v1=" + digest]
    ensures KeyValue(lang, "t=" + PrintInt(timestamp)) == Some(("t", PrintInt(timestamp)))
    ensures KeyValue(lang, "v1=" + digest) == Some(("v1", digest))
  {
    var n := PrintInt(timestamp);
    PrintedCharacters(lang, timestamp);
    PrintedTime(lang, timestamp);
    assert digest[0] in digest && digest[|digest| - 1] in digest;
    PieceOf(lang, "v1", digest);
    assert "v1" + "=" + digest == "v1=" + digest;
    assert PrintHeader(timestamp, digest) == ("t=" + n) + "," + ("v1=" + digest);
    TwoParts("t=" + n, "v1=" + digest);
  }

  lemma TwoPieces(lang: Language, t: string, v: string, wanted: string)
    requires KeyValue(lang, t).Some? && KeyValue(lang, v).Some?
    ensures ValuesOf(lang, [t, v], wanted) ==
      (if KeyValue(lang, t).value.0 == wanted then [KeyValue(lang, t).value.1] else [])
      + (if KeyValue(lang, v).value.0 == wanted then [KeyValue(lang, v).value.1] else [])
  {
    assert [t, v] == [t] + [v] && [v] == [v] + [];
    ValuesCons(lang, t, [v], wanted);
    ValuesCons(lang, v, [], wanted);
  }

  lemma PrintedHeader(timestamp: int, digest: string)
    requires IsHex(digest)
    ensures RepeatedParts(PrintHeader(timestamp, digest), ',', "t") == [PrintInt(timestamp)]
    ensures RepeatedParts(PrintHeader(timestamp, digest), ',', "v1") == [digest]
  {
    PrintedPieces(Rust, timestamp, digest);
    TwoPieces(Rust, "t=" + PrintInt(timestamp), "v1=" + digest, "t");
    TwoPieces(Rust, "t=" + PrintInt(timestamp), "v1=" + digest, "v1");
  }

  lemma PrintedTimestamp(timestamp: int, digest: string)
    requires IsHex(digest) && I64_MIN <= timestamp <= I64_MAX
    ensures RustTimestamp(PrintHeader(timestamp, digest)) == Some(timestamp)
  {
    PrintedHeader(timestamp, digest);
    PrintParses(timestamp);
    SemicolonIsLastRepeated(PrintHeader(timestamp, digest), ',', "t");
  }

  /** Rust looks at the last t only, so it goes on where Python raises: any
      printed header with a t in front of it that int() refuses shows that. */
  lemma RustAcceptsMore(toInt: ToInt, bad: string, timestamp: int, digest: string)
    requires ',' !in bad && Tight(Python, bad) && toInt(bad).None?
    requires IsHex(digest) && I64_MIN <= timestamp <= I64_MAX
    ensures var header := "t=" + bad + "," + PrintHeader(timestamp, digest);
      RustTimestamp(header) == Some(timestamp) && PythonParse(toInt, header) == None
  {
    var printed := PrintHeader(timestamp, digest);
    var first, rest := "t=" + bad, Split(printed, ',');
    SplitCons(first, printed);
    assert "t" + "=" + bad == first;
    PieceOf(Python, "t", bad);
    PieceOf(Rust, "t", bad);
    PrintedHeader(timestamp, digest);
    PrintParses(timestamp);
    ValuesCons(Rust, first, rest, "t");
    RustTimeIs(first + "," + printed);
    ValuesCons(Python, first, rest, "t");
    GatherIsTwoPasses(toInt, [first] + rest);
    assert ValuesOf(Python, [first] + rest, "t")[0] == bad;
  }

  lemma DigestPiece(lang: Language, rest: string)
    ensures DigestOf(lang, "v1=" + rest) == if Trim(lang, rest) == "" then [] else [Trim(lang, rest)]
  {
    assert "v1=" + rest == "v1" + "=" + rest;
    PieceIs(lang, "v1", rest);
    assert "v1"[0] == 'v' && "v1"[1] == '1';
    TrimTight(lang, "v1");
  }

  lemma TwoDigests(lang: Language, t: string, v: string)
    ensures Digests(lang, [t, v]) == DigestOf(lang, t) + DigestOf(lang, v)
  {
    assert [] + [t] == [t] && [t] + [v] == [t, v];
    DigestsAppend(lang, [], t);
    DigestsAppend(lang, [t], v);
  }

  lemma PrintedDigest(lang: Language, timestamp: int, rest: string)
    ensures Digests(lang, ["t=" + PrintInt(timestamp), "v1=" + rest]) ==
      if Trim(lang, rest) == "" then [] else [Trim(lang, rest)]
  {
    PrintedTime(lang, timestamp);
    DigestPiece(lang, rest);
    TwoDigests(lang, "t=" + PrintInt(timestamp), "v1=" + rest);
  }

  lemma SeparatorTrims(digest: string, c: char)
    requires IsHex(digest) && IsSeparator(c)
    ensures Trim(Rust, digest + [c]) == digest + [c] && Trim(Python, digest + [c]) == digest
  {
    assert digest[0] in digest && digest[|digest| - 1] in digest;
    TrimTight(Rust, digest + [c]);
    TrimAfter(Python, digest, c);
  }

  lemma SeparatedPieces(timestamp: int, digest: string, c: char)
    requires IsHex(digest) && IsSeparator(c)
    ensures Split(PrintHeader(timestamp, digest) + [c], ',') ==
      ["t=" + PrintInt(timestamp), "v1=" + (digest + [c])]
  {
    var t, v := "t=" + PrintInt(timestamp), "v1=" + (digest + [c]);
    PrintedCharacters(Rust, timestamp);
    assert PrintHeader(timestamp, digest) + [c] == t + "," + v;
    TwoParts(t, v);
  }

  /** A separator after a printed header stays on Rust's digest only. */
  lemma SeparatorAfterDigest(timestamp: int, digest: string, c: char)
    requires IsHex(digest) && IsSeparator(c)
    ensures var pieces := Split(PrintHeader(timestamp, digest) + [c], ',');
      Digests(Python, pieces) == [digest] && Digests(Rust, pieces) == [digest + [c]]
  {
    SeparatedPieces(timestamp, digest, c);
    SeparatorTrims(digest, c);
    PrintedDigest(Rust, timestamp, digest + [c]);
    PrintedDigest(Python, timestamp, digest + [c]);
  }

  lemma SeparatedKey(timestamp: int, c: char)
    requires IsSeparator(c)
    ensures var n := PrintInt(timestamp);
      && KeyValue(Rust, "t" + [c] + "=" + n) == Some(("t" + [c], n))
      && KeyValue(Python, "t" + [c] + "=" + n) == Some(("t", n))
  {
    var n := PrintInt(timestamp);
    PrintedCharacters(Rust, timestamp);
    PrintedCharacters(Python, timestamp);
    PieceOf(Rust, "t" + [c], n);
    PieceIs(Python, "t" + [c], n);
    TrimAfter(Python, "t", c);
    TrimTight(Python, n);
  }

  lemma SeparatedHeader(timestamp: int, digest: string, c: char)
    requires IsHex(digest) && IsSeparator(c)
    ensures Split("t" + [c] + "=" + PrintInt(timestamp) + ",v1=" + digest, ',') ==
      ["t" + [c] + "=" + PrintInt(timestamp), "v1=" + digest]
  {
    var t, v := "t" + [c] + "=" + PrintInt(timestamp), "v1=" + digest;
    PrintedCharacters(Rust, timestamp);
    assert t + ",v1=" + digest == t + "," + v;
    TwoParts(t, v);
  }

  /** A separator after the t of a printed header hides it from Rust only. */
  lemma SeparatorAfterKey(timestamp: int, digest: string, c: char)
    requires IsHex(digest) && IsSeparator(c)
    ensures var header := "t" + [c] + "=" + PrintInt(timestamp) + ",v1=" + digest;
      RustTimestamp(header) == None && ValuesOf(Python, Split(header, ','), "t") == [PrintInt(timestamp)]
  {
    var t, v := "t" + [c] + "=" + PrintInt(timestamp), "v1=" + digest;
    SeparatedKey(timestamp, c);
    SeparatedHeader(timestamp, digest, c);
    RustTimeIs(t + ",v1=" + digest);
    PrintedPieces(Rust, timestamp, digest);
    PrintedPieces(Python, timestamp, digest);
    TwoPieces(Rust, t, v, "t");
    TwoPieces(Python, t, v, "t");
  }

  // ---- the tolerance ----

  const TWO64 := 0x1_0000_0000_0000_0000

  /** Two's complement: what is left of an integer in an i64. */
  function Wrapped(n: int): int {
    (n - I64_MIN) % TWO64 + I64_MIN
  }

  /** (now - timestamp).abs() without overflow checks. */
  function Elapsed(now: int, timestamp: int): int {
    var d := Wrapped(now - timestamp);
    Wrapped(if d < 0 then -d else d)
  }

  predicate OutsideTolerance(now: int, timestamp: int, tolerance: int) {
    Elapsed(now, timestamp) > tolerance
  }

  function Distance(a: int, b: int): nat {
    if a < b then b - a else a - b
  }

  lemma WrappedOnce(n: int)
    requires I64_MIN <= n < I64_MIN + 2 * TWO64
    ensures Wrapped(n) == if n <= I64_MAX then n else n - TWO64
  {
    var m := n - I64_MIN;
    assert m % TWO64 == if m < TWO64 then m else m - TWO64;
  }

  /** The clock is not negative, so the subtraction overflows only for
      timestamps more than I64_MAX seconds ago; and 2^63 seconds ago the
      absolute value overflows as well. */
  lemma ElapsedIs(now: int, timestamp: int)
    requires 0 <= now <= I64_MAX && I64_MIN <= timestamp <= I64_MAX
    ensures Elapsed(now, timestamp) ==
      if now - timestamp <= I64_MAX then Distance(now, timestamp)
      else if now - timestamp == I64_MAX + 1 then I64_MIN
      else TWO64 - (now - timestamp)
  {
    WrappedOnce(now - timestamp);
    var d := Wrapped(now - timestamp);
    WrappedOnce(if d < 0 then -d else d);
  }

  /** The check is the one meant exactly when the subtraction does not overflow
      or what is left of it is still too long. */
  lemma ToleranceMeant(now: int, timestamp: int, tolerance: int)
    requires 0 <= now <= I64_MAX && I64_MIN <= timestamp <= I64_MAX && 0 <= tolerance <= I64_MAX
    ensures (OutsideTolerance(now, timestamp, tolerance) <==> Distance(now, timestamp) > tolerance) <==>
      now - timestamp <= I64_MAX || I64_MAX + 1 < now - timestamp < TWO64 - tolerance
  {
    ElapsedIs(now, timestamp);
  }

  /** A timestamp of 2^63 seconds ago is within every tolerance. */
  lemma OverflowIsInTime(now: int, tolerance: int)
    requires 0 <= now <= I64_MAX && 0 <= tolerance <= I64_MAX
    ensures var timestamp := now - I64_MAX - 1;
      && I64_MIN <= timestamp <= I64_MAX
      && Distance(now, timestamp) > tolerance && !OutsideTolerance(now, timestamp, tolerance)
  {
    ElapsedIs(now, now - I64_MAX - 1);
  }

  // ---- verify_stripe ----

  datatype Verdict = MissingHeader | MissingTimestamp | OutOfTime | InvalidSignature | Accepted

  /** mac(secret, payload) is the hex digest of the payload under the secret. */
  function VerifyStripe(mac: (string, string) -> string, header: Option<string>, body: string,
                        secrets: seq<string>, tolerance: int, now: int): Verdict
  {
    if header.None? then MissingHeader
    else
      var timestamp := RustTimestamp(header.value);
      if timestamp.None? then MissingTimestamp
      else if OutsideTolerance(now, timestamp.value, tolerance) then OutOfTime
      else
        var signed := PrintInt(timestamp.value) + "." + body;
        var digests := RepeatedParts(header.value, ',', "v1");
        if exists i | 0 <= i < |secrets| :: mac(secrets[i], signed) in digests then Accepted else InvalidSignature
  }

  /** A printed header is accepted exactly when it passes the tolerance check and
      its digest is that of the signed payload under some configured secret; and
      passing the check is being in time, unless the timestamp is more than
      I64_MAX seconds ago. */
  lemma PrintedHeaderVerdict(mac: (string, string) -> string, timestamp: int, digest: string, body: string,
                             secrets: seq<string>, tolerance: int, now: int)
    requires IsHex(digest) && I64_MIN <= timestamp <= I64_MAX && 0 <= now <= I64_MAX
    ensures var signs := exists i | 0 <= i < |secrets| :: mac(secrets[i], PrintInt(timestamp) + "." + body) == digest;
      var verdict := VerifyStripe(mac, Some(PrintHeader(timestamp, digest)), body, secrets, tolerance, now);
      && (verdict == Accepted <==> !OutsideTolerance(now, timestamp, tolerance) && signs)
      && (now - timestamp <= I64_MAX ==> (verdict == Accepted <==> Distance(now, timestamp) <= tolerance && signs))
  {
    PrintedHeader(timestamp, digest);
    PrintedTimestamp(timestamp, digest);
    ElapsedIs(now, timestamp);
    var digests := RepeatedParts(PrintHeader(timestamp, digest), ',', "v1");
    assert forall x: string :: x in digests <==> x == digest;
  }

  /** Some digest is that of the payload under some secret. */
  ghost predicate Signs(mac: (string, string) -> string, secrets: seq<string>, digests: seq<string>, signed: string) {
    exists secret, d :: secret in secrets && d in digests && mac(secret, signed) == d
  }

  lemma VerdictInTime(mac: (string, string) -> string, header: string, body: string, secrets: seq<string>,
                      tolerance: int, now: int)
    requires RustTimestamp(header).Some? && !OutsideTolerance(now, RustTimestamp(header).value, tolerance)
    ensures VerifyStripe(mac, Some(header), body, secrets, tolerance, now) ==
      if Signs(mac, secrets, RepeatedParts(header, ',', "v1"), PrintInt(RustTimestamp(header).value) + "." + body)
      then Accepted else InvalidSignature
  {
    var signed := PrintInt(RustTimestamp(header).value) + "." + body;
    if secret, d :| secret in secrets && d in RepeatedParts(header, ',', "v1") && mac(secret, signed) == d {
      var i :| 0 <= i < |secrets| && secrets[i] == secret;
    }
  }

  /** The verdict on any header, from its t and v1 values: the last t counts, and
      any digest under any secret will do. */
  lemma VerdictIs(mac: (string, string) -> string, header: string, body: string, secrets: seq<string>,
                  tolerance: int, now: int)
    ensures VerifyStripe(mac, None, body, secrets, tolerance, now) == MissingHeader
    ensures var ts, digests := ValuesOf(Rust, Split(header, ','), "t"), ValuesOf(Rust, Split(header, ','), "v1");
      var verdict := VerifyStripe(mac, Some(header), body, secrets, tolerance, now);
      if ts == [] || ParseInt(ts[|ts| - 1]).None? then verdict == MissingTimestamp
      else
        var timestamp := ParseInt(ts[|ts| - 1]).value;
        var signed := PrintInt(timestamp) + "." + body;
        if OutsideTolerance(now, timestamp, tolerance) then verdict == OutOfTime
        else verdict == if Signs(mac, secrets, digests, signed) then Accepted else InvalidSignature
  {
    RustTimeIs(header);
    var time := RustTimestamp(header);
    if time.Some? && !OutsideTolerance(now, time.value, tolerance) {
      VerdictInTime(mac, header, body, secrets, tolerance, now);
    }
  }

  /** A header may carry several digests. */
  function PrintDigests(digests: seq<string>): string {
    if digests == [] then "" else ",v1=" + digests[0] + PrintDigests(digests[1..])
  }

  predicate AllHex(digests: seq<string>) {
    forall d | d in digests :: IsHex(d)
  }

  lemma DigestIsRead(digest: string)
    requires IsHex(digest)
    ensures KeyValue(Rust, "v1=" + digest) == Some(("v1", digest))
  {
    assert digest[0] in digest && digest[|digest| - 1] in digest;
    PieceOf(Rust, "v1", digest);
    assert "v1" + "=" + digest == "v1=" + digest;
  }

  lemma {:induction false} ManyPieces(first: string, digests: seq<string>)
    requires ',' !in first && AllHex(digests)
    ensures var pieces := Split(first + PrintDigests(digests), ',');
      && pieces != [] && pieces[0] == first
      && ValuesOf(Rust, pieces[1..], "v1") == digests && ValuesOf(Rust, pieces[1..], "t") == []
    decreases |digests|
  {
    if digests == [] {
      SplitOnceNone(first, ',');
      assert first + "" == first;
    } else {
      var second, rest := "v1=" + digests[0], PrintDigests(digests[1..]);
      assert first + PrintDigests(digests) == first + "," + (second + rest);
      SplitCons(first, second + rest);
      assert digests[0] in digests && ',' !in second;
      ManyPieces(second, digests[1..]);
      var pieces := Split(second + rest, ',');
      DigestIsRead(digests[0]);
      assert pieces == [second] + pieces[1..] && digests == [digests[0]] + digests[1..];
      ValuesCons(Rust, second, pieces[1..], "v1");
      ValuesCons(Rust, second, pieces[1..], "t");
    }
  }

  lemma ManyDigests(timestamp: int, digests: seq<string>)
    requires AllHex(digests) && I64_MIN <= timestamp <= I64_MAX
    ensures var header := "t=" + PrintInt(timestamp) + PrintDigests(digests);
      RepeatedParts(header, ',', "v1") == digests && RustTimestamp(header) == Some(timestamp)
  {
    var first := "t=" + PrintInt(timestamp);
    var header := first + PrintDigests(digests);
    var pieces := Split(header, ',');
    PrintedCharacters(Rust, timestamp);
    PrintedTime(Rust, timestamp);
    ManyPieces(first, digests);
    assert pieces == [first] + pieces[1..];
    ValuesCons(Rust, first, pieces[1..], "v1");
    ValuesCons(Rust, first, pieces[1..], "t");
    PrintParses(timestamp);
    SemicolonIsLastRepeated(header, ',', "t");
  }

  /** Any digest of the header under any secret will do, and there is no other
      way to be accepted. */
  lemma AnyDigestCounts(mac: (string, string) -> string, timestamp: int, digests: seq<string>, body: string,
                        secrets: seq<string>, tolerance: int, now: int)
    requires AllHex(digests) && I64_MIN <= timestamp <= I64_MAX && 0 <= now <= I64_MAX
    ensures var signed := PrintInt(timestamp) + "." + body;
      VerifyStripe(mac, Some("t=" + PrintInt(timestamp) + PrintDigests(digests)), body, secrets, tolerance, now) ==
        if OutsideTolerance(now, timestamp, tolerance) then OutOfTime
        else if Signs(mac, secrets, digests, signed) then Accepted
        else InvalidSignature
    ensures now - timestamp <= I64_MAX ==>
      (OutsideTolerance(now, timestamp, tolerance) <==> Distance(now, timestamp) > tolerance)
  {
    ManyDigests(timestamp, digests);
    ElapsedIs(now, timestamp);
    if !OutsideTolerance(now, timestamp, tolerance) {
      VerdictInTime(mac, "t=" + PrintInt(timestamp) + PrintDigests(digests), body, secrets, tolerance, now);
    }
  }
}
