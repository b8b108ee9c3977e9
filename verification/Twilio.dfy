/** The payload Twilio signs: the form parameters in stable order of their keys. */
module Twilio {
  type Param = (string, string)

  // ---- the order of keys ----

  /** Lexicographic order. */
  predicate AtMost(x: string, y: string) {
    if x == "" then true
    else if y == "" then false
    else x[0] < y[0] || (x[0] == y[0] && AtMost(x[1..], y[1..]))
  }

  lemma {:induction false} AtMostTotal(x: string, y: string)
    ensures AtMost(x, y) || AtMost(y, x)
  {
    if x != "" && y != "" { AtMostTotal(x[1..], y[1..]); }
  }

  lemma {:induction false} AtMostAntisymmetric(x: string, y: string)
    requires AtMost(x, y) && AtMost(y, x)
    ensures x == y
  {
    if x != "" && y != "" {
      AtMostAntisymmetric(x[1..], y[1..]);
      assert x == [x[0]] + x[1..] && y == [y[0]] + y[1..];
    }
  }

  lemma {:induction false} AtMostTransitive(x: string, y: string, z: string)
    requires AtMost(x, y) && AtMost(y, z)
    ensures AtMost(x, z)
  {
    if x != "" && y != "" && z != "" && x[0] == y[0] == z[0] { AtMostTransitive(x[1..], y[1..], z[1..]); }
  }

  /** x is before y in a dictionary: it is shorter and y starts with it, or it has
      the smaller character where they first differ. */
  ghost predicate Precedes(x: string, y: string) {
    exists k :: ComesFirst(x, y, k)
  }

  ghost predicate ComesFirst(x: string, y: string, k: int) {
    0 <= k <= |x| && k < |y| && x[..k] == y[..k] && (k == |x| || x[k] < y[k])
  }

  lemma {:induction false} AtMostPrecedes(x: string, y: string)
    requires AtMost(x, y) && x != y
    ensures Precedes(x, y)
  {
    if x == "" || x[0] < y[0] {
      assert ComesFirst(x, y, 0);
    } else {
      assert x == [x[0]] + x[1..] && y == [y[0]] + y[1..];
      AtMostPrecedes(x[1..], y[1..]);
      var k :| ComesFirst(x[1..], y[1..], k);
      assert x[..k + 1] == [x[0]] + x[1..][..k] && y[..k + 1] == [y[0]] + y[1..][..k];
      assert ComesFirst(x, y, k + 1);
    }
  }

  lemma {:induction false} PrecedesAtMost(x: string, y: string, k: nat)
    requires ComesFirst(x, y, k)
    ensures AtMost(x, y)
  {
    if k > 0 {
      assert x[0] == x[..k][0] == y[..k][0] == y[0];
      assert x[1..][..k - 1] == x[..k][1..] && y[1..][..k - 1] == y[..k][1..];
      PrecedesAtMost(x[1..], y[1..], k - 1);
    }
  }

  lemma AtMostIsPrecedes(x: string, y: string)
    ensures AtMost(x, y) <==> x == y || Precedes(x, y)
  {
    if x == y {
      SelfAtMost(x);
    } else if AtMost(x, y) {
      AtMostPrecedes(x, y);
    } else if Precedes(x, y) {
      var k :| ComesFirst(x, y, k);
      PrecedesAtMost(x, y, k);
    }
  }

  // ---- the stable sort ----

  predicate Sorted(ps: seq<Param>) {
    forall i, k | 0 <= i < k < |ps| :: AtMost(ps[i].0, ps[k].0)
  }

  /** Before the first parameter with a key at least as large. */
  function Insert(p: Param, ps: seq<Param>): seq<Param> {
    if ps == [] || AtMost(p.0, ps[0].0) then [p] + ps else [ps[0]] + Insert(p, ps[1..])
  }

  function StableSort(ps: seq<Param>): seq<Param> {
    if ps == [] then [] else Insert(ps[0], StableSort(ps[1..]))
  }

  /** The values of one key, in order. */
  function Values(ps: seq<Param>, key: string): seq<string> {
    if ps == [] then []
    else if ps[0].0 == key then [ps[0].1] + Values(ps[1..], key)
    else Values(ps[1..], key)
  }

  lemma {:induction false} InsertSorts(p: Param, ps: seq<Param>)
    requires Sorted(ps)
    ensures Sorted(Insert(p, ps))
    ensures forall q | q in Insert(p, ps) :: q == p || q in ps
  {
    if ps == [] || AtMost(p.0, ps[0].0) {
      forall k | 0 <= k < |ps| ensures AtMost(p.0, ps[k].0) {
        if k > 0 { AtMostTransitive(p.0, ps[0].0, ps[k].0); }
      }
    } else {
      AtMostTotal(p.0, ps[0].0);
      InsertSorts(p, ps[1..]);
      var rest := Insert(p, ps[1..]);
      forall k | 0 <= k < |rest| ensures AtMost(ps[0].0, rest[k].0) { assert rest[k] in rest; }
    }
  }

  lemma {:induction false} InsertKeepsValues(p: Param, ps: seq<Param>, key: string)
    ensures Values(Insert(p, ps), key) == Values([p] + ps, key)
  {
    assert ([p] + ps)[1..] == ps;
    if ps != [] && !AtMost(p.0, ps[0].0) {
      InsertKeepsValues(p, ps[1..], key);
      var rest := Insert(p, ps[1..]);
      assert ([p] + ps[1..])[1..] == ps[1..];
      assert ([ps[0]] + rest)[1..] == rest;
      SelfAtMost(p.0);
    }
  }

  lemma {:induction false} SelfAtMost(x: string)
    ensures AtMost(x, x)
  {
    if x != "" { SelfAtMost(x[1..]); }
  }

  /** The result is in key order, and no key's values are lost, added or
      reordered. */
  lemma {:induction false} StableSortSorts(ps: seq<Param>)
    ensures Sorted(StableSort(ps))
    ensures forall key :: Values(StableSort(ps), key) == Values(ps, key)
  {
    if ps != [] {
      var rest := StableSort(ps[1..]);
      StableSortSorts(ps[1..]);
      InsertSorts(ps[0], rest);
      forall key ensures Values(StableSort(ps), key) == Values(ps, key) {
        InsertKeepsValues(ps[0], rest, key);
        assert ([ps[0]] + rest)[1..] == rest;
      }
    }
  }

  lemma {:induction false} KeyFound(ps: seq<Param>, key: string) returns (i: nat)
    requires Values(ps, key) != []
    ensures i < |ps| && ps[i].0 == key
  {
    if ps[0].0 == key {
      i := 0;
    } else {
      var k := KeyFound(ps[1..], key);
      i := k + 1;
    }
  }

  lemma FirstKeyLeast(xs: seq<Param>, ys: seq<Param>)
    requires Sorted(ys) && xs != [] && ys != []
    requires forall key :: Values(xs, key) == Values(ys, key)
    ensures AtMost(ys[0].0, xs[0].0)
  {
    assert Values(xs, xs[0].0) != [];
    var i := KeyFound(ys, xs[0].0);
    SelfAtMost(ys[0].0);
  }

  lemma NoValuesNoParams(ps: seq<Param>)
    requires forall key :: Values(ps, key) == []
    ensures ps == []
  {
    assert ps != [] ==> Values(ps, ps[0].0) != [];
  }

  /** The order and each key's values leave one list only. */
  lemma {:induction false} SortedIsUnique(xs: seq<Param>, ys: seq<Param>)
    requires Sorted(xs) && Sorted(ys)
    requires forall key :: Values(xs, key) == Values(ys, key)
    ensures xs == ys
  {
    if xs == [] {
      NoValuesNoParams(ys);
    } else if ys == [] {
      NoValuesNoParams(xs);
    } else {
      FirstKeyLeast(xs, ys);
      FirstKeyLeast(ys, xs);
      AtMostAntisymmetric(xs[0].0, ys[0].0);
      var key := xs[0].0;
      assert Values(xs, key) == [xs[0].1] + Values(xs[1..], key);
      assert Values(ys, key) == [ys[0].1] + Values(ys[1..], key);
      assert xs[0].1 == Values(xs, key)[0] == Values(ys, key)[0] == ys[0].1;
      forall k ensures Values(xs[1..], k) == Values(ys[1..], k) {
        assert Values(xs, k) == Values(ys, k);
        if k == key {
          assert Values(xs[1..], k) == Values(xs, k)[1..] == Values(ys, k)[1..] == Values(ys[1..], k);
        }
      }
      SortedIsUnique(xs[1..], ys[1..]);
      assert xs == [xs[0]] + xs[1..] && ys == [ys[0]] + ys[1..];
    }
  }

  // ---- the payload ----

  function Joined(ps: seq<Param>): string
    decreases |ps|
  {
    if ps == [] then ""
    else
      var last := ps[|ps| - 1];
      Joined(ps[..|ps| - 1]) + last.0 + last.1
  }

  function SignedPayload(url: string, ps: seq<Param>): string {
    url + Joined(StableSort(ps))
  }

  method TwilioSignedPayload(url: string, params: seq<Param>) returns (signed: string)
    ensures signed == SignedPayload(url, params)
  {
    var sorted := StableSort(params);
    signed := url;
    for i := 0 to |sorted|
      invariant signed == url + Joined(sorted[..i])
    {
      assert sorted[..i + 1][..i] == sorted[..i];
      signed := signed + sorted[i].0;
      signed := signed + sorted[i].1;
    }
    assert sorted[..|sorted|] == sorted;
  }

  lemma {:induction false} StableSortKeeps(ps: seq<Param>)
    ensures forall p | p in StableSort(ps) :: p in ps
  {
    if ps != [] {
      StableSortKeeps(ps[1..]);
      StableSortSorts(ps[1..]);
      InsertSorts(ps[0], StableSort(ps[1..]));
    }
  }

  lemma {:induction false} ValuesAppend(xs: seq<Param>, ys: seq<Param>, key: string)
    ensures Values(xs + ys, key) == Values(xs, key) + Values(ys, key)
  {
    if xs == [] {
      assert xs + ys == ys;
    } else {
      ValuesAppend(xs[1..], ys, key);
      assert (xs + ys)[1..] == xs[1..] + ys;
    }
  }

  lemma {:induction false} JoinedAppend(xs: seq<Param>, ys: seq<Param>)
    ensures Joined(xs + ys) == Joined(xs) + Joined(ys)
    decreases |ys|
  {
    if ys == [] {
      assert xs + ys == xs;
    } else {
      var n := |ys| - 1;
      JoinedAppend(xs, ys[..n]);
      assert (xs + ys)[..|xs + ys| - 1] == xs + ys[..n];
    }
  }

  lemma PayloadOfNone(url: string)
    ensures SignedPayload(url, []) == url
  {
  }

  lemma PayloadOfOne(url: string, key: string, value: string)
    ensures SignedPayload(url, [(key, value)]) == url + key + value
  {
    var ps := [(key, value)];
    assert StableSort(ps) == ps && ps[..|ps| - 1] == [];
    assert Joined(ps) == key + value;
  }

  /** However parameters ys are mixed with parameters xs whose keys are before
      theirs, or the same and taken first, they are signed after them: the
      payload goes on from that of xs. */
  lemma PayloadInOrder(url: string, xs: seq<Param>, ys: seq<Param>, mixed: seq<Param>)
    requires forall x, y | x in xs && y in ys :: x.0 == y.0 || Precedes(x.0, y.0)
    requires forall key :: Values(mixed, key) == Values(xs, key) + Values(ys, key)
    ensures SignedPayload(url, mixed) == SignedPayload(SignedPayload(url, xs), ys)
  {
    var first, second := StableSort(xs), StableSort(ys);
    StableSortSorts(xs);
    StableSortSorts(ys);
    StableSortSorts(mixed);
    SortedTogether(xs, ys);
    forall key ensures Values(StableSort(mixed), key) == Values(first + second, key) {
      ValuesAppend(first, second, key);
    }
    SortedIsUnique(StableSort(mixed), first + second);
    JoinedAppend(first, second);
  }

  lemma SortedTogether(xs: seq<Param>, ys: seq<Param>)
    requires forall x, y | x in xs && y in ys :: x.0 == y.0 || Precedes(x.0, y.0)
    ensures Sorted(StableSort(xs) + StableSort(ys))
  {
    StableSortSorts(xs);
    StableSortSorts(ys);
    StableSortKeeps(xs);
    StableSortKeeps(ys);
    var first, both := StableSort(xs), StableSort(xs) + StableSort(ys);
    forall i, k | 0 <= i < |first| <= k < |both| ensures AtMost(both[i].0, both[k].0) {
      assert both[i] in xs && both[k] in ys;
      AtMostIsPrecedes(both[i].0, both[k].0);
    }
  }

  /** Lists that give every key the same values in the same order are signed
      alike, however their keys are interleaved. */
  lemma CanonicalForm(url: string, xs: seq<Param>, ys: seq<Param>)
    requires forall key :: Values(xs, key) == Values(ys, key)
    ensures SignedPayload(url, xs) == SignedPayload(url, ys)
  {
    StableSortSorts(xs);
    StableSortSorts(ys);
    SortedIsUnique(StableSort(xs), StableSort(ys));
  }
}
