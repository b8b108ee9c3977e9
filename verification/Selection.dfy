/** `SELECT id ... ORDER BY received_at ASC, id ASC LIMIT n`: the n least ids of
    a set under the order (received_at, id). The column received_at is a map. */
module Selection {
  import opened Schema

  predicate Before(key: map<Id, int>, x: Id, y: Id)
    requires x in key && y in key
  {
    key[x] < key[y] || (key[x] == key[y] && x < y)
  }

  ghost predicate IsLeast(key: map<Id, int>, s: set<Id>, m: Id)
    requires s <= key.Keys
  {
    m in s && forall x | x in s && x != m :: Before(key, m, x)
  }

  lemma {:induction false} LeastExists(key: map<Id, int>, s: set<Id>)
    requires s <= key.Keys && s != {}
    ensures exists m :: IsLeast(key, s, m)
  {
    var x :| x in s;
    var rest := s - {x};
    assert forall y | y in s && y != x :: y in rest;
    if rest == {} {
      assert IsLeast(key, s, x);
    } else {
      LeastExists(key, rest);
      var m :| IsLeast(key, rest, m);
      assert IsLeast(key, s, if Before(key, m, x) then m else x);
    }
  }

  function Least(key: map<Id, int>, s: set<Id>): (m: Id)
    requires s <= key.Keys && s != {}
    ensures IsLeast(key, s, m)
  {
    LeastExists(key, s);
    assert forall m | IsLeast(key, s, m) :: m in s && forall x | x in s && x != m :: Before(key, m, x);
    var m :| m in s && forall x | x in s && x != m :: Before(key, m, x);
    m
  }

  function Take(key: map<Id, int>, s: set<Id>, n: nat): (ids: seq<Id>)
    requires s <= key.Keys
    decreases n
  {
    if n == 0 || s == {} then []
    else
      var m := Least(key, s);
      [m] + Take(key, s - {m}, n - 1)
  }

  function Set(ids: seq<Id>): (s: set<Id>) {
    set x | x in ids
  }

  /** An answer to the query, described without computing it: min(n, |s|)
      distinct ids of s in strictly increasing order, each before every id of s
      that is left out. */
  ghost predicate IsTake(key: map<Id, int>, s: set<Id>, n: nat, ids: seq<Id>)
    requires s <= key.Keys
  {
    && Set(ids) <= s
    && |ids| == (if n < |s| then n else |s|)
    && (forall i, k | 0 <= i < k < |ids| :: ids[i] in key && ids[k] in key && Before(key, ids[i], ids[k]))
    && (forall x, y | x in ids && y in s && y !in ids :: Before(key, x, y))
  }

  lemma {:induction false} TakeMeets(key: map<Id, int>, s: set<Id>, n: nat)
    requires s <= key.Keys
    ensures IsTake(key, s, n, Take(key, s, n))
    decreases n
  {
    if n > 0 && s != {} {
      var m := Least(key, s);
      TakeMeets(key, s - {m}, n - 1);
      var rest := Take(key, s - {m}, n - 1);
      assert forall x | x in rest :: x in Set(rest);
      assert Take(key, s, n) == [m] + rest;
    }
  }

  /** The description has one answer only. */
  lemma {:induction false} TakeIsUnique(key: map<Id, int>, s: set<Id>, n: nat, ids: seq<Id>)
    requires s <= key.Keys && IsTake(key, s, n, ids)
    ensures ids == Take(key, s, n)
    decreases n
  {
    if n == 0 || s == {} {
    } else {
      var m := Least(key, s);
      assert ids[0] in Set(ids);
      assert m !in ids ==> Before(key, ids[0], m);
      var i :| 0 <= i < |ids| && ids[i] == m;
      assert i == 0;
      var rest := ids[1..];
      assert ids == [m] + rest;
      assert m !in rest;
      forall x | x in Set(rest) ensures x in s - {m} { assert x in Set(ids); }
      TakeIsUnique(key, s - {m}, n - 1, rest);
    }
  }

  lemma {:induction false} TakeSplits(key: map<Id, int>, s: set<Id>, a: nat, b: nat)
    requires s <= key.Keys
    ensures Take(key, s, a + b) == Take(key, s, a) + Take(key, s - Set(Take(key, s, a)), b)
    decreases a
  {
    if a == 0 || s == {} {
      assert s - Set([]) == s;
    } else {
      var m := Least(key, s);
      var rest := s - {m};
      var first := Take(key, rest, a - 1);
      TakeSplits(key, rest, a - 1, b);
      SetCons(m, first);
      assert rest - Set(first) == s - Set([m] + first);
      assert Take(key, s, a + b) == [m] + Take(key, rest, a - 1 + b);
    }
  }

  lemma SetCons(m: Id, ids: seq<Id>)
    ensures Set([m] + ids) == {m} + Set(ids)
  {
    forall x ensures x in Set([m] + ids) <==> x in {m} + Set(ids) {
      assert x in [m] + ids <==> x == m || x in ids;
    }
  }

  lemma {:induction false} SetSize(ids: seq<Id>)
    requires forall i, k | 0 <= i < k < |ids| :: ids[i] != ids[k]
    ensures |Set(ids)| == |ids|
  {
    if ids != [] {
      SetSize(ids[1..]);
      SetCons(ids[0], ids[1..]);
      assert ids == [ids[0]] + ids[1..];
    }
  }

  lemma TakeDistinct(key: map<Id, int>, s: set<Id>, n: nat)
    requires s <= key.Keys
    ensures |Set(Take(key, s, n))| == |Take(key, s, n)|
  {
    TakeMeets(key, s, n);
    SetSize(Take(key, s, n));
  }
}
