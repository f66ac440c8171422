/** ORDER BY on a set of row ids: a sort key first, the row id as the tie-break. */
module Ordering {
  predicate Before(key: nat -> int, a: nat, b: nat) {
    key(a) < key(b) || (key(a) == key(b) && a < b)
  }

  predicate IsLeast(s: set<nat>, key: nat -> int, m: nat) {
    m in s && forall u :: u in s && u != m ==> Before(key, m, u)
  }

  lemma LeastExists(s: set<nat>, key: nat -> int)
    requires s != {}
    ensures exists m :: IsLeast(s, key, m)
  {
    var m :| m in s;
    if s == {m} {
      assert IsLeast(s, key, m);
    } else {
      LeastExists(s - {m}, key);
      var n: nat :| IsLeast(s - {m}, key, n);
      LeastOfOneMore(s, key, m, n);
    }
  }

  lemma LeastOfOneMore(s: set<nat>, key: nat -> int, m: nat, n: nat)
    requires m in s && IsLeast(s - {m}, key, n)
    ensures IsLeast(s, key, if Before(key, m, n) then m else n)
  {
    forall u | u in s && u != m && u != n
      ensures Before(key, n, u)
    {
      assert u in s - {m};
    }
  }

  function Least(s: set<nat>, key: nat -> int): (m: nat)
    requires s != {}
    ensures m in s && forall u :: u in s && u != m ==> Before(key, m, u)
  {
    LeastExists(s, key);
    var m :| IsLeast(s, key, m);
    m
  }

  function SortBy(s: set<nat>, key: nat -> int): (r: seq<nat>)
    ensures |r| == |s|
    ensures forall x :: x in r <==> x in s
    ensures forall i, j :: 0 <= i < j < |r| ==> Before(key, r[i], r[j])
  {
    if s == {} then [] else
      var m := Least(s, key);
      [m] + SortBy(s - {m}, key)
  }

  lemma {:induction false} SortByAgrees(s: set<nat>, key: nat -> int, other: nat -> int)
    requires forall x :: x in s ==> key(x) == other(x)
    ensures SortBy(s, key) == SortBy(s, other)
  {
    if s != {} {
      var m, n := Least(s, key), Least(s, other);
      assert m != n ==> Before(key, m, n) && Before(other, n, m);
      SortByAgrees(s - {m}, key, other);
    }
  }

  ghost function Preceding(s: set<nat>, key: nat -> int, x: nat): set<nat> {
    set u | u in s && Before(key, u, x)
  }

  lemma {:induction false} RankIsIndex(s: set<nat>, key: nat -> int, i: nat)
    requires i < |SortBy(s, key)|
    ensures |Preceding(s, key, SortBy(s, key)[i])| == i
  {
    var m := Least(s, key);
    var rest := SortBy(s - {m}, key);
    assert SortBy(s, key) == [m] + rest;
    if i == 0 {
      assert Preceding(s, key, m) == {};
    } else {
      RankIsIndex(s - {m}, key, i - 1);
      PrecedingOneMore(s, key, m, rest[i - 1]);
    }
  }

  lemma PrecedingOneMore(s: set<nat>, key: nat -> int, m: nat, x: nat)
    requires m in s && x in s && x != m && Before(key, m, x)
    ensures |Preceding(s, key, x)| == |Preceding(s - {m}, key, x)| + 1
  {
    assert Preceding(s, key, x) == Preceding(s - {m}, key, x) + {m};
  }

  /** LIMIT k after ORDER BY keeps exactly the rows that fewer than k rows precede. */
  function Limit(r: seq<nat>, k: nat): seq<nat> {
    if k < |r| then r[..k] else r
  }

  lemma LimitByRank(s: set<nat>, key: nat -> int, k: nat, x: nat)
    ensures x in Limit(SortBy(s, key), k) <==> x in s && |Preceding(s, key, x)| < k
  {
    var r := SortBy(s, key);
    if x in s {
      var i :| 0 <= i < |r| && r[i] == x;
      RankIsIndex(s, key, i);
      InPrefix(r, k, i);
    }
  }

  lemma InPrefix(r: seq<nat>, k: nat, i: nat)
    requires i < |r| && forall j :: 0 <= j < |r| && r[j] == r[i] ==> j == i
    ensures r[i] in Limit(r, k) <==> i < k
  {
    if i < k {
      assert Limit(r, k)[i] == r[i];
    }
  }
}
