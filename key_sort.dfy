/**
 * PHP's `ksort` on integer keys, followed by reading the values in key
 * order, as getProductEstimate (Model/Service/Outbound.php) does with its
 * dates array.
 */
module KeySort {
  lemma SomeKey(s: set<int>)
    requires s != {}
    ensures exists y :: y in s
  {
    if forall y :: y !in s {
      assert false;
    }
  }

  /** The least element of a non-empty set of keys. */
  ghost function MinOf(s: set<int>): (m: int)
    requires s != {}
    ensures m in s && forall x :: x in s ==> m <= x
    decreases |s|
  {
    SomeKey(s);
    var y :| y in s;
    if s == {y} then y
    else
      var r := MinOf(s - {y});
      assert forall x :: x in s ==> x == y || x in s - {y};
      if y < r then y else r
  }

  /** The keys of a set in ascending order: what `ksort` leaves behind. */
  ghost function SortedKeys(s: set<int>): (r: seq<int>)
    ensures |r| == |s|
    ensures forall i :: 0 <= i < |r| ==> r[i] in s
    decreases s
  {
    if s == {} then []
    else
      var m := MinOf(s);
      [m] + SortedKeys(s - {m})
  }

  /** Every key is listed: with the length, SortedKeys(s) lists each key of s exactly once. */
  lemma {:induction false} SortedKeysComplete(s: set<int>, x: int)
    requires x in s
    ensures x in SortedKeys(s)
    decreases s
  {
    var m := MinOf(s);
    if x != m {
      SortedKeysComplete(s - {m}, x);
      assert SortedKeys(s) == [m] + SortedKeys(s - {m});
    }
  }

  /** The keys come out strictly ascending. */
  lemma {:induction false} SortedKeysAscending(s: set<int>)
    ensures forall i, j :: 0 <= i < j < |SortedKeys(s)| ==> SortedKeys(s)[i] < SortedKeys(s)[j]
    decreases s
  {
    if s != {} {
      var m := MinOf(s);
      var t := SortedKeys(s - {m});
      SortedKeysAscending(s - {m});
      var r := SortedKeys(s);
      assert r == [m] + t;
      forall i, j | 0 <= i < j < |r| ensures r[i] < r[j] {
        assert r[j] == t[j - 1] && t[j - 1] in s - {m};
        if i > 0 {
          assert r[i] == t[i - 1];
        }
      }
    }
  }

  /** Taking any minimum of the set first is what SortedKeys does. */
  lemma SortedKeysMin(s: set<int>, m: int)
    requires m in s && forall x :: x in s ==> m <= x
    ensures SortedKeys(s) == [m] + SortedKeys(s - {m})
  {
    assert MinOf(s) == m;
  }

  /** One selection step of SortedRows: the least remaining key is the next sorted key. */
  lemma SortedRowsStep(all: seq<int>, done: seq<int>, remaining: set<int>, m: int)
    requires m in remaining && forall x :: x in remaining ==> m <= x
    requires done + SortedKeys(remaining) == all
    ensures (done + [m]) + SortedKeys(remaining - {m}) == all
    ensures |done| < |all| && all[|done|] == m
  {
    SortedKeysMin(remaining, m);
    assert (done + [m]) + SortedKeys(remaining - {m}) == done + ([m] + SortedKeys(remaining - {m}));
  }

  /** `ksort` followed by reading the values: the rows in ascending key order. */
  method SortedRows<V>(dates: map<int, V>) returns (rates: seq<V>)
    ensures |rates| == |dates|
    ensures forall i :: 0 <= i < |rates| ==> rates[i] == dates[SortedKeys(dates.Keys)[i]]
  {
    ghost var all := SortedKeys(dates.Keys);
    rates := [];
    var remaining := dates.Keys;
    ghost var done: seq<int> := [];
    while remaining != {}
      invariant remaining <= dates.Keys
      invariant done + SortedKeys(remaining) == all
      invariant |rates| == |done|
      invariant forall k :: 0 <= k < |rates| ==> rates[k] == dates[all[k]]
      decreases |remaining|
    {
      assert MinOf(remaining) in remaining && forall x :: x in remaining ==> MinOf(remaining) <= x;
      var m :| m in remaining && forall x :: x in remaining ==> m <= x;
      SortedRowsStep(all, done, remaining, m);
      rates := rates + [dates[m]];
      done := done + [m];
      remaining := remaining - {m};
    }
    assert done == all;
  }
}
