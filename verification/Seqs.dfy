/** Filtering and sorting, as the standard library's `filter`, `retain` and `sort_unstable` do them. */
module Seqs {
  import opened Types

  function Filter<T>(s: seq<T>, keep: T -> bool): seq<T> {
    if s == [] then []
    else Filter(Front(s), keep) + if keep(Last(s)) then [Last(s)] else []
  }

  lemma {:induction false} FilterMembers<T(!new)>(s: seq<T>, keep: T -> bool)
    ensures forall x :: x in Filter(s, keep) <==> x in s && keep(x)
  {
    if s != [] {
      FilterMembers(Front(s), keep);
      assert s == Front(s) + [Last(s)];
    }
  }

  lemma Find<T>(s: seq<T>, x: T) returns (i: nat)
    requires x in s
    ensures i < |s| && s[i] == x
  {
    i :| 0 <= i < |s| && s[i] == x;
  }

  /** Filtering takes a subsequence: any two kept elements come from two places in the same order. */
  lemma {:induction false} FilterEmbeds<T(!new)>(s: seq<T>, keep: T -> bool, i: nat, j: nat)
    returns (from: nat, to: nat)
    requires i < j < |Filter(s, keep)|
    ensures from < to < |s| && s[from] == Filter(s, keep)[i] && s[to] == Filter(s, keep)[j]
  {
    var front := Filter(Front(s), keep);
    if j < |front| {
      from, to := FilterEmbeds(Front(s), keep, i, j);
    } else {
      FilterMembers(Front(s), keep);
      assert front[i] in front;
      assert front[i] in Filter(Front(s), keep);
      from := Find(Front(s), front[i]);
      to := |s| - 1;
    }
  }

  lemma {:induction false} FilterAll<T>(s: seq<T>, keep: T -> bool)
    requires forall i :: 0 <= i < |s| ==> keep(s[i])
    ensures Filter(s, keep) == s
  {
    hide Filter;
    FilterStep(s, keep);
    if s != [] {
      FilterAll(Front(s), keep);
    }
  }

  lemma FilterStep<T>(s: seq<T>, keep: T -> bool)
    ensures s == [] ==> Filter(s, keep) == []
    ensures s != [] ==>
      s == Front(s) + [Last(s)] && Filter(s, keep) == Filter(Front(s), keep) + if keep(Last(s)) then [Last(s)] else []
  {
  }

  lemma {:induction false} FilterNone<T>(s: seq<T>, keep: T -> bool)
    requires forall i :: 0 <= i < |s| ==> !keep(s[i])
    ensures Filter(s, keep) == []
  {
    hide Filter;
    FilterStep(s, keep);
    if s != [] {
      FilterNone(Front(s), keep);
    }
  }

  lemma FilterDistinct<T(!new)>(s: seq<T>, keep: T -> bool)
    requires Distinct(s)
    ensures Distinct(Filter(s, keep))
  {
    forall i, j | 0 <= i < j < |Filter(s, keep)| ensures Filter(s, keep)[i] != Filter(s, keep)[j] {
      var from, to := FilterEmbeds(s, keep, i, j);
    }
  }

  lemma {:induction false} FilterConcat<T>(s: seq<T>, t: seq<T>, keep: T -> bool)
    ensures Filter(s + t, keep) == Filter(s, keep) + Filter(t, keep)
  {
    if t == [] {
      assert s + t == s;
    } else {
      assert Front(s + t) == s + Front(t);
      FilterConcat(s, Front(t), keep);
    }
  }

  ghost predicate Ascending(s: seq<Mac>) {
    forall i, j :: 0 <= i < j < |s| ==> Before(s[i], s[j])
  }

  function Insert(s: seq<Mac>, mac: Mac): seq<Mac> {
    if s == [] || Before(mac, s[0]) then [mac] + s else [s[0]] + Insert(s[1..], mac)
  }

  /** The addresses in ascending order. Distinct addresses have one such order, whatever sorts them. */
  function Sort(s: seq<Mac>): seq<Mac> {
    if s == [] then [] else Insert(Sort(Front(s)), Last(s))
  }

  lemma {:induction false} InsertAscends(s: seq<Mac>, mac: Mac)
    requires Ascending(s) && mac !in s
    ensures Ascending(Insert(s, mac))
    ensures forall m :: m in Insert(s, mac) <==> m in s || m == mac
  {
    if s == [] || Before(mac, s[0]) {
    } else {
      InsertAscends(s[1..], mac);
      assert forall m :: m in s <==> m == s[0] || m in s[1..];
      assert forall m :: m in s[1..] ==> Before(s[0], m);
      var rest := Insert(s[1..], mac);
      forall k | 0 <= k < |rest| ensures Before(s[0], rest[k]) {
        assert rest[k] in rest;
      }
    }
  }

  lemma {:induction false} SortAscends(s: seq<Mac>)
    requires Distinct(s)
    ensures Ascending(Sort(s))
    ensures forall m :: m in Sort(s) <==> m in s
  {
    if s != [] {
      SortAscends(Front(s));
      assert s == Front(s) + [Last(s)];
      InsertAscends(Sort(Front(s)), Last(s));
    }
  }

  ghost predicate SortedBy<T(!new)>(s: seq<T>, less: (T, T) -> bool) {
    forall i, j :: 0 <= i < j < |s| ==> less(s[i], s[j])
  }

  lemma LastIsGreatest<T(!new)>(s: seq<T>, less: (T, T) -> bool)
    requires forall x, y :: less(x, y) ==> !less(y, x)
    requires s != [] && SortedBy(s, less)
    ensures SortedBy(Front(s), less) && Last(s) in s
    ensures forall x :: x in Front(s) <==> x in s && x != Last(s)
    ensures forall x :: x in Front(s) ==> less(x, Last(s))
  {
    assert s == Front(s) + [Last(s)];
  }

  lemma SameEmpty<T(!new)>(a: seq<T>, b: seq<T>)
    requires forall x :: x in a <==> x in b
    ensures a == [] <==> b == []
  {
    if a != [] {
      assert a[0] in a && a[0] in b;
    }
    if b != [] {
      assert b[0] in b && b[0] in a;
    }
  }

  /** Two strictly sorted sequences with the same members are one. */
  lemma {:induction false} SortedOneWay<T(!new)>(a: seq<T>, b: seq<T>, less: (T, T) -> bool)
    requires forall x, y :: less(x, y) ==> !less(y, x)
    requires SortedBy(a, less) && SortedBy(b, less)
    requires forall x :: x in a <==> x in b
    ensures a == b
  {
    SameEmpty(a, b);
    if a != [] {
      LastIsGreatest(a, less);
      LastIsGreatest(b, less);
      SortedOneWay(Front(a), Front(b), less);
      assert a == Front(a) + [Last(a)] && b == Front(b) + [Last(b)];
    }
  }
}
