/** Id-keyed tables as `MemStorage` keeps them: a map from sequential ids
    to records, and the counter that hands out the next id. Because ids are
    handed out 1, 2, 3, ... and never removed, the map's keys are exactly
    `1 .. next - 1`, and JavaScript's insertion order over the map's values
    is ascending id order. */
module Tables {

  /** The table holds exactly the ids below `next`, each record under its
      own id. */
  ghost predicate Keyed<T>(m: map<int, T>, next: int, id: T -> int) {
    && next >= 1
    && (forall k :: k in m <==> 1 <= k < next)
    && (forall k :: k in m ==> id(m[k]) == k)
  }

  /** Ids strictly increase along `s`: each record appears once, in the
      order it was inserted. */
  ghost predicate IdsAscending<T>(s: seq<T>, id: T -> int) {
    forall i, j :: 0 <= i < j < |s| ==> id(s[i]) < id(s[j])
  }

  /** `Array.from(m.values())`: the records in insertion (= id) order. */
  function InIdOrder<T>(m: map<int, T>, next: int): (s: seq<T>)
    requires forall k :: 1 <= k < next ==> k in m
    ensures |s| == if next < 1 then 0 else next - 1
    ensures forall i :: 0 <= i < |s| ==> s[i] == m[i + 1]
    decreases next
  {
    if next <= 1 then [] else InIdOrder(m, next - 1) + [m[next - 1]]
  }

  /** The values of a keyed table, listed in id order, are exactly its
      stored records, each found under its own id, and their ids ascend. */
  lemma InIdOrderIsTable<T>(m: map<int, T>, next: int, id: T -> int)
    requires Keyed(m, next, id)
    ensures forall k :: k in m ==> m[k] in InIdOrder(m, next)
    ensures forall x :: x in InIdOrder(m, next) ==> id(x) in m && m[id(x)] == x
    ensures IdsAscending(InIdOrder(m, next), id)
  {
    var s := InIdOrder(m, next);
    forall k | k in m
      ensures m[k] in s
    {
      assert s[k - 1] == m[k];
    }
    forall x | x in s
      ensures id(x) in m && m[id(x)] == x
    {
      var i :| 0 <= i < |s| && s[i] == x;
      assert x == m[i + 1];
    }
    forall i, j | 0 <= i < j < |s|
      ensures id(s[i]) < id(s[j])
    {
      assert id(s[i]) == i + 1 && id(s[j]) == j + 1;
    }
  }

  /** Two lists with the same multiset of elements hold the same elements. */
  lemma SameElements<T>(a: seq<T>, b: seq<T>)
    requires multiset(a) == multiset(b)
    ensures forall x :: x in a <==> x in b
  {
    forall x
      ensures x in a <==> x in b
    {
      assert x in a <==> x in multiset(a);
      assert x in b <==> x in multiset(b);
    }
  }

  /** Adding the record with the next id appends it to the id-ordered view. */
  lemma InIdOrderExtend<T>(m: map<int, T>, next: int, x: T)
    requires next >= 1
    requires forall k :: 1 <= k < next ==> k in m
    ensures InIdOrder(m[next := x], next + 1) == InIdOrder(m, next) + [x]
  {
    var a := InIdOrder(m[next := x], next + 1);
    var b := InIdOrder(m, next) + [x];
    assert |a| == |b|;
    forall i | 0 <= i < |a|
      ensures a[i] == b[i]
    {
    }
  }

  /** `s.filter(keep)`. */
  function Filter<T(!new)>(s: seq<T>, keep: T -> bool): (r: seq<T>)
    ensures forall x :: x in r <==> x in s && keep(x)
    ensures |r| <= |s|
  {
    if s == [] then []
    else
      var init := Filter(s[..|s| - 1], keep);
      assert forall x :: x in s <==> x in s[..|s| - 1] || x == s[|s| - 1];
      if keep(s[|s| - 1]) then init + [s[|s| - 1]] else init
  }

  /** Filtering a list with one more record at the end. */
  lemma FilterSnoc<T(!new)>(s: seq<T>, x: T, keep: T -> bool)
    ensures Filter(s + [x], keep) == if keep(x) then Filter(s, keep) + [x] else Filter(s, keep)
  {
    assert (s + [x])[..|s|] == s;
  }

  /** One step of the query loop: the record under id `k` is kept or not. */
  lemma SelectStep<T(!new)>(m: map<int, T>, k: int, keep: T -> bool)
    requires k >= 1 && k in m
    requires forall j :: 1 <= j < k ==> j in m
    ensures Filter(InIdOrder(m, k + 1), keep)
         == if keep(m[k]) then Filter(InIdOrder(m, k), keep) + [m[k]] else Filter(InIdOrder(m, k), keep)
  {
    assert InIdOrder(m, k + 1) == InIdOrder(m, k) + [m[k]];
    FilterSnoc(InIdOrder(m, k), m[k], keep);
  }

  /** Filtering keeps the order of what it keeps. */
  lemma {:induction false} FilterAscending<T(!new)>(s: seq<T>, keep: T -> bool, id: T -> int)
    requires IdsAscending(s, id)
    ensures IdsAscending(Filter(s, keep), id)
  {
    if s != [] {
      var init := s[..|s| - 1];
      FilterAscending(init, keep, id);
      var last := s[|s| - 1];
      forall x | x in Filter(init, keep)
        ensures id(x) < id(last)
      {
        var i :| 0 <= i < |init| && init[i] == x;
      }
    }
  }

  /** The query loop: walk the table in id order and keep the records that
      satisfy `keep`. */
  method Select<T(!new)>(m: map<int, T>, next: int, keep: T -> bool) returns (r: seq<T>)
    requires next >= 1
    requires forall k :: 1 <= k < next ==> k in m
    ensures r == Filter(InIdOrder(m, next), keep)
  {
    r := [];
    var k := 1;
    while k < next
      invariant 1 <= k <= next
      invariant r == Filter(InIdOrder(m, k), keep)
    {
      var x := m[k];
      SelectStep(m, k, keep);
      if keep(x) {
        r := r + [x];
      }
      k := k + 1;
    }
  }
}
