/** `sorted(..., key=id)`: the order of records by id, as a permutation of their positions. */
module Sorting {
  import opened Texts
  import opened StateMachine
  import opened Jobs
  import opened JobFacts

  predicate Positions(order: seq<nat>, n: nat) {
    forall j :: 0 <= j < |order| ==> order[j] < n
  }

  function InsertIndex(keys: seq<Text>, i: nat, order: seq<nat>): (r: seq<nat>)
    requires i < |keys| && Positions(order, |keys|)
    ensures |r| == |order| + 1 && Positions(r, |keys|)
    ensures multiset(r) == multiset(order) + multiset{i}
  {
    if order == [] || TextLess(keys[i], keys[order[0]]) then [i] + order
    else
      assert order == [order[0]] + order[1..];
      [order[0]] + InsertIndex(keys, i, order[1..])
  }

  /** The first `n` positions in the order of their keys. */
  function OrderUpTo(keys: seq<Text>, n: nat): (r: seq<nat>)
    requires n <= |keys|
    ensures |r| == n && Positions(r, |keys|)
    ensures forall x: nat :: multiset(r)[x] == if x < n then 1 else 0
  {
    if n == 0 then [] else InsertIndex(keys, n - 1, OrderUpTo(keys, n - 1))
  }

  ghost predicate InOrder(keys: seq<Text>, order: seq<nat>)
    requires Positions(order, |keys|)
  {
    forall j, k :: 0 <= j < k < |order| ==> !TextLess(keys[order[k]], keys[order[j]])
  }

  lemma InsertFirst(keys: seq<Text>, i: nat, order: seq<nat>)
    requires i < |keys| && Positions(order, |keys|) && InOrder(keys, order)
    requires order == [] || TextLess(keys[i], keys[order[0]])
    ensures InOrder(keys, [i] + order)
  {
    forall k | 0 <= k < |order|
      ensures !TextLess(keys[order[k]], keys[i])
    {
      if TextLess(keys[order[k]], keys[i]) {
        TextLessTransitive(keys[order[k]], keys[i], keys[order[0]]);
        TextLessIrreflexive(keys[order[0]]);
      }
    }
  }

  lemma {:induction false} InsertInOrder(keys: seq<Text>, i: nat, order: seq<nat>)
    requires i < |keys| && Positions(order, |keys|) && InOrder(keys, order)
    ensures InOrder(keys, InsertIndex(keys, i, order))
  {
    if order == [] || TextLess(keys[i], keys[order[0]]) {
      InsertFirst(keys, i, order);
    } else {
      var rest := InsertIndex(keys, i, order[1..]);
      InsertInOrder(keys, i, order[1..]);
      forall k | 0 <= k < |rest|
        ensures !TextLess(keys[rest[k]], keys[order[0]])
      {
        assert rest[k] in multiset(rest);
        assert rest[k] == i || rest[k] in order[1..];
      }
    }
  }

  lemma {:induction false} OrderInOrder(keys: seq<Text>, n: nat)
    requires n <= |keys|
    ensures InOrder(keys, OrderUpTo(keys, n))
  {
    if n > 0 {
      OrderInOrder(keys, n - 1);
      InsertInOrder(keys, n - 1, OrderUpTo(keys, n - 1));
    }
  }

  predicate Distinct(r: seq<nat>) {
    forall j, k :: 0 <= j < k < |r| ==> r[j] != r[k]
  }

  lemma Twice(r: seq<nat>, j: nat, k: nat)
    requires j < k < |r|
    ensures r[j] == r[k] ==> multiset(r)[r[j]] >= 2
  {
    assert r == r[..j] + [r[j]] + r[j + 1..k] + [r[k]] + r[k + 1..];
  }

  /** Every position stands in the order just once. */
  lemma OrderIsPermutation(keys: seq<Text>, n: nat)
    requires n <= |keys|
    ensures Distinct(OrderUpTo(keys, n))
    ensures forall x: nat :: x < n ==> x in OrderUpTo(keys, n)
  {
    var r := OrderUpTo(keys, n);
    forall j, k | 0 <= j < k < |r|
      ensures r[j] != r[k]
    {
      Twice(r, j, k);
    }
    forall x: nat | x < n
      ensures x in r
    {
      assert multiset(r)[x] == 1;
    }
  }

  function Ids(s: Jobs): (keys: seq<Text>)
    ensures |keys| == |s| && forall i :: 0 <= i < |s| ==> keys[i] == s[i].id
  {
    seq(|s|, i requires 0 <= i < |s| => s[i].id)
  }

  function Select(s: Jobs, order: seq<nat>): (t: Jobs)
    requires Positions(order, |s|)
    ensures |t| == |order| && forall j :: 0 <= j < |t| ==> t[j] == s[order[j]]
  {
    seq(|order|, j requires 0 <= j < |order| => s[order[j]])
  }

  /** The records in ascending order of id. */
  function SortById(s: Jobs): (t: Jobs)
    ensures |t| == |s|
  {
    Select(s, OrderUpTo(Ids(s), |s|))
  }

  /** Sorting keeps the records and puts different ids in strictly ascending order. */
  lemma SortByIdSorts(s: Jobs)
    requires UniqueIds(s)
    ensures var t := SortById(s);
            && UniqueIds(t)
            && (forall j, k :: 0 <= j < k < |t| ==> TextLess(t[j].id, t[k].id))
            && (forall r :: r in s <==> r in t)
  {
    hide OrderUpTo, TextLess;
    var t, order := SortById(s), OrderUpTo(Ids(s), |s|);
    OrderInOrder(Ids(s), |s|);
    OrderIsPermutation(Ids(s), |s|);
    forall j, k | 0 <= j < k < |t|
      ensures t[j].id != t[k].id && TextLess(t[j].id, t[k].id)
    {
      DifferentIds(s, order[j], order[k]);
      TextLessTotal(t[j].id, t[k].id);
    }
    forall r | r in s
      ensures r in t
    {
      var i: nat :| i < |s| && s[i] == r;
      assert i in order;
      var j :| 0 <= j < |order| && order[j] == i;
      assert t[j] == r;
    }
  }

  lemma DifferentIds(s: Jobs, i: nat, j: nat)
    requires UniqueIds(s) && i < |s| && j < |s| && i != j
    ensures s[i].id != s[j].id
  {
  }

  lemma SelectCons(s: Jobs, i: nat, order: seq<nat>)
    requires i < |s| && Positions(order, |s|)
    ensures Select(s, [i] + order) == [s[i]] + Select(s, order)
  {
  }

  lemma {:induction false} CountInserted(s: Jobs, i: nat, order: seq<nat>, status: Status)
    requires i < |s| && Positions(order, |s|)
    ensures Count(Select(s, InsertIndex(Ids(s), i, order)), status) ==
            Count(Select(s, order), status) + if s[i].status == status then 1 else 0
  {
    hide Select, Count, TextLess;
    if order == [] || TextLess(Ids(s)[i], Ids(s)[order[0]]) {
      SelectCons(s, i, order);
      CountCons(s[i], Select(s, order), status);
    } else {
      var rest := InsertIndex(Ids(s), i, order[1..]);
      CountInserted(s, i, order[1..], status);
      SelectCons(s, order[0], rest);
      SelectCons(s, order[0], order[1..]);
      assert order == [order[0]] + order[1..];
      CountCons(s[order[0]], Select(s, rest), status);
      CountCons(s[order[0]], Select(s, order[1..]), status);
    }
  }

  lemma {:induction false} CountOrdered(s: Jobs, n: nat, status: Status)
    requires n <= |s|
    ensures Count(Select(s, OrderUpTo(Ids(s), n)), status) == Count(s[..n], status)
  {
    hide InsertIndex, TextLess, Select;
    if n == 0 {
      assert s[..0] == [];
      assert Select(s, []) == [];
    } else {
      CountOrdered(s, n - 1, status);
      CountInserted(s, n - 1, OrderUpTo(Ids(s), n - 1), status);
      assert s[..n][..n - 1] == s[..n - 1];
    }
  }

  lemma CountSorted(s: Jobs, status: Status)
    ensures Count(SortById(s), status) == Count(s, status)
  {
    CountOrdered(s, |s|, status);
    assert s[..|s|] == s;
  }
}
